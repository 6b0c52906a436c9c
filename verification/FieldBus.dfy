/** Bus sessions: Connect and Disconnect calls in any number and order, each lock-held section one step. */
module FieldBus {
  import opened Prelude

  /** One established session: its connection and its router.  `errs` is the channel its router publishes on. */
  datatype Session = Session(errs: nat, routerClosed: bool, disconnects: nat)

  /** A Disconnect call past its lock section, with what it took from the bus. */
  datatype Disc = Taken(session: Option<nat>) | RouterClosed(session: Option<nat>) | Returned(session: Option<nat>)

  /** The mutex-guarded fields; connections and routers are named by their session. */
  datatype Bus = Bus(conn: Option<nat>, rtr: Option<nat>, connected: bool)

  datatype State = State(bus: Bus, errs: nat, sessions: seq<Session>, discs: seq<Disc>)

  datatype Action =
    | Connect(dialed: bool)
    | DisconnectLock
    | CloseRouter(d: nat)
    | DisconnectConn(d: nat)

  function Init(errs: nat): (s: State) { State(Bus(None, None, false), errs, [], []) }

  predicate Names(s: State, o: Option<nat>) { o.Some? ==> o.value < |s.sessions| }

  predicate Enabled(s: State, a: Action) {
    match a
    case Connect(_) => true
    case DisconnectLock => true
    case CloseRouter(d) => d < |s.discs| && s.discs[d].Taken? && Names(s, s.discs[d].session)
    case DisconnectConn(d) => d < |s.discs| && s.discs[d].RouterClosed? && Names(s, s.discs[d].session)
  }

  /** Connect's lock section; `k` names the session a successful dial establishes. */
  function ConnectBus(b: Bus, dialed: bool, k: nat): (b': Bus) {
    if b.connected || !dialed then b else Bus(Some(k), Some(k), true)
  }

  function Step(s: State, a: Action): (t: State)
    requires Enabled(s, a)
  {
    match a
    case Connect(dialed) =>
      s.(bus := ConnectBus(s.bus, dialed, |s.sessions|),
         sessions := if s.bus.connected || !dialed then s.sessions else s.sessions + [Session(s.errs, false, 0)])
    case DisconnectLock => s.(bus := Bus(None, None, false), discs := s.discs + [Taken(s.bus.conn)])
    case CloseRouter(d) =>
      var o := s.discs[d].session;
      s.(discs := s.discs[d := RouterClosed(o)],
         sessions := if o.Some? then s.sessions[o.value := s.sessions[o.value].(routerClosed := true)] else s.sessions)
    case DisconnectConn(d) =>
      var o := s.discs[d].session;
      s.(discs := s.discs[d := Returned(o)],
         sessions :=
           if o.None? then s.sessions
           else s.sessions[o.value := s.sessions[o.value].(disconnects := s.sessions[o.value].disconnects + 1)])
  }

  predicate Legal(errs: nat, acts: seq<Action>)
    decreases |acts|, 0
  {
    acts == [] ||
    (Legal(errs, acts[..|acts|-1]) && Enabled(Exec(errs, acts[..|acts|-1]), acts[|acts|-1]))
  }

  function Exec(errs: nat, acts: seq<Action>): (s: State)
    requires Legal(errs, acts)
    decreases |acts|, 1
  {
    if acts == [] then Init(errs) else Step(Exec(errs, acts[..|acts|-1]), acts[|acts|-1])
  }

  predicate Agree(b: Bus) { (b.connected <==> b.conn.Some?) && b.rtr == b.conn }

  /** Disconnect call d owns session k. */
  predicate Owns(s: State, d: nat, k: nat) { d < |s.discs| && s.discs[d].session == Some(k) }

  /** The session's teardown is as far as the Disconnect call that owns it: router first, then connection. */
  predicate Follows(k: Session, d: Disc) {
    k.routerClosed == !d.Taken? && k.disconnects == (if d.Returned? then 1 else 0)
  }

  ghost predicate Inv(s: State) {
    && Agree(s.bus)
    && (s.bus.conn.Some? ==> s.bus.conn.value < |s.sessions|)
    && (forall d: nat, k: nat :: Owns(s, d, k) ==> k < |s.sessions| && s.bus.conn != Some(k))
    && (forall c: nat, d: nat, k: nat :: Owns(s, c, k) && Owns(s, d, k) ==> c == d)
    && (forall k: nat :: k < |s.sessions| ==> s.sessions[k].errs == s.errs && s.sessions[k].disconnects <= 1)
    && (forall k: nat :: k < |s.sessions| && (s.sessions[k].disconnects == 1 || s.sessions[k].routerClosed) ==>
          exists d: nat :: Owns(s, d, k))
    && (forall d: nat, k: nat :: Owns(s, d, k) && k < |s.sessions| ==> Follows(s.sessions[k], s.discs[d]))
    && (forall k: nat :: k < |s.sessions| ==> s.bus.conn == Some(k) || Owned(s, k))
  }

  /** Some Disconnect call took session k from the bus. */
  ghost predicate Owned(s: State, k: nat) { exists d: nat :: Owns(s, d, k) }

  lemma OwnsFrame(s: State, a: Action, d: nat, k: nat)
    requires Enabled(s, a)
    ensures Owns(Step(s, a), d, k) <==>
      Owns(s, d, k) || (a.DisconnectLock? && d == |s.discs| && s.bus.conn == Some(k))
  {
  }

  lemma InvStep(s: State, a: Action)
    requires Inv(s) && Enabled(s, a)
    ensures Inv(Step(s, a))
  {
    var s' := Step(s, a);
    forall d: nat, k: nat
      ensures Owns(s', d, k) <==> Owns(s, d, k) || (a.DisconnectLock? && d == |s.discs| && s.bus.conn == Some(k))
    {
      OwnsFrame(s, a, d, k);
    }
    forall k: nat | k < |s'.sessions| && (s'.sessions[k].disconnects == 1 || s'.sessions[k].routerClosed)
      ensures exists d: nat :: Owns(s', d, k)
    {
      if k < |s.sessions| && (s.sessions[k].disconnects == 1 || s.sessions[k].routerClosed) {
        var d: nat :| Owns(s, d, k);
        assert Owns(s', d, k);
      } else {
        assert Owns(s', a.d, k);
      }
    }
    forall k: nat | k < |s'.sessions|
      ensures s'.bus.conn == Some(k) || Owned(s', k)
    {
      if k < |s.sessions| && Owned(s, k) {
        var d: nat :| Owns(s, d, k);
        assert Owns(s', d, k);
      } else if a.DisconnectLock? {
        assert Owns(s', |s.discs|, k);
      }
    }
    forall d: nat, k: nat | Owns(s', d, k) && k < |s'.sessions|
      ensures Follows(s'.sessions[k], s'.discs[d])
    {
      if Owns(s, d, k) {
        assert Follows(s.sessions[k], s.discs[d]);
        assert (a.CloseRouter? || a.DisconnectConn?) && Owns(s, a.d, k) ==> a.d == d;
      } else {
        assert !exists e: nat :: Owns(s, e, k);
      }
    }
  }

  lemma {:induction false} InvAlways(errs: nat, acts: seq<Action>)
    requires Legal(errs, acts)
    ensures Inv(Exec(errs, acts)) && Exec(errs, acts).errs == errs
  {
    if acts != [] {
      var n := |acts| - 1;
      InvAlways(errs, acts[..n]);
      InvStep(Exec(errs, acts[..n]), acts[n]);
    }
  }

  /** After every step of every run the connected flag, the connection and the router agree. */
  lemma {:induction false} FlagsAgree(errs: nat, acts: seq<Action>)
    requires Legal(errs, acts)
    ensures var b := Exec(errs, acts).bus;
      (b.connected <==> b.conn.Some?) && (b.connected <==> b.rtr.Some?) && b.rtr == b.conn
  {
    InvAlways(errs, acts);
  }

  /** An established connection is disconnected at most once, by the one Disconnect call that took it from
      the bus, and only after that call's Close of the session's own router returned; a session still on
      the bus has neither. */
  lemma {:induction false} DisconnectedOnceAfterClose(errs: nat, acts: seq<Action>, k: nat)
    requires Legal(errs, acts) && k < |Exec(errs, acts).sessions|
    ensures var s := Exec(errs, acts);
      && s.sessions[k].disconnects <= 1
      && (s.sessions[k].disconnects == 1 ==> s.sessions[k].routerClosed)
      && (s.bus.conn == Some(k) ==> s.sessions[k].disconnects == 0 && !s.sessions[k].routerClosed)
      && (forall c: nat, d: nat :: Owns(s, c, k) && Owns(s, d, k) ==> c == d)
  {
    InvAlways(errs, acts);
    var s := Exec(errs, acts);
    if s.sessions[k].disconnects == 1 || s.sessions[k].routerClosed {
      var d: nat :| Owns(s, d, k);
      assert Follows(s.sessions[k], s.discs[d]);
    }
  }

  /** A connection is entered into DisconnectConn only when its router's Close has returned. */
  lemma {:induction false} CloseComesFirst(errs: nat, acts: seq<Action>, d: nat, k: nat)
    requires Legal(errs, acts) && Enabled(Exec(errs, acts), DisconnectConn(d)) && Owns(Exec(errs, acts), d, k)
    ensures k < |Exec(errs, acts).sessions| && Exec(errs, acts).sessions[k].routerClosed
    ensures Exec(errs, acts).sessions[k].disconnects == 0
  {
    InvAlways(errs, acts);
    assert Follows(Exec(errs, acts).sessions[k], Exec(errs, acts).discs[d]);
  }

  /** No session is lost: it is the bus's, or exactly one Disconnect call has taken it.  A Connect on a connected
      bus changes nothing, and one that cannot dial changes nothing. */
  lemma {:induction false} NoSessionLost(errs: nat, acts: seq<Action>, k: nat, dialed: bool)
    requires Legal(errs, acts)
    ensures k < |Exec(errs, acts).sessions| ==>
      (Exec(errs, acts).bus.conn == Some(k) <==> !Owned(Exec(errs, acts), k))
    ensures Exec(errs, acts).bus.connected || !dialed ==>
      Step(Exec(errs, acts), Connect(dialed)) == Exec(errs, acts)
    ensures !Exec(errs, acts).bus.connected && dialed ==>
      var n, s' := |Exec(errs, acts).sessions|, Step(Exec(errs, acts), Connect(dialed));
      s'.bus == Bus(Some(n), Some(n), true) && |s'.sessions| == n + 1
  {
    InvAlways(errs, acts);
  }

  /** Every session publishes on the one channel the bus was created with. */
  lemma {:induction false} OneErrorChannel(errs: nat, acts: seq<Action>, k: nat)
    requires Legal(errs, acts) && k < |Exec(errs, acts).sessions|
    ensures Exec(errs, acts).sessions[k].errs == errs
  {
    InvAlways(errs, acts);
  }

  /** The bus object.  `established` counts the sessions, to name them. */
  class MessageBus {
    var conn: Option<nat>
    var rtr: Option<nat>
    var connected: bool
    var subject: string
    var established: nat
    const user: string

    ghost function View(): (b: Bus)
      reads this
    {
      Bus(conn, rtr, connected)
    }

    constructor (user: string)
      ensures View() == Bus(None, None, false) && established == 0 && this.user == user
    {
      conn, rtr, connected, subject, established := None, None, false, "", 0;
      this.user := user;
    }

    /** Connect; `dialed` tells whether gridappsd.Connect succeeds. */
    method Connect(dialed: bool) returns (ok: bool)
      requires Agree(View())
      modifies this
      ensures View() == old(ConnectBus(View(), dialed, established)) && Agree(View())
      ensures old(connected) || !dialed ==> View() == old(View())
      ensures !old(connected) && dialed ==> conn == rtr == Some(old(established)) && connected
      ensures ok == connected && ok == (old(connected) || dialed)
      ensures established == old(established) + (if !old(connected) && dialed then 1 else 0)
      ensures subject == if !old(connected) && dialed then user else old(subject)
    {
      if connected {
        return true;
      }
      if !dialed {
        return false;
      }
      conn := Some(established);
      rtr := Some(established);
      subject := user;
      connected := true;
      established := established + 1;
      ok := true;
    }

    /** Disconnect's lock section: what it returns is the caller's to close and disconnect. */
    method DisconnectLocked() returns (r: Option<nat>, c: Option<nat>)
      requires Agree(View())
      modifies this
      ensures View() == Bus(None, None, false) && Agree(View())
      ensures r == old(rtr) && c == old(conn) && r == c && established == old(established) && subject == old(subject)
    {
      r, c := rtr, conn;
      rtr, conn, connected := None, None, false;
    }
  }
}
