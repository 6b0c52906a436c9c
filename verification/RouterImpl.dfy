/** The router's own operations on the heap.  Each performs, on the fields the code has, exactly the
    actions it appends to `trace`; the theorems about runs then apply to it.  A method is one thread's
    code; it asks of the shared state only what the lock and its own phase give it. */
module RouterImpl {
  import opened Prelude
  import opened RouterModel
  import opened RouterSafety
  import opened RouterDispatch

  type Handler = nat

  /** A destination state: the fields the code has, and its subscription's channel.  A pointer to one
      is its index in `Router.states`. */
  datatype DestState = DestState(handlers: map<Token, Handler>, done: bool, queue: seq<Msg>, closed: bool)

  predicate Shows(st: DestState, r: Reader) {
    st.handlers.Keys == r.handlers && st.done == r.Dead() && st.queue == r.queue && st.closed == r.closed
  }

  // The state after one more action, spelled out field by field.

  lemma {:induction false} ExtendAttach(acts: seq<Action>, s: State, tok: Token, d: Dest)
    requires Legal(acts) && s == Exec(acts) && tok in s.inFlight && HasLive(s, d)
    ensures Legal(acts + [Attach(tok, d)])
    ensures Exec(acts + [Attach(tok, d)]) == s.(
      readers := s.readers[s.dests[d] := AddHandler(s.readers[s.dests[d]], tok)], inFlight := s.inFlight - {tok})
  {
    Extend(acts, Attach(tok, d));
    assert Step(s, Attach(tok, d)).readers == s.readers[s.dests[d] := AddHandler(s.readers[s.dests[d]], tok)];
  }

  lemma {:induction false} ExtendFails(acts: seq<Action>, s: State, tok: Token, d: Dest)
    requires Legal(acts) && s == Exec(acts) && tok in s.inFlight && !HasLive(s, d)
    ensures Legal(acts + [SubscribeFails(tok, d)])
    ensures Exec(acts + [SubscribeFails(tok, d)]) == s.(inFlight := s.inFlight - {tok})
  {
    Extend(acts, SubscribeFails(tok, d));
    assert Step(s, SubscribeFails(tok, d)).readers == s.readers;
  }

  /** What an implementation sees of a Create: a fresh reader at the end, its destination rebound. */
  lemma {:induction false} ExtendCreate(acts: seq<Action>, s: State, tok: Token, d: Dest)
    requires Legal(acts) && s == Exec(acts) && tok in s.inFlight && !HasLive(s, d)
    ensures Legal(acts + [Create(tok, d)])
    ensures var s' := Exec(acts + [Create(tok, d)]);
      && s'.dests == s.dests[d := |s.readers|] && s'.nextToken == s.nextToken
      && |s'.readers| == |s.readers| + 1 && s'.readers[|s.readers|] == FreshReader(d, tok)
      && forall k :: 0 <= k < |s.readers| ==> SameView(s.readers[k], s'.readers[k])
  {
    Extend(acts, Create(tok, d));
    CreateStepIs(s, tok, d);
  }

  /** The fields of a reader that the code itself has. */
  predicate SameView(r: Reader, r': Reader) {
    r'.handlers == r.handlers && r'.Dead() == r.Dead() && r'.queue == r.queue && r'.closed == r.closed
  }

  lemma RemoveTokenView(r: Reader, tok: Token)
    ensures SameView(r.(handlers := r.handlers - {tok}), RemoveToken(r, tok))
    ensures DropHandler(r, tok).handlers == {} <==> r.handlers <= {tok}
  {
    assert DropHandler(r, tok).handlers == r.handlers - {tok};
    assert r.handlers <= {tok} <==> r.handlers - {tok} == {};
  }

  lemma {:induction false} ExtendUnsubscribe(acts: seq<Action>, s: State, d: Dest, tok: Token)
    requires Legal(acts) && s == Exec(acts)
    ensures Legal(acts + [Unsubscribe(d, tok)])
    ensures var s' := Exec(acts + [Unsubscribe(d, tok)]);
      && |s'.readers| == |s.readers| && s'.nextToken == s.nextToken
      && (forall k: nat :: k < |s.readers| && !At(s, d, k) ==> s'.readers[k] == s.readers[k])
      && (d !in s.dests ==> s'.dests == s.dests)
      && (d in s.dests && s.dests[d] < |s.readers| ==>
            var k := s.dests[d];
            && SameView(s.readers[k].(handlers := s.readers[k].handlers - {tok}), s'.readers[k])
            && s'.dests == (if s.readers[k].handlers <= {tok} then s.dests - {d} else s.dests))
  {
    Extend(acts, Unsubscribe(d, tok));
    if d in s.dests && s.dests[d] < |s.readers| {
      assert At(s, d, s.dests[d]);
      RemoveTokenView(s.readers[s.dests[d]], tok);
    }
  }

  lemma {:induction false} ExtendClose(acts: seq<Action>, s: State)
    requires Legal(acts) && s == Exec(acts)
    ensures Legal(acts + [CloseLock])
    ensures var s' := Exec(acts + [CloseLock]);
      && s'.dests == map[] && s'.nextToken == s.nextToken && |s'.readers| == |s.readers|
      && s'.closers == s.closers + [Closer(Collected(s), false)]
      && forall k :: 0 <= k < |s.readers| ==> SameView(s.readers[k], s'.readers[k])
  {
    Extend(acts, CloseLock);
  }

  lemma {:induction false} ExtendDeregister(acts: seq<Action>, s: State, k: nat)
    requires Legal(acts) && s == Exec(acts) && Enabled(s, Deregister(k))
    ensures Legal(acts + [Deregister(k)])
    ensures Exec(acts + [Deregister(k)]) == s.(
      dests := if IsRegistered(s, k) then s.dests - {s.readers[k].dest} else s.dests,
      wg := NextWg(s, Deregister(k)),
      readers := s.readers[k := Leave(s.readers[k], IsRegistered(s, k))])
  {
    Extend(acts, Deregister(k));
    DeregisterStepIs(s, k);
  }

  /** The live subscriptions of the registered destinations among ds. */
  function LiveAmong(s: State, ds: set<Dest>): (subs: set<nat>) {
    set d | d in ds && HasLive(s, d) :: s.dests[d]
  }

  lemma OneMoreLive(s: State, ds: set<Dest>, d: Dest)
    requires d in s.dests && s.dests[d] < |s.readers|
    ensures LiveAmong(s, ds + {d}) == LiveAmong(s, ds) + (if s.readers[s.dests[d]].Dead() then {} else {s.dests[d]})
  {
  }

  lemma AllLive(s: State)
    requires RegistryOk(s)
    ensures LiveAmong(s, s.dests.Keys) == Collected(s)
  {
    forall k: nat | k in Collected(s)
      ensures s.readers[k].dest in s.dests.Keys && s.dests[s.readers[k].dest] == k
    {
    }
  }

  /** Every token of the map is bound to the handler it was registered with. */
  predicate Binds(handlers: map<Token, Handler>, given: map<Token, Handler>) {
    forall t :: t in handlers ==> t in given && handlers[t] == given[t]
  }

  predicate ShowsAll(states: seq<DestState>, readers: seq<Reader>) {
    |states| == |readers| && forall k :: 0 <= k < |states| ==> Shows(states[k], readers[k])
  }

  predicate BindsAll(states: seq<DestState>, given: map<Token, Handler>) {
    forall k :: 0 <= k < |states| ==> Binds(states[k].handlers, given)
  }

  /** One state is shown in a new form, the others look as before. */
  lemma ShowsOne(states: seq<DestState>, readers: seq<Reader>, readers': seq<Reader>, k: nat, st: DestState)
    requires ShowsAll(states, readers) && |readers'| == |readers| && k < |readers| && Shows(st, readers'[k])
    requires forall i :: 0 <= i < |readers| && i != k ==> SameView(readers[i], readers'[i])
    ensures ShowsAll(states[k := st], readers')
  {
  }

  lemma ShowsMore(states: seq<DestState>, readers: seq<Reader>, readers': seq<Reader>, st: DestState)
    requires ShowsAll(states, readers) && |readers'| == |readers| + 1 && Shows(st, readers'[|readers|])
    requires forall i :: 0 <= i < |readers| ==> SameView(readers[i], readers'[i])
    ensures ShowsAll(states + [st], readers')
  {
  }

  /** A token that is registered nowhere can be given a handler, in one of the states or in a new one. */
  lemma BindsMore(states: seq<DestState>, given: map<Token, Handler>, tok: Token, h: Handler)
    requires BindsAll(states, given) && forall k :: 0 <= k < |states| ==> tok !in states[k].handlers
    ensures BindsAll(states + [DestState(map[tok := h], false, [], false)], given[tok := h])
    ensures forall k :: 0 <= k < |states| ==>
      BindsAll(states[k := states[k].(handlers := states[k].handlers[tok := h])], given[tok := h])
  {
    assert BindsAll(states, given[tok := h]) by {
      forall k | 0 <= k < |states|
        ensures Binds(states[k].handlers, given[tok := h])
      {
        assert Binds(states[k].handlers, given);
      }
    }
  }

  lemma BindsLess(states: seq<DestState>, given: map<Token, Handler>, k: nat, tok: Token)
    requires BindsAll(states, given) && k < |states|
    ensures BindsAll(states[k := states[k].(handlers := states[k].handlers - {tok})], given)
  {
    assert Binds(states[k].handlers, given);
  }

  lemma WithoutKeys(handlers: map<Token, Handler>, tok: Token)
    ensures (handlers - {tok}).Keys == handlers.Keys - {tok}
    ensures handlers.Keys <= {tok} <==> (handlers - {tok}).Keys == {}
  {
  }

  class Router {
    var dests: map<Dest, nat>
    var states: seq<DestState>
    var nextToken: nat
    ghost var trace: seq<Action>
    ghost var model: State             // where the trace has led
    ghost var given: map<Token, Handler>   // the handler each returned token was registered with

    ghost predicate Valid()
      reads this
    {
      && Legal(trace) && model == Exec(trace)
      && nextToken == model.nextToken && dests == model.dests
      && ShowsAll(states, model.readers) && BindsAll(states, given)
      && (forall d :: d in dests ==> dests[d] < |states|)
    }

    constructor ()
      ensures Valid() && dests == map[] && trace == [] && states == [] && given == map[]
    {
      dests, nextToken, states, trace, model, given := map[], 0, [], [], INIT, map[];
    }

    method DrawToken() returns (tok: Token)
      requires Valid()
      modifies this
      ensures Valid() && states == old(states) && dests == old(dests) && given == old(given)
      ensures trace == old(trace) + [RouterModel.DrawToken]
      ensures tok in model.inFlight && (forall k: nat :: !Owns(model, k, tok))
    {
      Extend(trace, RouterModel.DrawToken);
      DrawTokenStepIs(model);
      nextToken := nextToken + 1;
      tok := nextToken;
      trace := trace + [RouterModel.DrawToken];
      model := Exec(trace);
      InvAlways(trace);
    }

    /** Subscribe's lock section; `dialed` tells whether the transport's Subscribe succeeds. */
    method SubscribeLocked(tok: Token, d: Dest, h: Handler, dialed: bool) returns (ok: bool)
      requires Valid() && tok in model.inFlight
      modifies this
      ensures Valid()
      ensures ok == (old(HasLive(model, d)) || dialed)
      ensures trace == old(trace) + [
        if old(HasLive(model, d)) then Attach(tok, d) else if dialed then Create(tok, d) else SubscribeFails(tok, d)]
      ensures old(HasLive(model, d)) ==>
        && dests == old(dests)
        && var k, was := dests[d], old(states);
           states == was[k := was[k].(handlers := was[k].handlers[tok := h])]
      ensures !old(HasLive(model, d)) && dialed ==>
        && dests == old(dests)[d := |old(states)|]
        && states == old(states) + [DestState(map[tok := h], false, [], false)]
      ensures !ok ==> dests == old(dests) && states == old(states)
      ensures ok ==>
        && d in dests && dests[d] < |states| && !states[dests[d]].done
        && tok in states[dests[d]].handlers && states[dests[d]].handlers[tok] == h
      ensures given == if ok then old(given)[tok := h] else old(given)
    {
      if d in dests && !states[dests[d]].done {
        AddToLive(tok, d, h);
        return true;
      }
      if dialed {
        StartReader(tok, d, h);
        return true;
      }
      ExtendFails(trace, model, tok, d);
      trace := trace + [SubscribeFails(tok, d)];
      model := Exec(trace);
      ok := false;
    }

    /** A token in flight is registered nowhere. */
    lemma FreshToken(tok: Token)
      requires Valid() && tok in model.inFlight
      ensures forall k :: 0 <= k < |states| ==> tok !in states[k].handlers
    {
      InvAlways(trace);
      forall k | 0 <= k < |states|
        ensures tok !in states[k].handlers
      {
        assert Shows(states[k], model.readers[k]);
        assert ReaderOk(model.readers[k]) && !Owns(model, k, tok);
      }
    }

    /** In every reachable router, a registered token is bound to the handler its own Subscribe was given. */
    lemma BoundAsGiven(k: nat, tok: Token)
      requires Valid() && k < |states| && tok in states[k].handlers
      ensures tok in given && states[k].handlers[tok] == given[tok]
    {
      assert Binds(states[k].handlers, given);
    }

    method AddToLive(tok: Token, d: Dest, h: Handler)
      requires Valid() && tok in model.inFlight && HasLive(model, d)
      modifies this
      ensures Valid() && trace == old(trace) + [Attach(tok, d)] && dests == old(dests)
      ensures d in dests && dests[d] < |old(states)| && !states[dests[d]].done
      ensures states
        == old(states)[dests[d] := old(states)[dests[d]].(handlers := old(states)[dests[d]].handlers[tok := h])]
      ensures given == old(given)[tok := h]
    {
      var k := dests[d];
      FreshToken(tok);
      BindsMore(states, given, tok, h);
      ExtendAttach(trace, model, tok, d);
      var st := states[k].(handlers := states[k].handlers[tok := h]);
      assert Shows(states[k], model.readers[k]);
      ShowsOne(states, model.readers, Exec(trace + [Attach(tok, d)]).readers, k, st);
      given := given[tok := h];
      states := states[k := st];
      trace := trace + [Attach(tok, d)];
      model := Exec(trace);
    }

    method StartReader(tok: Token, d: Dest, h: Handler)
      requires Valid() && tok in model.inFlight && !HasLive(model, d)
      modifies this
      ensures Valid() && trace == old(trace) + [Create(tok, d)] && dests == old(dests)[d := |old(states)|]
      ensures states == old(states) + [DestState(map[tok := h], false, [], false)]
      ensures given == old(given)[tok := h]
    {
      FreshToken(tok);
      BindsMore(states, given, tok, h);
      ExtendCreate(trace, model, tok, d);
      ShowsMore(states, model.readers, Exec(trace + [Create(tok, d)]).readers,
                DestState(map[tok := h], false, [], false));
      given := given[tok := h];
      dests := dests[d := |states|];
      states := states + [DestState(map[tok := h], false, [], false)];
      trace := trace + [Create(tok, d)];
      model := Exec(trace);
    }

    /** Unsubscribe's lock section: the token's own binding goes, every other one stays as it is.  A returned state
        is the caller's to unsubscribe at the transport. */
    method UnsubscribeLocked(d: Dest, tok: Token) returns (toCancel: Option<nat>)
      requires Valid()
      modifies this
      ensures Valid() && trace == old(trace) + [Unsubscribe(d, tok)] && given == old(given)
      ensures d !in old(dests) ==> states == old(states) && dests == old(dests)
      ensures d in old(dests) ==>
        var k, was := old(dests[d]), old(states);
        && k < |was| && states == was[k := was[k].(handlers := was[k].handlers - {tok})]
        && dests == (if was[k].handlers.Keys <= {tok} then old(dests) - {d} else old(dests))
      ensures toCancel.Some? <==>
        d in old(dests) && old(states[dests[d]].handlers.Keys) <= {tok} && !old(states[dests[d]].done)
      ensures toCancel.Some? ==> toCancel.value == old(dests[d])
    {
      ExtendUnsubscribe(trace, model, d, tok);
      trace := trace + [Unsubscribe(d, tok)];
      model := Exec(trace);
      if d !in dests {
        return None;
      }
      var k := dests[d];
      WithoutKeys(states[k].handlers, tok);
      BindsLess(states, given, k, tok);
      ghost var st := states[k].(handlers := states[k].handlers - {tok});
      assert Shows(states[k], old(model).readers[k]);
      ShowsOne(states, old(model).readers, model.readers, k, st);
      states := states[k := states[k].(handlers := states[k].handlers - {tok})];
      if states[k].handlers.Keys != {} {
        return None;
      }
      dests := dests - {d};
      toCancel := if states[k].done then None else Some(k);
    }

    /** The loop of Close's lock section: the live subscriptions of the registry. */
    method CollectLive() returns (subs: set<nat>)
      requires Valid()
      ensures subs == Collected(model)
    {
      subs := {};
      var left := dests.Keys;
      while left != {}
        invariant left <= dests.Keys
        invariant subs == LiveAmong(model, dests.Keys - left)
      {
        var d :| d in left;
        OneMoreLive(model, dests.Keys - left, d);
        assert dests.Keys - (left - {d}) == (dests.Keys - left) + {d};
        assert Shows(states[dests[d]], model.readers[dests[d]]);
        if !states[dests[d]].done {
          subs := subs + {dests[d]};
        }
        left := left - {d};
      }
      assert dests.Keys - left == dests.Keys;
      InvAlways(trace);
      AllLive(model);
    }

    method CloseLocked() returns (subs: set<nat>)
      requires Valid()
      modifies this
      ensures Valid() && states == old(states) && dests == map[] && trace == old(trace) + [CloseLock]
      ensures given == old(given)
      ensures subs == old(Collected(model)) == model.closers[|model.closers| - 1].subs
      ensures forall k :: k in subs <==>
        exists d :: d in old(dests) && old(dests)[d] == k && k < |states| && !states[k].done
    {
      subs := CollectLive();
      InvAlways(trace);
      AllLive(model);
      ExtendClose(trace, model);
      dests := map[];
      trace := trace + [CloseLock];
      model := Exec(trace);
    }

    /** readLoop's last lock section: the state leaves the registry if it is still the registered one. */
    method DeregisterLocked(k: nat, dest: Dest) returns (unexpected: bool)
      requires Valid() && k < |states| && model.readers[k].phase.Marked? && model.readers[k].dest == dest
      modifies this
      ensures Valid() && states == old(states) && given == old(given) && trace == old(trace) + [Deregister(k)]
      ensures unexpected == old(IsRegistered(model, k))
      ensures dests == if unexpected then old(dests) - {dest} else old(dests)
    {
      unexpected := dest in dests && dests[dest] == k;
      ExtendDeregister(trace, model, k);
      if unexpected {
        dests := dests - {dest};
      }
      trace := trace + [Deregister(k)];
      model := Exec(trace);
    }
  }

  /** The bodies a handler gets when it is in the i-th snapshot exactly for the i's in question. */
  function Picked(bodies: seq<string>, snaps: seq<set<Token>>, t: Token): (out: seq<string>)
    requires |bodies| <= |snaps|
  {
    if bodies == [] then []
    else
      var n := |bodies| - 1;
      Picked(bodies[..n], snaps, t) + (if t in snaps[n] then [bodies[n]] else [])
  }

  /** One call of a handler function, for the registration of a token. */
  datatype Invocation = Invocation(token: Token, handler: Handler, body: string)

  /** What was called for token t, in order: the handler and the body. */
  function Handed(calls: seq<Invocation>, t: Token): (out: seq<(Handler, string)>) {
    if calls == [] then []
    else
      var n := |calls| - 1;
      Handed(calls[..n], t) + (if calls[n].token == t then [(calls[n].handler, calls[n].body)] else [])
  }

  lemma HandedOneMore(calls: seq<Invocation>, c: Invocation, t: Token)
    ensures Handed(calls + [c], t) == Handed(calls, t) + (if c.token == t then [(c.handler, c.body)] else [])
  {
    assert (calls + [c])[..|calls|] == calls;
  }

  lemma {:induction false} HandedConcat(c1: seq<Invocation>, c2: seq<Invocation>, t: Token)
    ensures Handed(c1 + c2, t) == Handed(c1, t) + Handed(c2, t)
  {
    if c2 == [] {
      assert c1 + c2 == c1;
    } else {
      var n := |c2| - 1;
      assert (c1 + c2)[..|c1| + n] == c1 + c2[..n];
      HandedConcat(c1, c2[..n], t);
    }
  }

  /** What token t is handed when the i-th snapshot binds it exactly for the i's in question: each time the handler
      that snapshot binds it to. */
  function PickedCalls(bodies: seq<string>, snaps: seq<map<Token, Handler>>, t: Token): (out: seq<(Handler, string)>)
    requires |bodies| <= |snaps|
  {
    if bodies == [] then []
    else
      var n := |bodies| - 1;
      PickedCalls(bodies[..n], snaps, t) + (if t in snaps[n] then [(snaps[n][t], bodies[n])] else [])
  }

  function KeysOf(snaps: seq<map<Token, Handler>>): (sets: seq<set<Token>>) {
    seq(|snaps|, i requires 0 <= i < |snaps| => snaps[i].Keys)
  }

  function Seconds(calls: seq<(Handler, string)>): (bodies: seq<string>) {
    seq(|calls|, i requires 0 <= i < |calls| => calls[i].1)
  }

  /** The handlers apart, these are the bodies of the snapshots that have the token. */
  lemma {:induction false} PickedCallsAre(bodies: seq<string>, snaps: seq<map<Token, Handler>>, t: Token)
    requires |bodies| <= |snaps|
    ensures Seconds(PickedCalls(bodies, snaps, t)) == Picked(bodies, KeysOf(snaps), t)
  {
    if bodies != [] {
      var n := |bodies| - 1;
      PickedCallsAre(bodies[..n], snaps, t);
      var before := PickedCalls(bodies[..n], snaps, t);
      var last := if t in snaps[n] then [(snaps[n][t], bodies[n])] else [];
      assert KeysOf(snaps)[n] == snaps[n].Keys;
      assert Seconds(before + last) == Seconds(before) + Seconds(last);
      assert Seconds(last) == if t in KeysOf(snaps)[n] then [bodies[n]] else [];
    } else {
      assert Seconds([]) == [];
    }
  }

  /** With every snapshot bound as given, a token is always handed to its own handler. */
  lemma {:induction false} PickedCallsGiven(bodies: seq<string>, snaps: seq<map<Token, Handler>>,
                                            given: map<Token, Handler>, t: Token)
    requires |bodies| <= |snaps| && forall i :: 0 <= i < |bodies| ==> Binds(snaps[i], given)
    ensures forall c :: c in PickedCalls(bodies, snaps, t) ==> t in given && c.0 == given[t]
  {
    if bodies != [] {
      var n := |bodies| - 1;
      PickedCallsGiven(bodies[..n], snaps, given, t);
      assert Binds(snaps[n], given);
      assert PickedCalls(bodies, snaps, t)
          == PickedCalls(bodies[..n], snaps, t) + (if t in snaps[n] then [(snaps[n][t], bodies[n])] else []);
    }
  }

  /** The dispatch loop over one snapshot, in the map's arbitrary order: each handler once, with the body. */
  method CallEach(snapshot: map<Token, Handler>, body: string) returns (calls: seq<Invocation>)
    ensures forall t :: Handed(calls, t) == if t in snapshot then [(snapshot[t], body)] else []
    ensures |calls| == |snapshot.Keys|
  {
    var left := snapshot.Keys;
    calls := [];
    while left != {}
      invariant left <= snapshot.Keys && |calls| == |snapshot.Keys| - |left|
      invariant forall t :: Handed(calls, t) == if t in snapshot && t !in left then [(snapshot[t], body)] else []
    {
      var t :| t in left;
      var c := Invocation(t, snapshot[t], body);
      forall u
        ensures Handed(calls + [c], u) == Handed(calls, u) + (if u == t then [(snapshot[t], body)] else [])
      {
        HandedOneMore(calls, c, u);
      }
      calls := calls + [c];
      left := left - {t};
    }
  }

  /** readLoop on a channel that carries `queue` and is then closed.  Other threads act between its
      steps: `snaps[i]` is what its i-th lock section finds as its handler map, and `registered`
      whether its state is still in the registry at the last one. */
  method ReadLoop(queue: seq<Msg>, snaps: seq<map<Token, Handler>>, registered: bool, dest: Dest)
    returns (calls: seq<Invocation>, report: Option<Report>)
    requires |Bodies(queue)| <= |snaps|
    ensures forall t :: Handed(calls, t) == PickedCalls(Bodies(queue), snaps, t)
    ensures report == match FirstFault(queue)
      case Some(c) => Some(BrokerError(dest, c))
      case None => if registered then Some(SubscriptionClosed(dest)) else None
  {
    calls := [];
    var termErr: Option<Report> := None;
    var i := 0;
    assert queue[0..] == queue;
    while i < |queue|
      invariant 0 <= i <= |queue| && termErr.None?
      invariant FirstFault(queue) == FirstFault(queue[i..])
      invariant |Bodies(queue)| == i + |Bodies(queue[i..])|
      invariant Bodies(queue)[i..] == Bodies(queue[i..])
      invariant forall t :: Handed(calls, t) == PickedCalls(Bodies(queue)[..i], snaps, t)
    {
      var msg := queue[i];
      if msg.Fault? {
        termErr := Some(BrokerError(dest, msg.cause));
        assert Bodies(queue)[..i] == Bodies(queue);
        break;
      }
      var more := CallEach(snaps[i], msg.body);
      assert Bodies(queue)[i] == Bodies(queue)[i..][0] == msg.body;
      forall t
        ensures Handed(calls + more, t) == PickedCalls(Bodies(queue)[..i + 1], snaps, t)
      {
        HandedConcat(calls, more, t);
        PickedNext(Bodies(queue), snaps, i, t);
      }
      calls := calls + more;
      assert queue[i..][1..] == queue[i + 1..];
      assert Bodies(queue)[i..][1..] == Bodies(queue)[i + 1..];
      i := i + 1;
    }
    if termErr.None? {
      assert Bodies(queue)[..i] == Bodies(queue);
    }
    report := if termErr.Some? then termErr
              else if registered then Some(SubscriptionClosed(dest)) else None;
  }

  lemma PickedNext(bodies: seq<string>, snaps: seq<map<Token, Handler>>, i: nat, t: Token)
    requires i < |bodies| <= |snaps|
    ensures PickedCalls(bodies[..i + 1], snaps, t)
         == PickedCalls(bodies[..i], snaps, t) + (if t in snaps[i] then [(snaps[i][t], bodies[i])] else [])
  {
    assert bodies[..i + 1][..i] == bodies[..i];
  }

  /** The handler maps that reader k's dispatch lock sections found in the run. */
  function Snaps(acts: seq<Action>, k: nat): (snaps: seq<set<Token>>)
    requires Legal(acts)
  {
    if acts == [] then []
    else
      var n := |acts| - 1;
      Snaps(acts[..n], k) + (if acts[n] == Snapshot(k) then [Exec(acts[..n]).readers[k].handlers] else [])
  }

  /** What reader r has called, and is about to call, is what the snapshots say. */
  ghost predicate FollowsSnaps(r: Reader, snaps: seq<set<Token>>) {
    && |snaps| == |r.seen|
    && forall t :: Delivered(r.calls, t) + Outstanding(r, t) == Picked(r.seen, snaps, t)
  }

  lemma FollowsSnapshot(r: Reader, k: nat, snaps: seq<set<Token>>)
    requires FollowsSnaps(r, snaps) && Ready(r, Snapshot(k))
    ensures FollowsSnaps(LocalStep(r, Snapshot(k)), snaps + [r.handlers])
  {
    var r' := LocalStep(r, Snapshot(k));
    assert r'.seen[..|r.seen|] == r.seen;
    forall t
      ensures Delivered(r'.calls, t) + Outstanding(r', t) == Picked(r'.seen, snaps + [r.handlers], t)
    {
      PickedLonger(r.seen, snaps, [r.handlers], t);
      assert Delivered(r.calls, t) + Outstanding(r, t) == Picked(r.seen, snaps, t);
    }
  }

  lemma {:induction false} PickedLonger(bodies: seq<string>, snaps: seq<set<Token>>, more: seq<set<Token>>, t: Token)
    requires |bodies| <= |snaps|
    ensures Picked(bodies, snaps + more, t) == Picked(bodies, snaps, t)
  {
    if bodies != [] {
      PickedLonger(bodies[..|bodies|-1], snaps, more, t);
    }
  }

  lemma FollowsInvoke(r: Reader, k: nat, tok: Token, snaps: seq<set<Token>>)
    requires FollowsSnaps(r, snaps) && Ready(r, Invoke(k, tok))
    ensures FollowsSnaps(LocalStep(r, Invoke(k, tok)), snaps)
  {
    var r' := LocalStep(r, Invoke(k, tok));
    forall t
      ensures Delivered(r'.calls, t) + Outstanding(r', t) == Picked(r'.seen, snaps, t)
    {
      InvokeDelivers(r, k, tok, t);
      assert Delivered(r.calls, t) + Outstanding(r, t) == Picked(r.seen, snaps, t);
    }
  }

  /** An action that leaves calls and snapshots alone, and closes no dispatch with calls outstanding. */
  lemma FollowsSame(r: Reader, r': Reader, snaps: seq<set<Token>>)
    requires FollowsSnaps(r, snaps) && r'.calls == r.calls && r'.seen == r.seen
    requires r'.phase == r.phase || (Quiet(r) && !r'.phase.Dispatching?)
    ensures FollowsSnaps(r', snaps)
  {
    forall t
      ensures Delivered(r'.calls, t) + Outstanding(r', t) == Picked(r'.seen, snaps, t)
    {
      assert Delivered(r.calls, t) + Outstanding(r, t) == Picked(r.seen, snaps, t);
    }
  }

  predicate SameCalls(r: Reader, r': Reader) {
    r'.calls == r.calls && r'.seen == r.seen && (r'.phase == r.phase || (Quiet(r) && !r'.phase.Dispatching?))
  }

  lemma LocalQuiet(r: Reader, a: Action)
    requires Local(a) && Ready(r, a) && !a.Snapshot? && !a.Invoke?
    ensures SameCalls(r, LocalStep(r, a))
  {
  }

  lemma OtherQuiet(s: State, a: Action, k: nat)
    requires Enabled(s, a) && k < |s.readers| && !Local(a)
    ensures SameCalls(s.readers[k], NextReader(s, a, k))
  {
  }

  lemma FollowsStep(s: State, a: Action, k: nat, snaps: seq<set<Token>>)
    requires Enabled(s, a) && k < |s.readers| && FollowsSnaps(s.readers[k], snaps)
    ensures FollowsSnaps(NextReader(s, a, k), snaps + (if a == Snapshot(k) then [s.readers[k].handlers] else []))
  {
    var r := s.readers[k];
    assert snaps + [] == snaps;
    if !Local(a) {
      OtherQuiet(s, a, k);
      FollowsSame(r, NextReader(s, a, k), snaps);
    } else if a.k == k {
      if a.Snapshot? {
        FollowsSnapshot(r, k, snaps);
      } else if a.Invoke? {
        FollowsInvoke(r, k, a.tok, snaps);
      } else {
        LocalQuiet(r, a);
        FollowsSame(r, LocalStep(r, a), snaps);
      }
    }
  }

  lemma {:induction false} FollowsAlways(acts: seq<Action>, k: nat)
    requires Legal(acts)
    ensures k < |Exec(acts).readers| ==> FollowsSnaps(Exec(acts).readers[k], Snaps(acts, k))
    ensures k >= |Exec(acts).readers| ==> Snaps(acts, k) == []
  {
    if acts != [] {
      var n := |acts| - 1;
      var s := Exec(acts[..n]);
      FollowsAlways(acts[..n], k);
      if k < |s.readers| {
        FollowsStep(s, acts[n], k, Snaps(acts[..n], k));
      }
    }
  }

  /** Every reader of every run does what ReadLoop does on what it met: the messages of its channel, the handler
      maps its lock sections found, here with the handlers left out, and whether it was still registered at
      the last one. */
  lemma {:induction false} ReaderFollowsLoop(acts: seq<Action>, k: nat)
    requires Legal(acts) && k < |Exec(acts).readers| && Exec(acts).readers[k].phase.Finished?
    ensures var r := Exec(acts).readers[k];
      && |Bodies(r.input)| == |Snaps(acts, k)|
      && (forall t :: Delivered(r.calls, t) == Picked(Bodies(r.input), Snaps(acts, k), t))
      && (r.reports == match FirstFault(r.input)
          case Some(c) => [BrokerError(r.dest, c)]
          case None => if r.removal.ReaderExit? then [SubscriptionClosed(r.dest)] else [])
  {
    InvAlways(acts);
    StoppedReaderDispatchedAll(acts, k);
    FollowsAlways(acts, k);
    var r := Exec(acts).readers[k];
    forall t
      ensures Delivered(r.calls, t) == Picked(r.seen, Snaps(acts, k), t)
    {
      assert Delivered(r.calls, t) + Outstanding(r, t) == Picked(r.seen, Snaps(acts, k), t);
    }
  }
}
