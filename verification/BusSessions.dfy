/** The bus on top of its sessions' routers: Subscribe, Unsubscribe and Disconnect calls of the bus in any number
    and order, each on the router that was the bus's when the call read it.  Every session has a router of
    its own, whose token counter starts again. */
module BusSessions {
  import opened Prelude
  import F = FieldBus
  import R = RouterModel
  import RS = RouterSafety
  import RQ = RouterQuiescence
  import Q = ReqResp

  const CHAN: nat := 0   // the bus's error channel

  /** A Subscribe or Unsubscribe call of the bus that found a session. */
  datatype Call =
    | Subscribing(session: nat, dest: Dest, drawn: Option<R.Token>)
    | Subscribed(session: nat, dest: Dest, tok: R.Token)
    | Unsubscribing(session: nat, dest: Dest, tok: R.Token)
    | Over

  /** The bus's actions so far, those of each session's router, the calls, and for each Disconnect call that has
      entered its router's Close which of that router's Close calls it is. */
  datatype Joint = Joint(bus: seq<F.Action>, routers: seq<seq<R.Action>>, calls: seq<Call>, closes: map<nat, nat>)

  datatype Move =
    | Connect(dialed: bool)
    | Lock                              // Disconnect's lock section
    | StartClose(d: nat)                // it enters its router's Close
    | EndClose(d: nat)                  // which returns
    | EndConn(d: nat)                   // it disconnects its connection
    | BeginSubscribe(dest: Dest)        // Subscribe reads the router under the bus's lock
    | Draw(c: nat)                      // and enters its Subscribe
    | Land(c: nat, dialed: bool)        // which takes the router's lock and returns
    | BeginUnsubscribe(dest: Dest, tok: R.Token)
    | Remove(c: nat)
    | Inside(k: nat, a: R.Action)       // readers, transport and owed Unsubscribe calls of session k

  predicate Runs(j: Joint) {
    && F.Legal(CHAN, j.bus) && |j.routers| == |F.Exec(CHAN, j.bus).sessions|
    && forall k :: 0 <= k < |j.routers| ==> R.Legal(j.routers[k])
  }

  function Router(j: Joint, k: nat): (s: R.State)
    requires Runs(j) && k < |j.routers|
  {
    R.Exec(j.routers[k])
  }

  function Bus(j: Joint): (s: F.State)
    requires Runs(j)
  {
    F.Exec(CHAN, j.bus)
  }

  /** What Subscribe's lock section does. */
  function Landing(s: R.State, dest: Dest, tok: R.Token, dialed: bool): (a: R.Action) {
    if R.HasLive(s, dest) then R.Attach(tok, dest)
    else if dialed then R.Create(tok, dest) else R.SubscribeFails(tok, dest)
  }

  predicate Can(j: Joint, m: Move)
    requires Runs(j)
  {
    match m
    case Connect(_) => true
    case Lock => true
    case StartClose(d) =>
      && d < |Bus(j).discs| && Bus(j).discs[d].Taken? && Bus(j).discs[d].session.Some?
      && Bus(j).discs[d].session.value < |j.routers| && d !in j.closes
    case EndClose(d) =>
      && F.Enabled(Bus(j), F.CloseRouter(d))
      && (Bus(j).discs[d].session.Some? ==>
            && Bus(j).discs[d].session.value < |j.routers| && d in j.closes
            && R.Enabled(Router(j, Bus(j).discs[d].session.value), R.CloseReturn(j.closes[d])))
    case EndConn(d) => F.Enabled(Bus(j), F.DisconnectConn(d))
    case BeginSubscribe(_) => true
    case Draw(c) =>
      c < |j.calls| && j.calls[c].Subscribing? && j.calls[c].drawn.None? && j.calls[c].session < |j.routers|
    case Land(c, _) =>
      && c < |j.calls| && j.calls[c].Subscribing? && j.calls[c].drawn.Some? && j.calls[c].session < |j.routers|
      && j.calls[c].drawn.value in Router(j, j.calls[c].session).inFlight
    case BeginUnsubscribe(_, _) => true
    case Remove(c) => c < |j.calls| && j.calls[c].Unsubscribing? && j.calls[c].session < |j.routers|
    case Inside(k, a) => k < |j.routers| && (R.Local(a) || a.Deregister?) && R.Enabled(Router(j, k), a)
  }

  function NextBus(j: Joint, m: Move): (bus: seq<F.Action>) {
    match m
    case Connect(dialed) => j.bus + [F.Connect(dialed)]
    case Lock => j.bus + [F.DisconnectLock]
    case EndClose(d) => j.bus + [F.CloseRouter(d)]
    case EndConn(d) => j.bus + [F.DisconnectConn(d)]
    case _ => j.bus
  }

  /** The router action of a move: the session and the action. */
  function RouterAction(j: Joint, m: Move): (o: Option<(nat, R.Action)>)
    requires Runs(j) && Can(j, m)
  {
    match m
    case StartClose(d) => Some((Bus(j).discs[d].session.value, R.CloseLock))
    case EndClose(d) =>
      if Bus(j).discs[d].session.None? then None
      else Some((Bus(j).discs[d].session.value, R.CloseReturn(j.closes[d])))
    case Draw(c) => Some((j.calls[c].session, R.DrawToken))
    case Land(c, dialed) =>
      var call := j.calls[c];
      Some((call.session, Landing(Router(j, call.session), call.dest, call.drawn.value, dialed)))
    case Remove(c) => Some((j.calls[c].session, R.Unsubscribe(j.calls[c].dest, j.calls[c].tok)))
    case Inside(k, a) => Some((k, a))
    case _ => None
  }

  function NextRouters(j: Joint, m: Move): (routers: seq<seq<R.Action>>)
    requires Runs(j) && Can(j, m)
  {
    match RouterAction(j, m)
    case Some((k, a)) => if k < |j.routers| then j.routers[k := j.routers[k] + [a]] else j.routers
    case None => if m.Connect? && m.dialed && !Bus(j).bus.connected then j.routers + [[]] else j.routers
  }

  function NextCalls(j: Joint, m: Move): (calls: seq<Call>)
    requires Runs(j) && Can(j, m)
  {
    match m
    case BeginSubscribe(dest) =>
      if Bus(j).bus.rtr.None? then j.calls
      else j.calls + [Subscribing(Bus(j).bus.rtr.value, Q.NormalizeDestination(dest), None)]
    case BeginUnsubscribe(dest, tok) =>
      if Bus(j).bus.rtr.None? then j.calls
      else j.calls + [Unsubscribing(Bus(j).bus.rtr.value, Q.NormalizeDestination(dest), tok)]
    case Draw(c) => j.calls[c := j.calls[c].(drawn := Some(Router(j, j.calls[c].session).nextToken + 1))]
    case Land(c, dialed) =>
      var call := j.calls[c];
      if Landing(Router(j, call.session), call.dest, call.drawn.value, dialed).SubscribeFails? then j.calls[c := Over]
      else j.calls[c := Subscribed(call.session, call.dest, call.drawn.value)]
    case Remove(c) => j.calls[c := Over]
    case _ => j.calls
  }

  function Next(j: Joint, m: Move): (j': Joint)
    requires Runs(j) && Can(j, m)
  {
    Joint(NextBus(j, m), NextRouters(j, m), NextCalls(j, m),
          if m.StartClose? then j.closes[m.d := |Router(j, Bus(j).discs[m.d].session.value).closers|] else j.closes)
  }

  // ----- what every move keeps -----

  /** Call c holds token t of session k, drawn or returned. */
  predicate Holds(j: Joint, c: nat, k: nat, t: R.Token) {
    && c < |j.calls|
    && ((j.calls[c].Subscribing? && j.calls[c].session == k && j.calls[c].drawn == Some(t))
     || (j.calls[c].Subscribed? && j.calls[c].session == k && j.calls[c].tok == t))
  }

  /** Call c returned token t of session k for destination d. */
  predicate Issued(j: Joint, c: nat, k: nat, d: Dest, t: R.Token) {
    c < |j.calls| && j.calls[c] == Subscribed(k, d, t)
  }

  /** Token t is registered for destination d with reader r of session k's router, now or in the past. */
  predicate Known(j: Joint, k: nat, r: nat, d: Dest, t: R.Token)
    requires Runs(j)
  {
    k < |j.routers| && RS.Owns(Router(j, k), r, t) && Router(j, k).readers[r].dest == d
  }

  ghost predicate CallsOk(j: Joint)
    requires Runs(j)
  {
    && (forall c :: 0 <= c < |j.calls| && !j.calls[c].Over? ==> j.calls[c].session < |j.routers|)
    && (forall b: nat, c: nat, k: nat, t: R.Token :: Holds(j, b, k, t) && Holds(j, c, k, t) ==> b == c)
    && (forall c: nat, k: nat, t: R.Token :: Holds(j, c, k, t) && j.calls[c].Subscribing? ==>
          k < |j.routers| && t in Router(j, k).inFlight)
  }

  /** The registrations of a session's router are those of its Subscribe calls that returned. */
  ghost predicate TokensMatch(j: Joint)
    requires Runs(j)
  {
    && (forall c: nat, k: nat, d: Dest, t: R.Token :: Issued(j, c, k, d, t) ==> exists r: nat :: Known(j, k, r, d, t))
    && (forall k: nat, r: nat, d: Dest, t: R.Token :: Known(j, k, r, d, t) ==> exists c: nat :: Issued(j, c, k, d, t))
  }

  predicate HasReturned(acts: seq<R.Action>) { exists i :: 0 <= i < |acts| && acts[i].CloseReturn? }

  /** A Disconnect call past its router's Close has seen it return. */
  ghost predicate ClosesOk(j: Joint)
    requires Runs(j)
  {
    forall d: nat, k: nat :: PastClose(Bus(j), d, k) ==>
      k < |j.routers| && HasReturned(j.routers[k])
  }

  ghost predicate Coupled(j: Joint) { Runs(j) && CallsOk(j) && TokensMatch(j) && ClosesOk(j) }

  const INIT := Joint([], [], [], map[])

  lemma {:induction false} BusExtend(acts: seq<F.Action>, a: F.Action)
    requires F.Legal(CHAN, acts) && F.Enabled(F.Exec(CHAN, acts), a)
    ensures F.Legal(CHAN, acts + [a]) && F.Exec(CHAN, acts + [a]) == F.Step(F.Exec(CHAN, acts), a)
  {
    var more := acts + [a];
    assert more[..|more| - 1] == acts && more[|more| - 1] == a;
  }

  /** The Disconnect call has got past its router's Close, for session k. */
  predicate PastClose(s: F.State, d: nat, k: nat) { F.Owns(s, d, k) && !s.discs[d].Taken? }

  lemma PastCloseFrame(s: F.State, a: F.Action, d: nat, k: nat)
    requires F.Enabled(s, a) && PastClose(F.Step(s, a), d, k)
    ensures F.Owns(s, d, k) && (PastClose(s, d, k) || a == F.CloseRouter(d))
    ensures |F.Step(s, a).sessions| >= |s.sessions|
  {
  }

  lemma BusFrame(j: Joint, m: Move)
    requires Runs(j) && Can(j, m)
    ensures F.Legal(CHAN, NextBus(j, m))
    ensures |NextRouters(j, m)| == |F.Exec(CHAN, NextBus(j, m)).sessions| >= |j.routers|
  {
    match m
    case Connect(dialed) => BusExtend(j.bus, F.Connect(dialed));
    case Lock => BusExtend(j.bus, F.DisconnectLock);
    case EndClose(d) => BusExtend(j.bus, F.CloseRouter(d));
    case EndConn(d) => BusExtend(j.bus, F.DisconnectConn(d));
    case _ =>
  }

  lemma PastCloseStep(j: Joint, m: Move, d: nat, k: nat)
    requires Runs(j) && Can(j, m) && F.Legal(CHAN, NextBus(j, m)) && PastClose(F.Exec(CHAN, NextBus(j, m)), d, k)
    ensures F.Owns(Bus(j), d, k) && (PastClose(Bus(j), d, k) || m == EndClose(d))
  {
    if NextBus(j, m) != j.bus {
      var a := NextBus(j, m)[|j.bus|];
      assert NextBus(j, m) == j.bus + [a];
      BusExtend(j.bus, a);
      PastCloseFrame(Bus(j), a, d, k);
    }
  }

  /** The router action of a move is one that its router can take. */
  lemma ActionEnabled(j: Joint, m: Move)
    requires Runs(j) && Can(j, m) && RouterAction(j, m).Some?
    ensures RouterAction(j, m).value.0 < |j.routers|
    ensures R.Enabled(Router(j, RouterAction(j, m).value.0), RouterAction(j, m).value.1)
  {
  }

  /** A session's router after the move: as it was, or one action further. */
  lemma RouterFrame(j: Joint, m: Move, k: nat)
    requires Runs(j) && Can(j, m) && k < |NextRouters(j, m)|
    ensures R.Legal(NextRouters(j, m)[k])
    ensures k < |j.routers| ==>
      match RouterAction(j, m)
      case Some((i, a)) =>
        if i == k then
          && NextRouters(j, m)[k] == j.routers[k] + [a] && R.Enabled(Router(j, k), a)
          && R.Exec(NextRouters(j, m)[k]) == R.Step(Router(j, k), a)
        else NextRouters(j, m)[k] == j.routers[k]
      case None => NextRouters(j, m)[k] == j.routers[k]
    ensures k >= |j.routers| ==> NextRouters(j, m)[k] == []
  {
    if RouterAction(j, m).Some? {
      ActionEnabled(j, m);
    }
    match RouterAction(j, m)
    case Some((i, a)) => if i == k { R.Extend(j.routers[k], a); }
    case None =>
  }

  lemma RunsStep(j: Joint, m: Move)
    requires Runs(j) && Can(j, m)
    ensures Runs(Next(j, m))
  {
    BusFrame(j, m);
    forall k | 0 <= k < |NextRouters(j, m)|
      ensures R.Legal(NextRouters(j, m)[k])
    {
      RouterFrame(j, m, k);
    }
  }

  // ----- one router -----

  /** The action registers token t with reader r. */
  predicate Registers(s: R.State, a: R.Action, r: nat, t: R.Token) {
    || (a.Attach? && R.At(s, a.dest, r) && t == a.tok)
    || (a.Create? && r == |s.readers| && t == a.tok)
  }

  lemma OwnsFrame(s: R.State, a: R.Action, r: nat, t: R.Token)
    requires RS.Inv(s) && R.Enabled(s, a)
    ensures RS.Owns(R.Step(s, a), r, t) <==> RS.Owns(s, r, t) || Registers(s, a, r, t)
    ensures r < |s.readers| ==> R.Step(s, a).readers[r].dest == s.readers[r].dest
    ensures Registers(s, a, r, t) ==> R.Step(s, a).readers[r].dest == a.dest
  {
    if r < |s.readers| {
      RS.TokensFrame(s, a, r);
      RS.RegistryFrame(s, a, r);
      assert t in R.Step(s, a).readers[r].from <==> t in R.Step(s, a).readers[r].from.Keys;
      assert t in s.readers[r].from <==> t in s.readers[r].from.Keys;
    }
  }

  /** A Subscribe that lands registers its token with one reader, for its destination. */
  lemma LandingRegisters(s: R.State, d: Dest, t: R.Token, dialed: bool) returns (r: nat)
    requires RS.Inv(s) && t in s.inFlight && !Landing(s, d, t, dialed).SubscribeFails?
    ensures var a := Landing(s, d, t, dialed);
      && R.Enabled(s, a) && Registers(s, a, r, t)
      && RS.Owns(R.Step(s, a), r, t) && R.Step(s, a).readers[r].dest == d
  {
    r := if R.HasLive(s, d) then s.dests[d] else |s.readers|;
    OwnsFrame(s, Landing(s, d, t, dialed), r, t);
  }

  /** What a move does to the tokens in flight of a session: a Draw adds the next one, a Land takes its own. */
  lemma InFlightFrame(j: Joint, m: Move, k: nat, t: R.Token)
    requires Runs(j) && Can(j, m) && k < |j.routers| && t in Router(j, k).inFlight
    requires m.Land? && j.calls[m.c].session == k ==> t != j.calls[m.c].drawn.value
    ensures Runs(Next(j, m)) && k < |Next(j, m).routers| && t in Router(Next(j, m), k).inFlight
  {
    RunsStep(j, m);
    BusFrame(j, m);
    RouterFrame(j, m, k);
  }

  // ----- the calls -----

  lemma HeldIsOld(j: Joint, c: nat, k: nat, t: R.Token)
    requires Coupled(j) && Holds(j, c, k, t)
    ensures k < |j.routers| && t <= Router(j, k).nextToken
  {
    RS.InvAlways(j.routers[k]);
    if j.calls[c].Subscribed? {
      assert Issued(j, c, k, j.calls[c].dest, t);
      var r: nat :| Known(j, k, r, j.calls[c].dest, t);
    }
  }

  lemma HoldsFrame(j: Joint, m: Move, c: nat, k: nat, t: R.Token)
    requires Runs(j) && Can(j, m) && Holds(Next(j, m), c, k, t)
    ensures Holds(j, c, k, t)
      || (m == Draw(c) && k == j.calls[c].session && k < |j.routers| && t == Router(j, k).nextToken + 1)
    ensures Next(j, m).calls[c].Subscribing? && !m.Draw? ==>
      Holds(j, c, k, t) && j.calls[c].Subscribing? && !(m.Land? && m.c == c)
  {
  }

  lemma RangeStep(j: Joint, m: Move, c: nat)
    requires Coupled(j) && Can(j, m) && c < |Next(j, m).calls| && !Next(j, m).calls[c].Over?
    ensures Next(j, m).calls[c].session < |j.routers|
  {
    F.InvAlways(CHAN, j.bus);
  }

  lemma DistinctStep(j: Joint, m: Move, b: nat, c: nat, k: nat, t: R.Token)
    requires Coupled(j) && Can(j, m) && Holds(Next(j, m), b, k, t) && Holds(Next(j, m), c, k, t)
    ensures b == c
  {
    HoldsFrame(j, m, b, k, t);
    HoldsFrame(j, m, c, k, t);
    if Holds(j, b, k, t) { HeldIsOld(j, b, k, t); }
    if Holds(j, c, k, t) { HeldIsOld(j, c, k, t); }
  }

  lemma CallsStep(j: Joint, m: Move)
    requires Coupled(j) && Can(j, m)
    ensures Runs(Next(j, m)) && CallsOk(Next(j, m))
  {
    var j' := Next(j, m);
    RunsStep(j, m);
    BusFrame(j, m);
    forall c | 0 <= c < |j'.calls| && !j'.calls[c].Over?
      ensures j'.calls[c].session < |j'.routers|
    {
      RangeStep(j, m, c);
    }
    forall b: nat, c: nat, k: nat, t: R.Token | Holds(j', b, k, t) && Holds(j', c, k, t)
      ensures b == c
    {
      DistinctStep(j, m, b, c, k, t);
    }
    forall c: nat, k: nat, t: R.Token | Holds(j', c, k, t) && j'.calls[c].Subscribing?
      ensures k < |j'.routers| && t in Router(j', k).inFlight
    {
      SubscribingStep(j, m, c, k, t);
    }
  }

  lemma SubscribingStep(j: Joint, m: Move, c: nat, k: nat, t: R.Token)
    requires Coupled(j) && Can(j, m) && Runs(Next(j, m))
    requires Holds(Next(j, m), c, k, t) && Next(j, m).calls[c].Subscribing?
    ensures k < |Next(j, m).routers| && t in Router(Next(j, m), k).inFlight
  {
    HoldsFrame(j, m, c, k, t);
    BusFrame(j, m);
    if Holds(j, c, k, t) {
      if m.Land? && j.calls[m.c].session == k && j.calls[m.c].drawn.value == t {
        assert Holds(j, m.c, k, t);
      }
      InFlightFrame(j, m, k, t);
    } else {
      RouterFrame(j, m, k);
      R.DrawTokenStepIs(Router(j, k));
    }
  }

  // ----- the registrations -----

  /** Registrations are never forgotten. */
  lemma KnownStays(j: Joint, m: Move, k: nat, r: nat, d: Dest, t: R.Token)
    requires Runs(j) && Can(j, m) && Runs(Next(j, m)) && Known(j, k, r, d, t)
    ensures Known(Next(j, m), k, r, d, t)
  {
    BusFrame(j, m);
    RouterFrame(j, m, k);
    RS.InvAlways(j.routers[k]);
    match RouterAction(j, m)
    case Some((i, a)) => if i == k { OwnsFrame(Router(j, k), a, r, t); }
    case None =>
  }

  lemma OnlyLandRegisters(j: Joint, m: Move, k: nat, a: R.Action, r: nat, t: R.Token)
    requires Runs(j) && Can(j, m) && RouterAction(j, m) == Some((k, a)) && k < |j.routers|
    requires Registers(Router(j, k), a, r, t)
    ensures m.Land? && Issued(Next(j, m), m.c, k, a.dest, t)
  {
  }

  /** A new registration is that of the Subscribe call that lands. */
  lemma KnownFrame(j: Joint, m: Move, k: nat, r: nat, d: Dest, t: R.Token)
    requires Runs(j) && Can(j, m) && Runs(Next(j, m)) && Known(Next(j, m), k, r, d, t)
    ensures Known(j, k, r, d, t) || (m.Land? && Issued(Next(j, m), m.c, k, d, t))
  {
    BusFrame(j, m);
    RouterFrame(j, m, k);
    if k < |j.routers| {
      RS.InvAlways(j.routers[k]);
      match RouterAction(j, m)
      case Some((i, a)) =>
        if i == k {
          OwnsFrame(Router(j, k), a, r, t);
          if Registers(Router(j, k), a, r, t) {
            OnlyLandRegisters(j, m, k, a, r, t);
          }
        }
      case None =>
    }
  }

  lemma IssuedStays(j: Joint, m: Move, c: nat, k: nat, d: Dest, t: R.Token)
    requires Runs(j) && Can(j, m) && Issued(j, c, k, d, t)
    ensures Issued(Next(j, m), c, k, d, t)
  {
  }

  /** A call that returns a token has registered it. */
  lemma IssuedFrame(j: Joint, m: Move, c: nat, k: nat, d: Dest, t: R.Token)
    requires Runs(j) && Can(j, m) && Runs(Next(j, m)) && Issued(Next(j, m), c, k, d, t) && !Issued(j, c, k, d, t)
    ensures exists r: nat :: Known(Next(j, m), k, r, d, t)
  {
    assert m.Land? && m.c == c && j.calls[c].Subscribing? && j.calls[c] == Subscribing(k, d, Some(t));
    BusFrame(j, m);
    RouterFrame(j, m, k);
    RS.InvAlways(j.routers[k]);
    var r := LandingRegisters(Router(j, k), d, t, m.dialed);
    assert Known(Next(j, m), k, r, d, t);
  }

  lemma TokensStep(j: Joint, m: Move)
    requires Coupled(j) && Can(j, m) && Runs(Next(j, m))
    ensures TokensMatch(Next(j, m))
  {
    var j' := Next(j, m);
    forall c: nat, k: nat, d: Dest, t: R.Token | Issued(j', c, k, d, t)
      ensures exists r: nat :: Known(j', k, r, d, t)
    {
      if Issued(j, c, k, d, t) {
        var r: nat :| Known(j, k, r, d, t);
        KnownStays(j, m, k, r, d, t);
      } else {
        IssuedFrame(j, m, c, k, d, t);
      }
    }
    forall k: nat, r: nat, d: Dest, t: R.Token | Known(j', k, r, d, t)
      ensures exists c: nat :: Issued(j', c, k, d, t)
    {
      KnownFrame(j, m, k, r, d, t);
      if Known(j, k, r, d, t) {
        var c: nat :| Issued(j, c, k, d, t);
        IssuedStays(j, m, c, k, d, t);
      }
    }
  }

  lemma ClosesStep(j: Joint, m: Move)
    requires Coupled(j) && Can(j, m) && Runs(Next(j, m))
    ensures ClosesOk(Next(j, m))
  {
    var j' := Next(j, m);
    BusFrame(j, m);
    forall d: nat, k: nat | PastClose(Bus(j'), d, k)
      ensures k < |j'.routers| && HasReturned(j'.routers[k])
    {
      PastCloseStep(j, m, d, k);
      if PastClose(Bus(j), d, k) {
        RouterFrame(j, m, k);
        StillReturned(j.routers[k], j'.routers[k]);
      } else {
        RouterFrame(j, m, k);
        assert j'.routers[k][|j.routers[k]|].CloseReturn?;
      }
    }
  }

  lemma StillReturned(acts: seq<R.Action>, more: seq<R.Action>)
    requires HasReturned(acts) && acts <= more
    ensures HasReturned(more)
  {
    var i :| 0 <= i < |acts| && acts[i].CloseReturn?;
    assert more[i].CloseReturn?;
  }

  /** Whatever moves next, every session's router continues a legal run of its own, and the registrations in it
      are those of the bus's Subscribe calls. */
  lemma StaysCoupled(j: Joint, m: Move)
    requires Coupled(j) && Can(j, m)
    ensures Coupled(Next(j, m))
  {
    CallsStep(j, m);
    TokensStep(j, m);
    ClosesStep(j, m);
  }

  /** A run of the bus from the start. */
  ghost predicate Possible(moves: seq<Move>)
    decreases |moves|, 0
  {
    moves == [] || (Possible(moves[..|moves|-1]) && Can(After(moves[..|moves|-1]), moves[|moves|-1]))
  }

  ghost function After(moves: seq<Move>): (j: Joint)
    requires Possible(moves)
    ensures Coupled(j)
    decreases |moves|, 1
  {
    if moves == [] then INIT
    else
      var before := After(moves[..|moves|-1]);
      StaysCoupled(before, moves[|moves|-1]);
      Next(before, moves[|moves|-1])
  }

  /** A state that some run of the bus leads to. */
  ghost predicate Reachable(j: Joint) { exists moves :: Possible(moves) && After(moves) == j }

  lemma ReachableCoupled(j: Joint)
    requires Reachable(j)
    ensures Coupled(j)
  {
    var moves :| Possible(moves) && After(moves) == j;
  }

  lemma InitReachable()
    ensures Reachable(INIT)
  {
    assert Possible([]) && After([]) == INIT;
  }

  lemma {:induction false} Longer(moves: seq<Move>, m: Move) returns (more: seq<Move>)
    requires Possible(moves) && Can(After(moves), m)
    ensures Possible(more) && After(more) == Next(After(moves), m)
  {
    more := moves + [m];
    assert more[..|more| - 1] == moves && more[|more| - 1] == m;
  }

  lemma {:induction false} ThenReachable(j: Joint, m: Move)
    requires Reachable(j) && Runs(j) && Can(j, m)
    ensures Reachable(Next(j, m))
  {
    var moves :| Possible(moves) && After(moves) == j;
    var more := Longer(moves, m);
  }

  // ----- tokens -----

  /** The n-th token drawn from a session's router is n; every session starts again at one. */
  lemma {:induction false} DrawNumber(acts: seq<R.Action>)
    requires R.Legal(acts)
    ensures R.Exec(acts).nextToken == Count(acts, R.DrawToken)
  {
    if acts != [] {
      DrawNumber(acts[..|acts|-1]);
    }
  }

  /** Each Subscribe call is promised a distinct token.  Within a session it gets one; two calls with the same
      token belong to different sessions. */
  lemma {:induction false} DistinctWithinSession(j: Joint, b: nat, c: nat, i: nat, k: nat, d: Dest, e: Dest, t: R.Token)
    requires Reachable(j) && b != c && Issued(j, b, i, d, t) && Issued(j, c, k, e, t)
    ensures i < |j.routers| && k < |j.routers| && i != k
    ensures 1 <= t <= Count(j.routers[i], R.DrawToken) && t <= Count(j.routers[k], R.DrawToken)
  {
    ReachableCoupled(j);
    assert Holds(j, b, i, t) && Holds(j, c, k, t);
    HeldIsOld(j, b, i, t);
    HeldIsOld(j, c, k, t);
    DrawNumber(j.routers[i]);
    DrawNumber(j.routers[k]);
    var r: nat :| Known(j, i, r, d, t);
    Positive(j.routers[i], r, t);
  }

  lemma {:induction false} Positive(acts: seq<R.Action>, r: nat, t: R.Token)
    requires R.Legal(acts) && RS.Owns(R.Exec(acts), r, t)
    ensures t >= 1
  {
    AllPositive(acts);
  }

  lemma {:induction false} AllPositive(acts: seq<R.Action>)
    requires R.Legal(acts)
    ensures 0 !in R.Exec(acts).inFlight && forall r: nat :: !RS.Owns(R.Exec(acts), r, 0)
  {
    if acts != [] {
      var n := |acts| - 1;
      AllPositive(acts[..n]);
      RS.InvAlways(acts[..n]);
      forall r: nat
        ensures !RS.Owns(R.Exec(acts), r, 0)
      {
        OwnsFrame(R.Exec(acts[..n]), acts[n], r, 0);
      }
    }
  }

  /** What a landing does to the registry, for its own destination and token. */
  lemma {:induction false} LandingBinds(acts: seq<R.Action>, d: Dest, t: R.Token, dialed: bool)
    requires R.Legal(acts) && t in R.Exec(acts).inFlight
    ensures R.Enabled(R.Exec(acts), Landing(R.Exec(acts), d, t, dialed))
    ensures var s := R.Exec(acts); var s' := R.Step(s, Landing(s, d, t, dialed));
      (d in s'.dests && s'.dests[d] < |s'.readers| && t in s'.readers[s'.dests[d]].handlers) <==>
        R.HasLive(s, d) || dialed
  {
    var s := R.Exec(acts);
    var a := Landing(s, d, t, dialed);
    RS.InvAlways(acts);
    if !a.SubscribeFails? {
      RS.TokenBoundToRegisteredReader(acts, a);
    } else if d in s.dests {
      assert !RS.Owns(s, s.dests[d], t);
    }
  }

  /** A bus Subscribe that reads a session's router returns a token if and only if the destination has a live reader
      there or the dial succeeds; its handler is then registered, for the normalized destination. */
  lemma {:induction false} SubscribeReturns(j: Joint, c: nat, dialed: bool)
    requires Reachable(j) && Runs(j) && Can(j, Land(c, dialed))
    ensures var k, d, t := j.calls[c].session, j.calls[c].dest, j.calls[c].drawn.value;
      && (Issued(Next(j, Land(c, dialed)), c, k, d, t) <==> R.HasLive(Router(j, k), d) || dialed)
      && Runs(Next(j, Land(c, dialed)))
      && (Live(Next(j, Land(c, dialed)), k, d, t) <==> R.HasLive(Router(j, k), d) || dialed)
  {
    ReachableCoupled(j);
    RunsStep(j, Land(c, dialed));
    LandIssues(j, c, dialed);
    LandLive(j, c, dialed);
  }

  lemma LandIssues(j: Joint, c: nat, dialed: bool)
    requires Runs(j) && Can(j, Land(c, dialed))
    ensures var k, d, t := j.calls[c].session, j.calls[c].dest, j.calls[c].drawn.value;
      Issued(Next(j, Land(c, dialed)), c, k, d, t) <==> R.HasLive(Router(j, k), d) || dialed
  {
  }

  lemma LandLive(j: Joint, c: nat, dialed: bool)
    requires Runs(j) && Can(j, Land(c, dialed)) && Runs(Next(j, Land(c, dialed)))
    ensures var k, d, t := j.calls[c].session, j.calls[c].dest, j.calls[c].drawn.value;
      Live(Next(j, Land(c, dialed)), k, d, t) <==> R.HasLive(Router(j, k), d) || dialed
  {
    var call := j.calls[c];
    BusFrame(j, Land(c, dialed));
    RouterFrame(j, Land(c, dialed), call.session);
    LandingBinds(j.routers[call.session], call.dest, call.drawn.value, dialed);
  }

  /** Token t is registered now, for destination d of session k. */
  predicate Live(j: Joint, k: nat, d: Dest, t: R.Token)
    requires Runs(j)
  {
    && k < |j.routers| && d in Router(j, k).dests && Router(j, k).dests[d] < |Router(j, k).readers|
    && t in Router(j, k).readers[Router(j, k).dests[d]].handlers
  }

  lemma {:induction false} LiveIsIssued(j: Joint, k: nat, d: Dest, t: R.Token) returns (b: nat)
    requires Coupled(j) && Live(j, k, d, t)
    ensures Issued(j, b, k, d, t)
  {
    RS.InvAlways(j.routers[k]);
    var r := Router(j, k).dests[d];
    assert Known(j, k, r, d, t);
    b :| Issued(j, b, k, d, t);
  }

  /** Unsubscribe with an unknown token is promised to be a no-op.  It is one exactly when the session it reaches
      has no handler registered under that number for the destination. */
  lemma {:induction false} UnknownTokenExactly(j: Joint, c: nat)
    requires Reachable(j) && Runs(j) && Can(j, Remove(c))
    ensures var call := j.calls[c];
      && (Live(j, call.session, call.dest, call.tok) <==>
            R.Step(Router(j, call.session), R.Unsubscribe(call.dest, call.tok)) != Router(j, call.session))
      && !Live(Next(j, Remove(c)), call.session, call.dest, call.tok)
  {
    var call := j.calls[c];
    ReachableCoupled(j);
    StaysCoupled(j, Remove(c));
    RouterFrame(j, Remove(c), call.session);
    UnsubscribeEffect(j.routers[call.session], call.dest, call.tok);
  }

  lemma {:induction false} UnsubscribeEffect(acts: seq<R.Action>, d: Dest, t: R.Token)
    requires R.Legal(acts)
    ensures var s := R.Exec(acts); var s' := R.Step(s, R.Unsubscribe(d, t));
      && ((exists r: nat :: R.At(s, d, r) && t in s.readers[r].handlers) <==> s' != s)
      && !(exists r: nat :: R.At(s', d, r) && t in s'.readers[r].handlers)
  {
    var s := R.Exec(acts);
    if r: nat :| R.At(s, d, r) && t in s.readers[r].handlers {
      RS.UnsubscribeRemovesOne(acts, d, t, r);
    } else {
      RS.StaleTokenNoOp(acts, d, t);
    }
  }

  /** So a token that outlived its session removes another caller's handler if and only if a later session has
      issued the same number for the same destination and that handler is still registered. */
  lemma {:induction false} StaleTokenExactly(j: Joint, a: nat, c: nat, i: nat, d: Dest)
    requires Reachable(j) && Runs(j) && Can(j, Remove(c))
    requires Issued(j, a, i, d, j.calls[c].tok) && i != j.calls[c].session
    ensures var call := j.calls[c];
      R.Step(Router(j, call.session), R.Unsubscribe(call.dest, call.tok)) != Router(j, call.session) <==>
        exists b: nat :: b != a && Issued(j, b, call.session, call.dest, call.tok)
          && Live(j, call.session, call.dest, call.tok)
  {
    var call := j.calls[c];
    ReachableCoupled(j);
    UnknownTokenExactly(j, c);
    if Live(j, call.session, call.dest, call.tok) {
      var b := LiveIsIssued(j, call.session, call.dest, call.tok);
      assert b != a;
    }
  }

  // ----- Disconnect -----

  /** A Disconnect call disconnects its connection only after the Close of that session's router has returned; at
      that return the registry was empty and every reader had exited, which has lasted exactly if no Subscribe
      call created a subscription since; and no call that begins from now on reaches that router. */
  lemma {:induction false} ConnectionAfterRouter(j: Joint, d: nat, k: nat) returns (m: nat)
    requires Reachable(j) && Runs(j) && Can(j, EndConn(d)) && F.Owns(Bus(j), d, k)
    ensures k < |j.routers| && 0 < m <= |j.routers[k]|
    ensures var acts := j.routers[k];
      && acts[m - 1].CloseReturn? && RQ.ClosedDownAt(acts, m)
      && ((forall i :: m <= i <= |acts| ==> RQ.ClosedDownAt(acts, i)) <==>
          (forall i :: m <= i < |acts| ==> !acts[i].Create?))
    ensures Bus(j).bus.rtr != Some(k)
  {
    ReachableCoupled(j);
    assert PastClose(Bus(j), d, k);
    var i :| 0 <= i < |j.routers[k]| && j.routers[k][i].CloseReturn?;
    m := i + 1;
    F.InvAlways(CHAN, j.bus);
    R.PrefixLegal(j.routers[k], i);
    RQ.ReturnsClosedDown(j.routers[k], m);
    RQ.StaysClosedDownExactly(j.routers[k], m);
  }

  // ----- moves, spelled out -----

  lemma DrawIs(j: Joint, c: nat, k: nat, t: R.Token, acts: seq<R.Action>)
    requires Runs(j) && Can(j, Draw(c)) && k == j.calls[c].session && t == Router(j, k).nextToken + 1
    requires acts == j.routers[k] + [R.DrawToken]
    ensures Next(j, Draw(c))
      == j.(routers := j.routers[k := acts], calls := j.calls[c := Subscribing(k, j.calls[c].dest, Some(t))])
  {
  }

  lemma LandIs(j: Joint, c: nat, k: nat, d: Dest, t: R.Token, acts: seq<R.Action>)
    requires Runs(j) && Can(j, Land(c, true)) && j.calls[c] == Subscribing(k, d, Some(t))
    requires !R.HasLive(Router(j, k), d) && acts == j.routers[k] + [R.Create(t, d)]
    ensures Next(j, Land(c, true))
      == j.(routers := j.routers[k := acts], calls := j.calls[c := Subscribed(k, d, t)])
  {
  }

  lemma InsideIs(j: Joint, k: nat, a: R.Action, acts: seq<R.Action>)
    requires Runs(j) && Can(j, Inside(k, a)) && acts == j.routers[k] + [a]
    ensures Next(j, Inside(k, a)) == j.(routers := j.routers[k := acts])
  {
  }

  lemma StartCloseIs(j: Joint, d: nat, k: nat, c: nat, acts: seq<R.Action>)
    requires Runs(j) && Can(j, StartClose(d)) && Bus(j).discs[d].session == Some(k)
    requires c == |Router(j, k).closers| && acts == j.routers[k] + [R.CloseLock]
    ensures Next(j, StartClose(d)) == j.(routers := j.routers[k := acts], closes := j.closes[d := c])
  {
  }

  lemma EndCloseIs(j: Joint, d: nat, k: nat, c: nat, bus: seq<F.Action>, acts: seq<R.Action>)
    requires Runs(j) && Can(j, EndClose(d)) && Bus(j).discs[d].session == Some(k) && j.closes[d] == c
    requires bus == j.bus + [F.CloseRouter(d)] && acts == j.routers[k] + [R.CloseReturn(c)]
    ensures Next(j, EndClose(d)) == j.(bus := bus, routers := j.routers[k := acts])
  {
  }

  lemma BeginSubscribeIs(j: Joint, dest: Dest, d: Dest, k: nat)
    requires Runs(j) && Bus(j).bus.rtr == Some(k) && d == Q.NormalizeDestination(dest)
    ensures Can(j, BeginSubscribe(dest))
    ensures Next(j, BeginSubscribe(dest)) == j.(calls := j.calls + [Subscribing(k, d, None)])
  {
  }

  lemma BeginUnsubscribeIs(j: Joint, dest: Dest, d: Dest, k: nat, t: R.Token)
    requires Runs(j) && Bus(j).bus.rtr == Some(k) && d == Q.NormalizeDestination(dest)
    ensures Can(j, BeginUnsubscribe(dest, t))
    ensures Next(j, BeginUnsubscribe(dest, t)) == j.(calls := j.calls + [Unsubscribing(k, d, t)])
  {
  }

  lemma ConnectIs(j: Joint, bus: seq<F.Action>)
    requires Runs(j) && !Bus(j).bus.connected && bus == j.bus + [F.Connect(true)]
    ensures Can(j, Connect(true))
    ensures Next(j, Connect(true)) == j.(bus := bus, routers := j.routers + [[]])
  {
  }
}
