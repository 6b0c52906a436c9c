/** A run of the bus in which a token that outlived its session removes another caller's handler.  Its states are
    written out; each is one move from the one before. */
module BusStaleToken {
  import opened Prelude
  import opened BusSessions
  import F = FieldBus
  import R = RouterModel
  import Q = ReqResp

  // ----- a session's router: one Subscribe, and a Close that runs to its return -----

  function LifeStep(d: Dest, n: nat): (a: R.Action) {
    match n
    case 0 => R.DrawToken
    case 1 => R.Create(1, d)
    case 2 => R.CloseLock
    case 3 => R.CallUnsub(0)
    case 4 => R.CloseChan(0)
    case 5 => R.ReceiveEnd(0)
    case 6 => R.MarkDone(0)
    case 7 => R.Deregister(0)
    case _ => R.CloseReturn(0)
  }

  function Life(d: Dest, n: nat): (acts: seq<R.Action>) {
    if n == 0 then [] else Life(d, n - 1) + [LifeStep(d, n - 1)]
  }

  /** The reader after n steps, from the second on. */
  function LifeReader(d: Dest, n: nat): (r: R.Reader) {
    var r0 := R.FreshReader(d, 1);
    if n <= 2 then r0
    else if n == 3 then r0.(removal := R.RouterClosed, owed := 1)
    else
      var r1 := r0.(removal := R.RouterClosed, unsubs := 1, closed := n > 4);
      if n <= 5 then r1
      else if n == 6 then r1.(phase := R.Stopping)
      else if n == 7 then r1.(phase := R.Marked)
      else r1.(phase := R.Finished)
  }

  function LifeState(d: Dest, n: nat): (s: R.State) {
    if n == 0 then R.INIT
    else if n == 1 then R.State(map[], [], 1, {1}, [], 0)
    else
      R.State(if n == 2 then map[d := 0] else map[], [LifeReader(d, n)], 1, {},
              if n == 2 then [] else [R.Closer({0}, n >= 9)], if n <= 7 then 1 else 0)
  }

  lemma CloseLockIs(d: Dest)
    ensures R.Step(LifeState(d, 2), R.CloseLock) == LifeState(d, 3)
  {
    var s := LifeState(d, 2);
    assert R.At(s, d, 0) && R.IsRegistered(s, 0);
    assert R.Collected(s) == {0};
    assert R.Step(s, R.CloseLock).readers == [LifeReader(d, 3)];
  }

  lemma LocalIs(d: Dest, n: nat)
    requires 3 <= n <= 6
    ensures R.Enabled(LifeState(d, n), LifeStep(d, n))
    ensures R.Step(LifeState(d, n), LifeStep(d, n)) == LifeState(d, n + 1)
  {
    R.LocalStepIs(LifeState(d, n), LifeStep(d, n));
  }

  lemma LifeStepIs(d: Dest, n: nat)
    requires n < 9
    ensures R.Enabled(LifeState(d, n), LifeStep(d, n))
    ensures R.Step(LifeState(d, n), LifeStep(d, n)) == LifeState(d, n + 1)
  {
    if n == 0 {
      R.DrawTokenStepIs(R.INIT);
    } else if n == 1 {
      R.CreateStepIs(LifeState(d, 1), 1, d);
    } else if n == 2 {
      CloseLockIs(d);
    } else if n <= 6 {
      LocalIs(d, n);
    } else if n == 7 {
      R.DeregisterStepIs(LifeState(d, 7), 0);
    } else {
      assert R.Step(LifeState(d, 8), R.CloseReturn(0)).readers == [LifeReader(d, 9)];
    }
  }

  lemma {:induction false} LifeIs(d: Dest, n: nat)
    requires n <= 9
    ensures R.Legal(Life(d, n)) && R.Exec(Life(d, n)) == LifeState(d, n)
  {
    if n > 0 {
      LifeIs(d, n - 1);
      LifeStepIs(d, n - 1);
      R.Extend(Life(d, n - 1), LifeStep(d, n - 1));
    }
  }

  // ----- the bus: a session, its Disconnect, and a second session -----

  function BusStep(i: nat): (a: F.Action) {
    match i
    case 0 => F.Connect(true)
    case 1 => F.DisconnectLock
    case 2 => F.CloseRouter(0)
    case 3 => F.DisconnectConn(0)
    case _ => F.Connect(true)
  }

  function BusActs(i: nat): (acts: seq<F.Action>) { if i == 0 then [] else BusActs(i - 1) + [BusStep(i - 1)] }

  function BusState(i: nat): (s: F.State) {
    if i == 0 then F.Init(CHAN)
    else
      var first := F.Session(CHAN, i > 2, if i > 3 then 1 else 0);
      F.State(
        if i == 1 then F.Bus(Some(0), Some(0), true)
        else if i < 5 then F.Bus(None, None, false) else F.Bus(Some(1), Some(1), true),
        CHAN,
        if i < 5 then [first] else [first, F.Session(CHAN, false, 0)],
        if i == 1 then []
        else [if i == 2 then F.Taken(Some(0)) else if i == 3 then F.RouterClosed(Some(0)) else F.Returned(Some(0))])
  }

  lemma BusStepIs(i: nat)
    requires i < 5
    ensures F.Enabled(BusState(i), BusStep(i)) && F.Step(BusState(i), BusStep(i)) == BusState(i + 1)
  {
  }

  lemma {:induction false} BusIs(i: nat)
    requires i <= 5
    ensures F.Legal(CHAN, BusActs(i)) && F.Exec(CHAN, BusActs(i)) == BusState(i)
  {
    if i > 0 {
      BusIs(i - 1);
      BusStepIs(i - 1);
      BusExtend(BusActs(i - 1), BusStep(i - 1));
    }
  }

  // ----- both together -----

  lemma Updates<T>(x: T, y: T, z: T)
    ensures [x][0 := z] == [z] && [x, y][1 := z] == [x, z] && [x] + [z] == [x, z] && [x, y] + [z] == [x, y, z]
  {
  }

  /** A bus that has had one session: i actions of the bus, n of that session's router. */
  function One(d: Dest, i: nat, n: nat, calls: seq<Call>, closes: map<nat, nat>): (j: Joint) {
    Joint(BusActs(i), [Life(d, n)], calls, closes)
  }

  /** And one that has had two: m actions of the first session's router, n of the second's. */
  function Two(d: Dest, i: nat, m: nat, n: nat, calls: seq<Call>, closes: map<nat, nat>): (j: Joint) {
    Joint(BusActs(i), [Life(d, m), Life(d, n)], calls, closes)
  }

  lemma OneIs(d: Dest, i: nat, n: nat, calls: seq<Call>, closes: map<nat, nat>)
    requires 1 <= i <= 4 && n <= 9
    ensures Runs(One(d, i, n, calls, closes)) && Bus(One(d, i, n, calls, closes)) == BusState(i)
    ensures Router(One(d, i, n, calls, closes), 0) == LifeState(d, n)
  {
    BusIs(i);
    LifeIs(d, n);
  }

  lemma BothLegal(a: seq<R.Action>, b: seq<R.Action>)
    requires R.Legal(a) && R.Legal(b)
    ensures forall k :: 0 <= k < 2 ==> R.Legal([a, b][k])
  {
  }

  lemma TwoIs(d: Dest, i: nat, m: nat, n: nat, calls: seq<Call>, closes: map<nat, nat>)
    requires i == 5 && m <= 9 && n <= 9
    ensures Runs(Two(d, i, m, n, calls, closes)) && Bus(Two(d, i, m, n, calls, closes)) == BusState(i)
    ensures Router(Two(d, i, m, n, calls, closes), 1) == LifeState(d, n)
  {
    BusIs(i);
    LifeIs(d, m);
    LifeIs(d, n);
    BothLegal(Life(d, m), Life(d, n));
  }

  lemma FirstConnect(d: Dest, i: nat, n: nat)
    requires i == 1 && n == 0
    ensures Reachable(One(d, i, n, [], map[]))
  {
    InitReachable();
    BusIs(i - 1);
    assert BusActs(i - 1) == [] && Life(d, n) == [];
    ConnectIs(INIT, BusActs(i));
    ThenReachable(INIT, Connect(true));
  }

  lemma FirstBegin(dest: Dest, d: Dest, i: nat, n: nat)
    requires d == Q.NormalizeDestination(dest) && i == 1 && n <= 9 && Reachable(One(d, i, n, [], map[]))
    ensures Reachable(One(d, i, n, [Subscribing(0, d, None)], map[]))
  {
    var j := One(d, i, n, [], map[]);
    OneIs(d, i, n, [], map[]);
    BeginSubscribeIs(j, dest, d, 0);
    ThenReachable(j, BeginSubscribe(dest));
  }

  lemma FirstDraw(d: Dest, i: nat, n: nat)
    requires i == 1 && n == 0 && Reachable(One(d, i, n, [Subscribing(0, d, None)], map[]))
    ensures Reachable(One(d, i, n + 1, [Subscribing(0, d, Some(1))], map[]))
  {
    var j := One(d, i, n, [Subscribing(0, d, None)], map[]);
    OneIs(d, i, n, j.calls, map[]);
    DrawIs(j, 0, 0, 1, Life(d, n + 1));
    Updates(Life(d, n), [], Life(d, n + 1));
    Updates(Subscribing(0, d, None), Over, Subscribing(0, d, Some(1)));
    ThenReachable(j, Draw(0));
  }

  lemma FirstLand(d: Dest, i: nat, n: nat)
    requires i == 1 && n == 1 && Reachable(One(d, i, n, [Subscribing(0, d, Some(1))], map[]))
    ensures Reachable(One(d, i, n + 1, [Subscribed(0, d, 1)], map[]))
  {
    var j := One(d, i, n, [Subscribing(0, d, Some(1))], map[]);
    OneIs(d, i, n, j.calls, map[]);
    LandIs(j, 0, 0, d, 1, Life(d, n + 1));
    Updates(Life(d, n), [], Life(d, n + 1));
    Updates(Subscribing(0, d, Some(1)), Over, Subscribed(0, d, 1));
    ThenReachable(j, Land(0, true));
  }

  lemma LockStep(d: Dest, i: nat, n: nat, calls: seq<Call>)
    requires i == 1 && n <= 9 && Reachable(One(d, i, n, calls, map[]))
    ensures Reachable(One(d, i + 1, n, calls, map[]))
  {
    var j := One(d, i, n, calls, map[]);
    OneIs(d, i, n, calls, map[]);
    ThenReachable(j, Lock);
    assert Next(j, Lock) == One(d, i + 1, n, calls, map[]);
  }

  lemma StartStep(d: Dest, i: nat, n: nat, calls: seq<Call>)
    requires i == 2 && n == 2 && Reachable(One(d, i, n, calls, map[]))
    ensures Reachable(One(d, i, n + 1, calls, map[0 := 0]))
  {
    var j := One(d, i, n, calls, map[]);
    OneIs(d, i, n, calls, map[]);
    StartCloseIs(j, 0, 0, 0, Life(d, n + 1));
    Updates(Life(d, n), [], Life(d, n + 1));
    ThenReachable(j, StartClose(0));
  }

  lemma InsideStep(d: Dest, i: nat, n: nat, calls: seq<Call>, closes: map<nat, nat>)
    requires i == 2 && 3 <= n < 8 && Reachable(One(d, i, n, calls, closes))
    ensures Reachable(One(d, i, n + 1, calls, closes))
  {
    var j := One(d, i, n, calls, closes);
    OneIs(d, i, n, calls, closes);
    LifeStepIs(d, n);
    InsideIs(j, 0, LifeStep(d, n), Life(d, n + 1));
    Updates(Life(d, n), [], Life(d, n + 1));
    ThenReachable(j, Inside(0, LifeStep(d, n)));
  }

  lemma CanEndClose(d: Dest, i: nat, n: nat, calls: seq<Call>, closes: map<nat, nat>)
    requires i == 2 && n == 8 && 0 in closes && closes[0] == 0
    ensures var j := One(d, i, n, calls, closes);
      Runs(j) && Can(j, EndClose(0)) && Bus(j).discs[0].session == Some(0)
    ensures BusActs(i + 1) == BusActs(i) + [F.CloseRouter(0)] && Life(d, n + 1) == Life(d, n) + [R.CloseReturn(0)]
  {
    OneIs(d, i, n, calls, closes);
    LifeStepIs(d, n);
    BusStepIs(i);
  }

  lemma EndCloseStep(d: Dest, i: nat, n: nat, calls: seq<Call>, closes: map<nat, nat>)
    requires i == 2 && n == 8 && 0 in closes && closes[0] == 0 && Reachable(One(d, i, n, calls, closes))
    ensures Reachable(One(d, i + 1, n + 1, calls, closes))
  {
    var j := One(d, i, n, calls, closes);
    CanEndClose(d, i, n, calls, closes);
    EndCloseIs(j, 0, 0, 0, BusActs(i + 1), Life(d, n + 1));
    Updates(Life(d, n), [], Life(d, n + 1));
    ThenReachable(j, EndClose(0));
  }

  lemma EndConnStep(d: Dest, i: nat, n: nat, calls: seq<Call>, closes: map<nat, nat>)
    requires i == 3 && n <= 9 && Reachable(One(d, i, n, calls, closes))
    ensures Reachable(One(d, i + 1, n, calls, closes))
  {
    var j := One(d, i, n, calls, closes);
    OneIs(d, i, n, calls, closes);
    ThenReachable(j, EndConn(0));
    assert Next(j, EndConn(0)) == One(d, i + 1, n, calls, closes);
  }

  lemma SecondConnect(d: Dest, i: nat, m: nat, n: nat, calls: seq<Call>, closes: map<nat, nat>)
    requires i == 4 && m <= 9 && n == 0 && Reachable(One(d, i, m, calls, closes))
    ensures Reachable(Two(d, i + 1, m, n, calls, closes))
  {
    var j := One(d, i, m, calls, closes);
    OneIs(d, i, m, calls, closes);
    ConnectIs(j, BusActs(i + 1));
    Updates(Life(d, m), [], []);
    ThenReachable(j, Connect(true));
  }

  lemma SecondBegin(dest: Dest, d: Dest, i: nat, m: nat, n: nat, x: Call, closes: map<nat, nat>)
    requires d == Q.NormalizeDestination(dest) && i == 5 && m <= 9 && n <= 9
    requires Reachable(Two(d, i, m, n, [x], closes))
    ensures Reachable(Two(d, i, m, n, [x, Subscribing(1, d, None)], closes))
  {
    var j := Two(d, i, m, n, [x], closes);
    TwoIs(d, i, m, n, [x], closes);
    BeginSubscribeIs(j, dest, d, 1);
    Updates(x, Over, Subscribing(1, d, None));
    ThenReachable(j, BeginSubscribe(dest));
  }

  lemma SecondDraw(d: Dest, i: nat, m: nat, n: nat, x: Call, closes: map<nat, nat>)
    requires i == 5 && m <= 9 && n == 0 && Reachable(Two(d, i, m, n, [x, Subscribing(1, d, None)], closes))
    ensures Reachable(Two(d, i, m, n + 1, [x, Subscribing(1, d, Some(1))], closes))
  {
    var j := Two(d, i, m, n, [x, Subscribing(1, d, None)], closes);
    TwoIs(d, i, m, n, j.calls, closes);
    DrawIs(j, 1, 1, 1, Life(d, n + 1));
    Updates(Life(d, m), Life(d, n), Life(d, n + 1));
    Updates(x, Subscribing(1, d, None), Subscribing(1, d, Some(1)));
    ThenReachable(j, Draw(1));
  }

  lemma SecondLand(d: Dest, i: nat, m: nat, n: nat, x: Call, closes: map<nat, nat>)
    requires i == 5 && m <= 9 && n == 1 && Reachable(Two(d, i, m, n, [x, Subscribing(1, d, Some(1))], closes))
    ensures Reachable(Two(d, i, m, n + 1, [x, Subscribed(1, d, 1)], closes))
  {
    var j := Two(d, i, m, n, [x, Subscribing(1, d, Some(1))], closes);
    TwoIs(d, i, m, n, j.calls, closes);
    LandIs(j, 1, 1, d, 1, Life(d, n + 1));
    Updates(Life(d, m), Life(d, n), Life(d, n + 1));
    Updates(x, Subscribing(1, d, Some(1)), Subscribed(1, d, 1));
    ThenReachable(j, Land(1, true));
  }

  lemma StaleBegin(dest: Dest, d: Dest, i: nat, m: nat, n: nat, x: Call, y: Call, closes: map<nat, nat>)
    requires d == Q.NormalizeDestination(dest) && i == 5 && m <= 9 && n <= 9
    requires Reachable(Two(d, i, m, n, [x, y], closes))
    ensures Reachable(Two(d, i, m, n, [x, y, Unsubscribing(1, d, 1)], closes))
  {
    var j := Two(d, i, m, n, [x, y], closes);
    TwoIs(d, i, m, n, [x, y], closes);
    BeginUnsubscribeIs(j, dest, d, 1, 1);
    Updates(x, y, Unsubscribing(1, d, 1));
    ThenReachable(j, BeginUnsubscribe(dest, 1));
  }

  /** A whole session, connected, one Subscribe, disconnected; given as i actions of the bus and n of the router. */
  lemma FirstSession(dest: Dest, d: Dest) returns (i: nat, n: nat)
    requires d == Q.NormalizeDestination(dest)
    ensures i == 4 && n == 9 && Reachable(One(d, i, n, [Subscribed(0, d, 1)], map[0 := 0]))
  {
    var calls := [Subscribed(0, d, 1)];
    i, n := 1, 0;
    FirstConnect(d, i, n);
    FirstBegin(dest, d, i, n);
    FirstDraw(d, i, n);
    FirstLand(d, i, n + 1);
    LockStep(d, i, n + 2, calls);
    StartStep(d, i + 1, n + 2, calls);
    i, n := i + 1, n + 3;
    while n < 8
      invariant i == 2 && 3 <= n <= 8 && Reachable(One(d, i, n, calls, map[0 := 0]))
    {
      InsideStep(d, i, n, calls, map[0 := 0]);
      n := n + 1;
    }
    EndCloseStep(d, i, n, calls, map[0 := 0]);
    EndConnStep(d, i + 1, n + 1, calls, map[0 := 0]);
    i, n := i + 2, n + 1;
  }

  lemma SecondSubscribe(dest: Dest, d: Dest, i: nat, m: nat, n: nat, x: Call, closes: map<nat, nat>)
    requires d == Q.NormalizeDestination(dest) && i == 5 && m <= 9 && n == 0
    requires Reachable(Two(d, i, m, n, [x], closes))
    ensures Reachable(Two(d, i, m, n + 2, [x, Subscribed(1, d, 1)], closes))
  {
    SecondBegin(dest, d, i, m, n, x, closes);
    SecondDraw(d, i, m, n, x, closes);
    var next := n + 1;
    SecondLand(d, i, m, next, x, closes);
    assert next + 1 == n + 2;
  }

  /** A second session with a Subscribe of its own for the same destination, and an Unsubscribe with the first
      session's token under way. */
  lemma SecondSession(dest: Dest, d: Dest, i: nat, m: nat, n: nat, x: Call, closes: map<nat, nat>)
    requires d == Q.NormalizeDestination(dest) && i == 4 && m <= 9 && n == 0
    requires Reachable(One(d, i, m, [x], closes))
    ensures Reachable(Two(d, i + 1, m, n + 2, [x, Subscribed(1, d, 1), Unsubscribing(1, d, 1)], closes))
  {
    SecondConnect(d, i, m, n, [x], closes);
    SecondSubscribe(dest, d, i + 1, m, n, x, closes);
    StaleBegin(dest, d, i + 1, m, n + 2, x, Subscribed(1, d, 1), closes);
  }

  lemma OnlyHandlerGoes(d: Dest, n: nat)
    requires n == 2
    ensures d !in R.Step(LifeState(d, n), R.Unsubscribe(d, 1)).dests
  {
    assert R.DropHandler(LifeReader(d, n), 1).handlers == {};
  }

  lemma StaleIs(d: Dest, i: nat, m: nat, n: nat, calls: seq<Call>, closes: map<nat, nat>)
    requires i == 5 && m <= 9 && n == 2
    requires calls == [Subscribed(0, d, 1), Subscribed(1, d, 1), Unsubscribing(1, d, 1)]
    ensures var j := Two(d, i, m, n, calls, closes);
      && Runs(j) && Bus(j).discs == [F.Returned(Some(0))] && Can(j, Remove(2))
      && Issued(j, 0, 0, d, 1) && Issued(j, 1, 1, d, 1) && j.calls[2] == Unsubscribing(1, d, 1)
      && Live(j, 1, d, 1) && d !in R.Step(Router(j, 1), R.Unsubscribe(d, 1)).dests
  {
    TwoIs(d, i, m, n, calls, closes);
    OnlyHandlerGoes(d, n);
  }

  /** For any destination, a run in which a session's token, after that session was disconnected and the bus
      connected again, removes the only handler of another call, and with it its subscription. */
  lemma StaleTokenRemovesOther(dest: Dest) returns (j: Joint)
    ensures Reachable(j) && Runs(j) && Bus(j).discs == [F.Returned(Some(0))] && Can(j, Remove(2))
    ensures var d := Q.NormalizeDestination(dest);
      && Issued(j, 0, 0, d, 1) && Issued(j, 1, 1, d, 1) && j.calls[2] == Unsubscribing(1, d, 1)
      && Live(j, 1, d, 1) && d !in R.Step(Router(j, 1), R.Unsubscribe(d, 1)).dests
  {
    var d := Q.NormalizeDestination(dest);
    var i, m := FirstSession(dest, d);
    var n := 0;
    SecondSession(dest, d, i, m, n, Subscribed(0, d, 1), map[0 := 0]);
    var calls := [Subscribed(0, d, 1), Subscribed(1, d, 1), Unsubscribing(1, d, 1)];
    StaleIs(d, i + 1, m, n + 2, calls, map[0 := 0]);
    j := Two(d, i + 1, m, n + 2, calls, map[0 := 0]);
  }
}
