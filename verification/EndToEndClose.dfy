/** Close on the router and its bridges together.  What the router's own result leaves to the transport, the
    messages still delivered and the closes of the channels, are here steps of the bridges, and all of it is
    bounded by what go-stomp still feeds them. */
module EndToEndClose {
  import opened Prelude
  import R = RouterModel
  import RQ = RouterQuiescence
  import B = Bridge
  import E = EndToEnd

  /** Steps a bridge can still take and cause, when no message causes more than b steps of its reader. */
  function Work(s: B.State, b: nat): (n: nat) {
    RQ.Backlog(|s.queue|, b + 2) + (if s.phase.Sending? then b + 1 else 0) + (if s.open then 1 else 0)
    + (if s.phase.Returned? then 0 else 1) + (if s.srcClosed then 0 else 1)
  }

  lemma WorkFalls(s: B.State, x: B.Action, b: nat)
    requires B.Control(s) && !s.ctxDone && B.Enabled(s, x) && !x.CtxDone? && !x.Stop?
    ensures x.Feed? ==> Work(B.Step(s, x), b) == Work(s, b) + b + 2
    ensures !x.Feed? ==> Work(B.Step(s, x), b) + 1 + (if x.SendOut? then b else 0) <= Work(s, b)
  {
    if x.Recv? {
      assert RQ.Backlog(|s.queue|, b + 2) == RQ.Backlog(|s.queue| - 1, b + 2) + b + 2;
    }
  }

  function Works(bridges: seq<seq<B.Action>>, b: nat): (n: nat)
    requires forall k :: 0 <= k < |bridges| ==> B.Legal(bridges[k])
  {
    if bridges == [] then 0
    else Works(bridges[..|bridges|-1], b) + Work(B.Exec(bridges[|bridges|-1]), b)
  }

  lemma {:induction false} WorksUpdate(bridges: seq<seq<B.Action>>, k: nat, acts: seq<B.Action>, b: nat)
    requires k < |bridges| && B.Legal(acts) && forall i :: 0 <= i < |bridges| ==> B.Legal(bridges[i])
    ensures Works(bridges[k := acts], b) == Works(bridges, b) - Work(B.Exec(bridges[k]), b) + Work(B.Exec(acts), b)
  {
    var n := |bridges| - 1;
    if k == n {
      assert bridges[k := acts][..n] == bridges[..n];
    } else {
      WorksUpdate(bridges[..n], k, acts, b);
      assert bridges[k := acts][..n] == bridges[..n][k := acts];
    }
  }

  /** The work of the router's readers and of the bridges. */
  function JointRank(j: E.Joint, b: nat): (n: nat)
    requires E.Coupled(j)
  {
    RQ.Total(R.Exec(j.acts).readers) + Works(j.bridges, b)
  }

  /** The router is past Close's lock section, and no message causes more than b steps of its reader. */
  predicate Closing(j: E.Joint, b: nat)
    requires E.Coupled(j)
  {
    R.Exec(j.acts).dests == map[] && RQ.Bounded(R.Exec(j.acts), b)
  }

  predicate Creates(m: E.Move) { m.RouterMoves? && m.a.Create? }

  predicate Feeds(m: E.Move) { m.BridgeMoves? && m.b.Feed? }

  /** A step of a reader, an owed Unsubscribe, or a step of a bridge other than go-stomp's feeding it. */
  predicate Working(m: E.Move) {
    match m
    case RouterMoves(a) => RQ.Internal(a)
    case BridgeMoves(_, x) => !x.Feed?
  }

  /** One more action of the router. */
  lemma {:induction false} QuietMore(acts: seq<R.Action>, a: R.Action, b: nat)
    requires R.Legal(acts) && R.Enabled(R.Exec(acts), a) && !a.Create?
    requires R.Exec(acts).dests == map[] && RQ.Bounded(R.Exec(acts), b)
    ensures R.Legal(acts + [a]) && R.Exec(acts + [a]).dests == map[] && RQ.Bounded(R.Exec(acts + [a]), b)
    ensures RQ.Total(R.Exec(acts + [a]).readers) + (if RQ.Internal(a) then 1 else 0)
         <= RQ.Total(R.Exec(acts).readers) + (if a.Deliver? then b else 0)
  {
    R.Extend(acts, a);
    RQ.QuietStep(R.Exec(acts), a, b);
  }

  lemma RouterMoveFalls(j: E.Joint, a: R.Action, b: nat)
    requires E.Coupled(j) && E.Can(j, E.RouterMoves(a)) && Closing(j, b) && !a.Create?
    ensures var j' := E.Next(j, E.RouterMoves(a));
      && E.Coupled(j') && Closing(j', b)
      && JointRank(j', b) + (if RQ.Internal(a) then 1 else 0) <= JointRank(j, b)
  {
    E.StaysCoupled(j, E.RouterMoves(a));
    QuietMore(j.acts, a, b);
    if a.CallUnsub? {
      E.BridgeExtend(j.bridges[a.k], B.Stop);
      WorksUpdate(j.bridges, a.k, j.bridges[a.k] + [B.Stop], b);
    }
  }

  lemma {:induction false} DeliveryQuiet(acts: seq<R.Action>, s: B.State, x: B.Action, k: nat, b: nat)
    requires B.Enabled(s, x) && R.Legal(acts)
    requires x.SendOut? ==> R.Enabled(R.Exec(acts), E.Delivery(s, x, k)[0])
    requires R.Exec(acts).dests == map[] && RQ.Bounded(R.Exec(acts), b)
    ensures var more := acts + E.Delivery(s, x, k);
      && R.Legal(more) && R.Exec(more).dests == map[] && RQ.Bounded(R.Exec(more), b)
      && RQ.Total(R.Exec(more).readers) <= RQ.Total(R.Exec(acts).readers) + (if x.SendOut? then b else 0)
  {
    if x.SendOut? {
      QuietMore(acts, E.Delivery(s, x, k)[0], b);
      assert E.Delivery(s, x, k) == [E.Delivery(s, x, k)[0]];
    } else {
      assert acts + [] == acts;
    }
  }

  lemma DeliverEnabled(r: R.State, s: B.State, x: B.Action, k: nat)
    requires k < |r.readers| && E.Linked(r.readers[k], s) && B.Control(s) && B.Enabled(s, x) && x.SendOut?
    ensures R.Enabled(r, E.Delivery(s, x, k)[0])
  {
  }

  lemma {:induction false} CloseQuiet(acts: seq<R.Action>, closes: bool, k: nat, b: nat)
    requires R.Legal(acts) && (closes ==> R.Enabled(R.Exec(acts), R.CloseChan(k)))
    requires R.Exec(acts).dests == map[] && RQ.Bounded(R.Exec(acts), b)
    ensures var more := acts + (if closes then [R.CloseChan(k)] else []);
      && R.Legal(more) && R.Exec(more).dests == map[] && RQ.Bounded(R.Exec(more), b)
      && RQ.Total(R.Exec(more).readers) <= RQ.Total(R.Exec(acts).readers)
  {
    if closes {
      QuietMore(acts, R.CloseChan(k), b);
    } else {
      assert acts + [] == acts;
    }
  }

  lemma EmittedIs(acts: seq<R.Action>, s: B.State, x: B.Action, k: nat)
    requires B.Enabled(s, x)
    ensures acts + E.Emitted(s, x, k)
         == (acts + E.Delivery(s, x, k)) + (if s.open && !B.Step(s, x).open then [R.CloseChan(k)] else [])
  {
  }

  /** What a bridge step does to the router adds at most b to its work, and only if it delivers. */
  lemma {:induction false} EmittedQuiet(acts: seq<R.Action>, s: B.State, x: B.Action, k: nat, b: nat)
    requires R.Legal(acts) && k < |R.Exec(acts).readers| && E.Linked(R.Exec(acts).readers[k], s) && B.Control(s)
    requires B.Enabled(s, x) && !x.CtxDone? && !x.Stop?
    requires R.Exec(acts).dests == map[] && RQ.Bounded(R.Exec(acts), b)
    ensures var more := acts + E.Emitted(s, x, k);
      && R.Legal(more) && R.Exec(more).dests == map[] && RQ.Bounded(R.Exec(more), b)
      && RQ.Total(R.Exec(more).readers) <= RQ.Total(R.Exec(acts).readers) + (if x.SendOut? then b else 0)
  {
    var first, closes := acts + E.Delivery(s, x, k), s.open && !B.Step(s, x).open;
    E.DeliveryLegal(acts, s, x, k);
    if x.SendOut? {
      DeliverEnabled(R.Exec(acts), s, x, k);
    }
    DeliveryQuiet(acts, s, x, k, b);
    CloseQuiet(first, closes, k, b);
    EmittedIs(acts, s, x, k);
  }

  lemma BridgeMoveFalls(j: E.Joint, k: nat, x: B.Action, b: nat)
    requires E.Coupled(j) && E.Can(j, E.BridgeMoves(k, x)) && Closing(j, b)
    ensures var j' := E.Next(j, E.BridgeMoves(k, x));
      && E.Coupled(j') && Closing(j', b)
      && (x.Feed? ==> JointRank(j', b) <= JointRank(j, b) + b + 2)
      && (!x.Feed? ==> JointRank(j', b) + 1 <= JointRank(j, b))
  {
    var s := B.Exec(j.bridges[k]);
    assert E.Linked(R.Exec(j.acts).readers[k], s);
    E.StaysCoupled(j, E.BridgeMoves(k, x));
    B.InvAlways(j.bridges[k]);
    EmittedQuiet(j.acts, s, x, k, b);
    WorkFalls(s, x, b);
    E.BridgeExtend(j.bridges[k], x);
    WorksUpdate(j.bridges, k, j.bridges[k] + [x], b);
  }

  lemma JointFalls(j: E.Joint, m: E.Move, b: nat)
    requires E.Coupled(j) && E.Can(j, m) && Closing(j, b) && !Creates(m)
    ensures E.Coupled(E.Next(j, m)) && Closing(E.Next(j, m), b)
    ensures JointRank(E.Next(j, m), b) + (if Working(m) then 1 else 0)
         <= JointRank(j, b) + (if Feeds(m) then b + 2 else 0)
  {
    match m
    case RouterMoves(a) => RouterMoveFalls(j, a, b);
    case BridgeMoves(k, x) => BridgeMoveFalls(j, k, x, b);
  }

  /** The moves can be made one after the other from j on. */
  predicate Path(j: E.Joint, moves: seq<E.Move>)
    requires E.Coupled(j)
    decreases |moves|
  {
    moves == [] ||
    (E.Can(j, moves[0]) && (E.StaysCoupled(j, moves[0]); Path(E.Next(j, moves[0]), moves[1..])))
  }

  /** Where they lead. */
  function Reached(j: E.Joint, moves: seq<E.Move>): (j': E.Joint)
    requires E.Coupled(j) && Path(j, moves)
    ensures E.Coupled(j')
    decreases |moves|
  {
    if moves == [] then j
    else
      E.StaysCoupled(j, moves[0]);
      Reached(E.Next(j, moves[0]), moves[1..])
  }

  function WorkingIn(moves: seq<E.Move>): (n: nat) {
    if moves == [] then 0 else (if Working(moves[0]) then 1 else 0) + WorkingIn(moves[1..])
  }

  /** `per` for every message that go-stomp feeds a bridge. */
  function FeedBudget(moves: seq<E.Move>, per: nat): (n: nat) {
    if moves == [] then 0 else (if Feeds(moves[0]) then per else 0) + FeedBudget(moves[1..], per)
  }

  /** From any point at which Close has emptied the registry, and as long as no Subscribe creates a subscription,
      the steps of readers, owed Unsubscribe calls and bridges together are bounded by the work there is plus
      b + 2 for every message that go-stomp still feeds; whatever callers do meanwhile. */
  lemma {:induction false} CloseTerminates(j: E.Joint, moves: seq<E.Move>, b: nat)
    requires E.Coupled(j) && Closing(j, b) && Path(j, moves)
    requires forall i :: 0 <= i < |moves| ==> !Creates(moves[i])
    ensures Closing(Reached(j, moves), b)
    ensures JointRank(Reached(j, moves), b) + WorkingIn(moves) <= JointRank(j, b) + FeedBudget(moves, b + 2)
    decreases |moves|
  {
    if moves != [] {
      JointFalls(j, moves[0], b);
      CloseTerminates(E.Next(j, moves[0]), moves[1..], b);
    }
  }

  /** And as long as a reader has not exited, a working move is possible, whatever go-stomp does; so the readers
      exit. */
  lemma {:induction false} UnfinishedMoves(moves: seq<E.Move>, k: nat) returns (m: E.Move)
    requires E.Possible(moves) && R.Exec(E.After(moves).acts).dests == map[]
    requires k < |R.Exec(E.After(moves).acts).readers|
    requires !R.Exec(E.After(moves).acts).readers[k].phase.Finished?
    ensures E.Can(E.After(moves), m) && Working(m)
  {
    var a := RQ.UnfinishedMoves(E.After(moves).acts, k);
    if a.CloseChan? {
      var x := E.CloseChanDischarged(moves, k);
      m := E.BridgeMoves(k, x);
    } else {
      m := E.RouterMoves(a);
    }
  }
}
