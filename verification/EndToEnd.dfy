/** The router on top of the bridges: each reader's channel is the output of the bridge of its
    subscription, and the router's call of the transport's Unsubscribe is what closes the bridge's stop
    channel.  The router subscribes with a context that is never cancelled. */
module EndToEnd {
  import opened Prelude
  import R = RouterModel
  import RS = RouterSafety
  import RD = RouterDispatch
  import RQ = RouterQuiescence
  import B = Bridge

  /** A joint run: the router's actions so far, and those of the bridge of each of its readers. */
  datatype Joint = Joint(acts: seq<R.Action>, bridges: seq<seq<B.Action>>)

  datatype Move = RouterMoves(a: R.Action) | BridgeMoves(k: nat, b: B.Action)

  function AsMsg(o: B.Out): (m: Msg) { match o case OutMsg(body, _) => Data(body) case OutErr(c) => Fault(c) }

  function AsMsgs(os: seq<B.Out>): (ms: seq<Msg>) { seq(|os|, i requires 0 <= i < |os| => AsMsg(os[i])) }

  /** Both sides agree on the channel between them. */
  predicate Linked(r: R.Reader, b: B.State) {
    && r.input == AsMsgs(b.delivered) && r.closed == !b.open
    && (b.stop <==> r.unsubs > 0) && !b.ctxDone
  }

  predicate Coupled(j: Joint) {
    && R.Legal(j.acts)
    && |j.bridges| == |R.Exec(j.acts).readers|
    && (forall k :: 0 <= k < |j.bridges| ==> B.Legal(j.bridges[k]))
    && (forall k :: 0 <= k < |j.bridges| ==> Linked(R.Exec(j.acts).readers[k], B.Exec(j.bridges[k])))
  }

  /** What a bridge step does to the router's channel. */
  function Emitted(s: B.State, b: B.Action, k: nat): (acts: seq<R.Action>)
    requires B.Enabled(s, b)
  {
    Delivery(s, b, k) + (if s.open && !B.Step(s, b).open then [R.CloseChan(k)] else [])
  }

  /** The moves there are: the router's own, and the bridges' own.  Deliver and CloseChan happen only
      because a bridge moves, Stop only because the router unsubscribes. */
  predicate Can(j: Joint, m: Move)
    requires Coupled(j)
  {
    match m
    case RouterMoves(a) => !a.Deliver? && !a.CloseChan? && R.Enabled(R.Exec(j.acts), a)
    case BridgeMoves(k, b) => k < |j.bridges| && !b.CtxDone? && !b.Stop? && B.Enabled(B.Exec(j.bridges[k]), b)
  }

  function Next(j: Joint, m: Move): (j': Joint)
    requires Coupled(j) && Can(j, m)
  {
    match m
    case RouterMoves(a) =>
      Joint(j.acts + [a],
            if a.Create? then j.bridges + [[]]
            else if a.CallUnsub? then j.bridges[a.k := j.bridges[a.k] + [B.Stop]]
            else j.bridges)
    case BridgeMoves(k, b) =>
      Joint(j.acts + Emitted(B.Exec(j.bridges[k]), b, k), j.bridges[k := j.bridges[k] + [b]])
  }

  /** The transport's side of a reader is as it was, but for its own Unsubscribe calls. */
  predicate SameChannel(r: R.Reader, r': R.Reader, called: bool) {
    r'.input == r.input && r'.closed == r.closed && r'.unsubs == r.unsubs + (if called then 1 else 0)
  }

  lemma LocalChannel(r: R.Reader, a: R.Action)
    requires R.Local(a) && R.Ready(r, a) && !a.Deliver? && !a.CloseChan?
    ensures SameChannel(r, R.LocalStep(r, a), a.CallUnsub?)
  {
  }

  lemma RemovalChannel(r: R.Reader, tok: R.Token, why: R.Removal, unexpected: bool)
    ensures SameChannel(r, R.RemoveToken(r, tok), false)
    ensures SameChannel(r, R.TearDown(r, why), false)
    ensures SameChannel(r, R.Leave(r, unexpected), false)
  {
  }

  lemma ChannelFrame(s: R.State, a: R.Action, k: nat)
    requires R.Enabled(s, a) && k < |s.readers| && !a.Deliver? && !a.CloseChan?
    ensures SameChannel(s.readers[k], R.NextReader(s, a, k), a == R.CallUnsub(k))
  {
    if R.Local(a) {
      if a.k == k { LocalChannel(s.readers[k], a); }
    } else if a.Unsubscribe? {
      RemovalChannel(s.readers[k], a.tok, R.RouterClosed, false);
    } else {
      RemovalChannel(s.readers[k], 0, R.RouterClosed, R.IsRegistered(s, k));
    }
  }

  lemma {:induction false} BridgeExtend(acts: seq<B.Action>, b: B.Action)
    requires B.Legal(acts) && B.Enabled(B.Exec(acts), b)
    ensures B.Legal(acts + [b]) && B.Exec(acts + [b]) == B.Step(B.Exec(acts), b)
  {
    assert (acts + [b])[..|acts|] == acts;
  }

  lemma RouterMoveCoupled(j: Joint, a: R.Action)
    requires Coupled(j) && Can(j, RouterMoves(a))
    ensures Coupled(Next(j, RouterMoves(a)))
  {
    var s, j' := R.Exec(j.acts), Next(j, RouterMoves(a));
    R.Extend(j.acts, a);
    if a.CallUnsub? {
      BridgeExtend(j.bridges[a.k], B.Stop);
    }
    forall k | 0 <= k < |j'.bridges|
      ensures B.Legal(j'.bridges[k]) && Linked(R.Exec(j'.acts).readers[k], B.Exec(j'.bridges[k]))
    {
      if k < |s.readers| {
        ChannelFrame(s, a, k);
        assert SameChannel(s.readers[k], R.Exec(j'.acts).readers[k], a == R.CallUnsub(k));
        assert Linked(s.readers[k], B.Exec(j.bridges[k]));
      }
    }
  }

  lemma BridgeEffect(s: B.State, x: B.Action)
    requires B.Control(s) && B.Enabled(s, x) && !x.CtxDone? && !x.Stop?
    ensures var s' := B.Step(s, x);
      && s'.delivered == s.delivered + (if x.SendOut? then [B.Convert(s.phase.m)] else [])
      && s'.stop == s.stop && s'.ctxDone == s.ctxDone && (s'.open ==> s.open) && (x.SendOut? ==> s.open)
  {
  }

  /** The router after one more action on the channel of reader k, which changes that reader only. */
  lemma {:induction false} ChannelStep(acts: seq<R.Action>, a: R.Action)
    requires R.Legal(acts) && (a.Deliver? || a.CloseChan?) && R.Enabled(R.Exec(acts), a)
    ensures R.Legal(acts + [a])
    ensures R.Exec(acts + [a]).readers == R.Exec(acts).readers[a.k := R.LocalStep(R.Exec(acts).readers[a.k], a)]
  {
    R.Extend(acts, a);
    R.LocalStepIs(R.Exec(acts), a);
  }

  /** The delivery of a bridge step, if any. */
  function Delivery(s: B.State, b: B.Action, k: nat): (acts: seq<R.Action>)
    requires B.Enabled(s, b)
  {
    if b.SendOut? then [R.Deliver(k, AsMsg(B.Convert(s.phase.m)))] else []
  }

  lemma {:induction false} DeliveryLegal(acts: seq<R.Action>, s: B.State, x: B.Action, k: nat)
    requires R.Legal(acts) && k < |R.Exec(acts).readers| && Linked(R.Exec(acts).readers[k], s) && B.Control(s)
    requires B.Enabled(s, x) && !x.CtxDone? && !x.Stop?
    ensures var more := acts + Delivery(s, x, k);
      && R.Legal(more) && |R.Exec(more).readers| == |R.Exec(acts).readers|
      && (forall i :: 0 <= i < |R.Exec(acts).readers| && i != k ==> R.Exec(more).readers[i] == R.Exec(acts).readers[i])
      && Linked(R.Exec(more).readers[k], B.Step(s, x).(open := s.open))
  {
    BridgeEffect(s, x);
    if x.SendOut? {
      ChannelStep(acts, Delivery(s, x, k)[0]);
      assert AsMsgs(s.delivered + [B.Convert(s.phase.m)]) == AsMsgs(s.delivered) + [AsMsg(B.Convert(s.phase.m))];
    } else {
      assert acts + [] == acts;
      assert s.delivered + [] == s.delivered;
    }
  }

  lemma {:induction false} CloseLegal(acts: seq<R.Action>, s': B.State, wasOpen: bool, k: nat)
    requires R.Legal(acts) && k < |R.Exec(acts).readers| && (s'.open ==> wasOpen)
    requires Linked(R.Exec(acts).readers[k], s'.(open := wasOpen))
    ensures var more := acts + (if wasOpen && !s'.open then [R.CloseChan(k)] else []);
      && R.Legal(more) && |R.Exec(more).readers| == |R.Exec(acts).readers|
      && (forall i :: 0 <= i < |R.Exec(acts).readers| && i != k ==> R.Exec(more).readers[i] == R.Exec(acts).readers[i])
      && Linked(R.Exec(more).readers[k], s')
  {
    if wasOpen && !s'.open {
      ChannelStep(acts, R.CloseChan(k));
    } else {
      assert acts + [] == acts;
    }
  }

  /** One step of a bridge, seen from the router: at most a delivery on the open channel, then its close. */
  lemma {:induction false} EmittedLegal(acts: seq<R.Action>, s: B.State, x: B.Action, k: nat)
    requires R.Legal(acts) && k < |R.Exec(acts).readers| && Linked(R.Exec(acts).readers[k], s) && B.Control(s)
    requires B.Enabled(s, x) && !x.CtxDone? && !x.Stop?
    ensures var more := acts + Emitted(s, x, k);
      && R.Legal(more) && |R.Exec(more).readers| == |R.Exec(acts).readers|
      && (forall i :: 0 <= i < |R.Exec(acts).readers| && i != k ==> R.Exec(more).readers[i] == R.Exec(acts).readers[i])
      && Linked(R.Exec(more).readers[k], B.Step(s, x))
  {
    var first := acts + Delivery(s, x, k);
    DeliveryLegal(acts, s, x, k);
    BridgeEffect(s, x);
    CloseLegal(first, B.Step(s, x), s.open, k);
    assert acts + Emitted(s, x, k) == first + (if s.open && !B.Step(s, x).open then [R.CloseChan(k)] else []);
  }

  lemma BridgeMoveCoupled(j: Joint, k: nat, b: B.Action)
    requires Coupled(j) && Can(j, BridgeMoves(k, b))
    ensures Coupled(Next(j, BridgeMoves(k, b)))
  {
    B.InvAlways(j.bridges[k]);
    EmittedLegal(j.acts, B.Exec(j.bridges[k]), b, k);
    BridgeExtend(j.bridges[k], b);
  }

  /** The bridges keep the router's assumptions about its channels: whatever moves next, what it does to the
      router continues a legal run of the router's model, every bridge stays in a legal run of its own,
      and the two sides still agree. */
  lemma StaysCoupled(j: Joint, m: Move)
    requires Coupled(j) && Can(j, m)
    ensures Coupled(Next(j, m))
  {
    match m
    case RouterMoves(a) => RouterMoveCoupled(j, a);
    case BridgeMoves(k, b) => BridgeMoveCoupled(j, k, b);
  }

  /** A joint run from the start. */
  predicate Possible(moves: seq<Move>)
    decreases |moves|, 0
  {
    moves == [] || (Possible(moves[..|moves|-1]) && Can(After(moves[..|moves|-1]), moves[|moves|-1]))
  }

  function After(moves: seq<Move>): (j: Joint)
    requires Possible(moves)
    ensures Coupled(j)
    decreases |moves|, 1
  {
    if moves == [] then Joint([], [])
    else
      var before := After(moves[..|moves|-1]);
      StaysCoupled(before, moves[|moves|-1]);
      Next(before, moves[|moves|-1])
  }

  /** The transport step that Router.Close waits for is one the bridge can take at once, whatever go-stomp's
      Unsubscribe did: after the router's Unsubscribe, a bridge that has not closed its channel can. */
  lemma {:induction false} CloseChanDischarged(moves: seq<Move>, k: nat) returns (b: B.Action)
    requires Possible(moves) && RQ.MustCome(R.Exec(After(moves).acts), R.CloseChan(k))
    ensures Can(After(moves), BridgeMoves(k, b)) && !b.Feed?
    ensures R.CloseChan(k) in Emitted(B.Exec(After(moves).bridges[k]), b, k)
  {
    var j := After(moves);
    assert Linked(R.Exec(j.acts).readers[k], B.Exec(j.bridges[k]));
    b := B.StopCloses(j.bridges[k]);
    assert !b.CtxDone? && !b.Stop?;
  }

  /** The bodies are those of go-stomp's first messages, with no error among them. */
  predicate Heard(fed: seq<B.Src>, bodies: seq<string>) {
    |bodies| <= |fed| && forall i :: 0 <= i < |bodies| ==> fed[i].Message? && bodies[i] == fed[i].body
  }

  /** And of all its messages: up to its end, or to its first error. */
  predicate HeardAll(fed: seq<B.Src>, bodies: seq<string>) {
    Heard(fed, bodies) && (|bodies| == |fed| || fed[|bodies|].Failure?)
  }

  /** What the router makes of a beginning of the source: its messages' bodies, and its error if it has one. */
  lemma MirrorHeard(fed: seq<B.Src>, out: seq<B.Out>)
    requires B.Mirrors(fed, out)
    ensures Heard(fed, RD.Bodies(AsMsgs(out)))
    ensures B.MirrorsAll(fed, out) ==> HeardAll(fed, RD.Bodies(AsMsgs(out)))
    ensures RD.FirstFault(AsMsgs(out))
         == if out != [] && fed[|out| - 1].Failure? then Some(fed[|out| - 1].cause) else None
    ensures RD.FirstFault(AsMsgs(out)).Some? ==> |RD.Bodies(AsMsgs(out))| == |out| - 1
  {
    var failed := out != [] && fed[|out| - 1].Failure?;
    var n := if failed then |out| - 1 else |out|;
    var bodies := seq(n, i requires 0 <= i < n => if fed[i].Message? then fed[i].body else "");
    var rest := if failed then [Fault(fed[n].cause)] else [];
    assert AsMsgs(out) == RD.AsData(bodies) + rest;
    RD.DataThenRest(bodies, rest);
    assert RD.Bodies(rest) == [] && bodies + [] == bodies;
  }

  /** End to end, in go-stomp's terms.  What a stopped reader dispatched are the bodies of the first messages that
      go-stomp delivered, in order and without gaps, none behind its first error; an error that ended the reader
      is go-stomp's, the one behind them.  When the router did not unsubscribe and the bridge is through, it is
      all of them. */
  lemma {:induction false} DispatchedFromSource(moves: seq<Move>, k: nat)
    requires Possible(moves) && k < |After(moves).bridges|
    requires R.Exec(After(moves).acts).readers[k].Dead()
    ensures var r, b := R.Exec(After(moves).acts).readers[k], B.Exec(After(moves).bridges[k]);
      && Heard(b.fed, r.seen)
      && (r.term.Some? ==>
            |r.seen| < |b.fed| && b.fed[|r.seen|].Failure? && b.fed[|r.seen|].cause == r.term.value)
      && (r.unsubs == 0 && b.phase.Returned? ==> HeardAll(b.fed, r.seen))
  {
    var j := After(moves);
    var r, b := R.Exec(j.acts).readers[k], B.Exec(j.bridges[k]);
    assert Linked(r, b);
    B.DeliversPrefix(j.bridges[k]);
    RD.StoppedReaderDispatchedAll(j.acts, k);
    MirrorHeard(b.fed, b.delivered);
  }

  /** So a handler registered when the subscription was made, and not removed, has been called with the body of
      every message go-stomp delivered before its first error, once each and in order. */
  lemma {:induction false} HandlerGetsAll(moves: seq<Move>, k: nat, t: R.Token)
    requires Possible(moves) && k < |After(moves).bridges|
    requires var r := R.Exec(After(moves).acts).readers[k];
      r.Dead() && r.unsubs == 0 && t in r.handlers && t in r.from && r.from[t] == 0
    requires B.Exec(After(moves).bridges[k]).phase.Returned?
    ensures HeardAll(B.Exec(After(moves).bridges[k]).fed,
                     RD.Delivered(R.Exec(After(moves).acts).readers[k].calls, t))
  {
    var j := After(moves);
    DispatchedFromSource(moves, k);
    RS.InvAlways(j.acts);
    RD.DispatchWindow(j.acts, k, t);
    var r := R.Exec(j.acts).readers[k];
    assert RD.End(r, t) == |r.seen|;
    assert r.seen[0..|r.seen|] == r.seen;
  }
}
