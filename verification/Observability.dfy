/** The router's readers on top of the error channel: what a caller of Errors() can read of the failures.
    A channel may be shared with other routers, which publish on it as well. */
module Observability {
  import opened Prelude
  import R = RouterModel
  import RS = RouterSafety
  import RR = RouterReports
  import Q = ErrorQueue

  /** A joint run: the router's actions, the channel's, and for every publishErr call the reader that makes
      it, or None for another router's. */
  datatype Joint = Joint(acts: seq<R.Action>, chan: seq<Q.Action>, owner: seq<Option<nat>>)

  datatype Move =
    | RouterMoves(a: R.Action)
    | BeginPublish(k: nat)      // reader k enters publishErr
    | OthersPublish             // some other router's reader does
    | ChannelMoves(x: Q.Action) // a step of a publishErr call, or a consumer
    | ReturnPublish(p: nat)     // the publishErr call p of one of our readers returns

  predicate OwnedBy(j: Joint, p: nat, k: nat) { p < |j.owner| && j.owner[p] == Some(k) }

  /** The call is over: its error was sent, or it gave up. */
  predicate Over(c: Q.Call) { c.phase.Sent? || c.phase.GaveUp? }

  predicate Runs(cap: nat, j: Joint) {
    R.Legal(j.acts) && Q.Legal(cap, j.chan) && |j.owner| == |Q.Exec(cap, j.chan).calls|
  }

  /** The moves there are; publishErr's calls begin and end only as readers make them. */
  predicate Can(cap: nat, j: Joint, m: Move)
    requires Runs(cap, j)
  {
    match m
    case RouterMoves(a) => !a.Publish? && R.Enabled(R.Exec(j.acts), a)
    case BeginPublish(k) =>
      k < |R.Exec(j.acts).readers| && R.Exec(j.acts).readers[k].phase.Publishing? && Some(k) !in j.owner
    case OthersPublish => true
    case ChannelMoves(x) => !x.Begin? && Q.Enabled(Q.Exec(cap, j.chan), x)
    case ReturnPublish(p) =>
      && p < |j.owner| && j.owner[p].Some? && Over(Q.Exec(cap, j.chan).calls[p])
      && R.Enabled(R.Exec(j.acts), R.Publish(j.owner[p].value))
  }

  function Next(j: Joint, m: Move): (j': Joint)
    requires m.ReturnPublish? ==> m.p < |j.owner| && j.owner[m.p].Some?
  {
    match m
    case RouterMoves(a) => j.(acts := j.acts + [a])
    case BeginPublish(k) => j.(chan := j.chan + [Q.Begin], owner := j.owner + [Some(k)])
    case OthersPublish => j.(chan := j.chan + [Q.Begin], owner := j.owner + [None])
    case ChannelMoves(x) => j.(chan := j.chan + [x])
    case ReturnPublish(p) => j.(acts := j.acts + [R.Publish(j.owner[p].value)])
  }

  /** The reader is publishing or has published. */
  predicate HasReport(r: R.Reader) { r.phase.Publishing? || (r.phase.Finished? && r.reports != []) }

  /** Calls belong to readers that have something to publish, one call to a reader, and a reader that
      published has made its call. */
  ghost predicate Coupled(cap: nat, j: Joint) {
    && Runs(cap, j)
    && (forall p: nat, k: nat :: OwnedBy(j, p, k) ==>
          k < |R.Exec(j.acts).readers| && HasReport(R.Exec(j.acts).readers[k]))
    && (forall p: nat, q: nat, k: nat :: OwnedBy(j, p, k) && OwnedBy(j, q, k) ==> p == q)
    && (forall k :: 0 <= k < |R.Exec(j.acts).readers| && R.Exec(j.acts).readers[k].reports != [] ==>
          exists p: nat :: OwnedBy(j, p, k) && Over(Q.Exec(cap, j.chan).calls[p]))
  }

  lemma LocalReports(r: R.Reader, a: R.Action)
    requires R.Local(a) && R.Ready(r, a) && !a.Publish?
    ensures R.LocalStep(r, a).reports == r.reports
    ensures HasReport(r) ==> HasReport(R.LocalStep(r, a))
  {
  }

  lemma ReportsFrame(s: R.State, a: R.Action, k: nat)
    requires R.Enabled(s, a) && k < |s.readers| && a != R.Publish(k)
    ensures R.NextReader(s, a, k).reports == s.readers[k].reports
    ensures HasReport(s.readers[k]) ==> HasReport(R.NextReader(s, a, k))
  {
    if R.Local(a) && a.k == k {
      LocalReports(s.readers[k], a);
    }
  }

  /** The router moves, and nobody publishes. */
  lemma RouterMoveCoupled(cap: nat, j: Joint, a: R.Action)
    requires Coupled(cap, j) && Can(cap, j, RouterMoves(a))
    ensures Coupled(cap, Next(j, RouterMoves(a)))
  {
    var j' := Next(j, RouterMoves(a));
    var s, s' := R.Exec(j.acts), R.Step(R.Exec(j.acts), a);
    R.Extend(j.acts, a);
    forall p: nat, k: nat | OwnedBy(j', p, k)
      ensures k < |s'.readers| && HasReport(s'.readers[k])
    {
      assert OwnedBy(j, p, k);
      ReportsFrame(s, a, k);
    }
    forall k | 0 <= k < |s'.readers| && s'.readers[k].reports != []
      ensures exists p: nat :: OwnedBy(j', p, k) && Over(Q.Exec(cap, j'.chan).calls[p])
    {
      if k < |s.readers| {
        ReportsFrame(s, a, k);
      }
      var p: nat :| OwnedBy(j, p, k) && Over(Q.Exec(cap, j.chan).calls[p]);
      assert OwnedBy(j', p, k);
    }
    assert forall p: nat, k: nat :: OwnedBy(j', p, k) ==> OwnedBy(j, p, k);
  }

  /** A publishErr call returns: its reader has published. */
  lemma ReturnCoupled(cap: nat, j: Joint, p: nat)
    requires Coupled(cap, j) && Can(cap, j, ReturnPublish(p))
    ensures Coupled(cap, Next(j, ReturnPublish(p)))
  {
    var j' := Next(j, ReturnPublish(p));
    var k0 := j.owner[p].value;
    var s, s' := R.Exec(j.acts), R.Step(R.Exec(j.acts), R.Publish(k0));
    R.Extend(j.acts, R.Publish(k0));
    R.LocalStepIs(s, R.Publish(k0));
    forall k | 0 <= k < |s'.readers| && s'.readers[k].reports != []
      ensures exists q: nat :: OwnedBy(j', q, k) && Over(Q.Exec(cap, j'.chan).calls[q])
    {
      if k == k0 {
        assert OwnedBy(j', p, k);
      } else {
        var q: nat :| OwnedBy(j, q, k) && Over(Q.Exec(cap, j.chan).calls[q]);
        assert OwnedBy(j', q, k);
      }
    }
    assert forall q: nat, k: nat :: OwnedBy(j', q, k) ==> OwnedBy(j, q, k);
  }

  lemma {:induction false} ChannelExtend(cap: nat, acts: seq<Q.Action>, x: Q.Action)
    requires Q.Legal(cap, acts) && Q.Enabled(Q.Exec(cap, acts), x)
    ensures Q.Legal(cap, acts + [x]) && Q.Exec(cap, acts + [x]) == Q.Step(cap, Q.Exec(cap, acts), x)
  {
    assert (acts + [x])[..|acts|] == acts;
  }

  lemma OverFrame(cap: nat, s: Q.State, x: Q.Action, p: nat)
    requires Q.Enabled(s, x) && p < |s.calls|
    ensures |Q.Step(cap, s, x).calls| == |s.calls| + (if x.Begin? then 1 else 0)
    ensures Over(s.calls[p]) ==> Over(Q.Step(cap, s, x).calls[p])
  {
  }

  /** A step on the channel; `who` is the reader that begins a call, if one does. */
  lemma ChannelCoupled(cap: nat, j: Joint, x: Q.Action, who: Option<nat>)
    requires Coupled(cap, j) && Q.Enabled(Q.Exec(cap, j.chan), x)
    requires who.Some? ==>
      && x.Begin? && who !in j.owner && who.value < |R.Exec(j.acts).readers|
      && R.Exec(j.acts).readers[who.value].phase.Publishing?
    ensures Coupled(cap, j.(chan := j.chan + [x], owner := if x.Begin? then j.owner + [who] else j.owner))
  {
    var j' := j.(chan := j.chan + [x], owner := if x.Begin? then j.owner + [who] else j.owner);
    var s, s' := Q.Exec(cap, j.chan), Q.Step(cap, Q.Exec(cap, j.chan), x);
    ChannelExtend(cap, j.chan, x);
    assert |s'.calls| == |s.calls| + (if x.Begin? then 1 else 0);
    forall p: nat, k: nat | OwnedBy(j', p, k)
      ensures OwnedBy(j, p, k) || (p == |j.owner| && who == Some(k))
    {
    }
    forall k | 0 <= k < |R.Exec(j.acts).readers| && R.Exec(j.acts).readers[k].reports != []
      ensures exists p: nat :: OwnedBy(j', p, k) && Over(Q.Exec(cap, j'.chan).calls[p])
    {
      var p: nat :| OwnedBy(j, p, k) && Over(s.calls[p]);
      OverFrame(cap, s, x, p);
      assert OwnedBy(j', p, k);
    }
    assert forall p: nat, k: nat :: OwnedBy(j, p, k) ==> Some(k) in j.owner;
  }

  lemma StaysCoupled(cap: nat, j: Joint, m: Move)
    requires Coupled(cap, j) && Can(cap, j, m)
    ensures Coupled(cap, Next(j, m))
  {
    match m
    case RouterMoves(a) => RouterMoveCoupled(cap, j, a);
    case BeginPublish(k) => ChannelCoupled(cap, j, Q.Begin, Some(k));
    case OthersPublish => ChannelCoupled(cap, j, Q.Begin, None);
    case ChannelMoves(x) => ChannelCoupled(cap, j, x, None);
    case ReturnPublish(p) => ReturnCoupled(cap, j, p);
  }

  /** A joint run from the start. */
  ghost predicate Possible(cap: nat, moves: seq<Move>)
    decreases |moves|, 0
  {
    moves == [] ||
    (Possible(cap, moves[..|moves|-1]) && Can(cap, After(cap, moves[..|moves|-1]), moves[|moves|-1]))
  }

  ghost function After(cap: nat, moves: seq<Move>): (j: Joint)
    requires Possible(cap, moves)
    ensures Coupled(cap, j)
    decreases |moves|, 1
  {
    if moves == [] then Joint([], [], [])
    else
      var before := After(cap, moves[..|moves|-1]);
      StaysCoupled(cap, before, moves[|moves|-1]);
      Next(before, moves[|moves|-1])
  }

  /** Every report of every reader is one call's error; it has entered the channel, and then is queued or was
      taken out, or at least 16 other errors entered the channel while the call ran. */
  lemma {:induction false} ReportOnChannel(cap: nat, moves: seq<Move>, k: nat) returns (p: nat)
    requires cap >= 1 && Possible(cap, moves)
    requires k < |R.Exec(After(cap, moves).acts).readers| && R.Exec(After(cap, moves).acts).readers[k].reports != []
    ensures OwnedBy(After(cap, moves), p, k)
    ensures forall q: nat :: OwnedBy(After(cap, moves), q, k) ==> q == p
    ensures var c := Q.Exec(cap, After(cap, moves).chan);
      || p in c.queue || p in c.removed
      || (p < |c.calls| && c.calls[p].phase.GaveUp? && c.calls[p].stop - c.calls[p].start >= 16)
  {
    var j := After(cap, moves);
    var c := Q.Exec(cap, j.chan);
    p :| OwnedBy(j, p, k) && Over(c.calls[p]);
    Q.InvAlways(cap, j.chan);
    if c.calls[p].phase.GaveUp? {
      Q.LossNeedsBurst(cap, j.chan, p);
    }
  }

  /** Readable from Errors(): the error of the reader's one publishErr call is queued, or was taken out. */
  ghost predicate Readable(cap: nat, j: Joint, k: nat)
    requires Runs(cap, j)
  {
    var c := Q.Exec(cap, j.chan); exists p: nat :: OwnedBy(j, p, k) && (p in c.queue || p in c.removed)
  }

  /** The whole promise of Errors().  As long as no more failures are undrained at any one time than the channel
      holds, by all routers on it and however many there are over time, nobody discards anything, and the
      cause of every reader that has exited is on the channel or was read there; but for a channel that
      closed without an error whose state had left the registry, by a replacement or a teardown. */
  lemma {:induction false} FailureReadable(cap: nat, moves: seq<Move>, k: nat)
    requires cap >= 1 && Possible(cap, moves) && Q.Undrained(cap, After(cap, moves).chan)
    requires var s := R.Exec(After(cap, moves).acts); k < |s.readers| && s.readers[k].phase.Finished?
    ensures Q.Exec(cap, After(cap, moves).chan).discards == 0
    ensures var acts := After(cap, moves).acts;
      Readable(cap, After(cap, moves), k) <==>
        !(R.Exec(acts).readers[k].term.None? && (RR.ReplacedDuring(acts, k) || RR.TornDownDuring(acts, k)))
  {
    var j := After(cap, moves);
    RR.FailureObservableExactly(j.acts, k);
    Q.NothingLostUndrained(cap, j.chan);
    Q.InvAlways(cap, j.chan);
    if R.Exec(j.acts).readers[k].reports != [] {
      var p := ReportOnChannel(cap, moves, k);
      assert OwnedBy(j, p, k);
    }
  }
}
