/** The bounded drop-oldest error channel, with any number of publishers and consumers. */
module ErrorQueue {
  import opened Prelude

  const ERROR_CHAN_BUFFER: nat := 16

  /** A publishErr call: about to try its i-th send, or about to discard after that send failed. */
  datatype Phase = Trying(i: nat) | Discarding(i: nat) | Sent | GaveUp

  /** `start` and `stop` are the numbers of successful sends at the beginning and the end of the call. */
  datatype Call = Call(phase: Phase, start: nat, stop: nat)

  /** Call p publishes error number p.  `sent` lists the errors in the order they entered the channel,
      `removed` those that left it; `discards` counts the removals by publishers. */
  datatype State = State(queue: seq<nat>, calls: seq<Call>, sent: seq<nat>, removed: seq<nat>, discards: nat)

  datatype Action = Begin | TrySend(p: nat) | Discard(p: nat) | Consume

  const INIT := State([], [], [], [], 0)

  predicate Enabled(s: State, a: Action) {
    match a
    case Begin => true
    case TrySend(p) => p < |s.calls| && s.calls[p].phase.Trying?
    case Discard(p) => p < |s.calls| && s.calls[p].phase.Discarding?
    case Consume => s.queue != []
  }

  function Step(cap: nat, s: State, a: Action): (t: State)
    requires Enabled(s, a)
  {
    match a
    case Begin => s.(calls := s.calls + [Call(Trying(0), |s.sent|, |s.sent|)])
    case TrySend(p) =>
      var c := s.calls[p];
      if |s.queue| < cap
      then s.(queue := s.queue + [p], sent := s.sent + [p], calls := s.calls[p := c.(phase := Sent, stop := |s.sent|)])
      else s.(calls := s.calls[p := c.(phase := Discarding(c.phase.i))])
    case Discard(p) =>
      var c := s.calls[p];
      var c' := if c.phase.i < ERROR_CHAN_BUFFER then c.(phase := Trying(c.phase.i + 1))
                else c.(phase := GaveUp, stop := |s.sent|);
      var s' := s.(calls := s.calls[p := c']);
      if s.queue == [] then s'
      else s'.(queue := s.queue[1..], removed := s.removed + [s.queue[0]], discards := s.discards + 1)
    case Consume => s.(queue := s.queue[1..], removed := s.removed + [s.queue[0]])
  }

  predicate Legal(cap: nat, acts: seq<Action>)
    decreases |acts|, 0
  {
    acts == [] ||
    (Legal(cap, acts[..|acts|-1]) && Enabled(Exec(cap, acts[..|acts|-1]), acts[|acts|-1]))
  }

  function Exec(cap: nat, acts: seq<Action>): (s: State)
    requires Legal(cap, acts)
    decreases |acts|, 1
  {
    if acts == [] then INIT else Step(cap, Exec(cap, acts[..|acts|-1]), acts[|acts|-1])
  }

  /** The i-th failed attempt of a call proves i successful sends of others: after each discard there
      was room, and only another send can have taken it. */
  predicate CallOk(cap: nat, s: State, c: Call) {
    && c.start <= |s.sent|
    && match c.phase
       case Trying(i) =>
         && i <= ERROR_CHAN_BUFFER
         && c.start + i <= |s.sent| + 1
         && (|s.queue| == cap ==> c.start + i <= |s.sent|)
       case Discarding(i) => i <= ERROR_CHAN_BUFFER && c.start + i <= |s.sent|
       case Sent => c.start <= c.stop < |s.sent|
       case GaveUp => c.start + ERROR_CHAN_BUFFER <= c.stop <= |s.sent|
  }

  ghost predicate Inv(cap: nat, s: State) {
    && |s.queue| <= cap
    && s.sent == s.removed + s.queue
    && (forall i :: 0 <= i < |s.sent| ==> s.sent[i] < |s.calls| && s.calls[s.sent[i]].phase.Sent?)
    && (forall p :: 0 <= p < |s.calls| ==> CallOk(cap, s, s.calls[p]))
    && (forall p :: 0 <= p < |s.calls| && s.calls[p].phase.Sent? ==> p in s.sent)
  }

  lemma CallStep(cap: nat, s: State, a: Action, p: nat)
    requires cap >= 1 && |s.queue| <= cap && Enabled(s, a) && p < |s.calls| && CallOk(cap, s, s.calls[p])
    ensures CallOk(cap, Step(cap, s, a), Step(cap, s, a).calls[p])
    ensures s.calls[p].phase.Sent? ==> Step(cap, s, a).calls[p].phase.Sent?
    ensures s.calls[p].phase.GaveUp? ==> Step(cap, s, a).calls[p] == s.calls[p]
    ensures s.calls[p].phase.Sent? || p in s.sent || !Step(cap, s, a).calls[p].phase.Sent? || a == TrySend(p)
  {
  }

  lemma InvStep(cap: nat, s: State, a: Action)
    requires cap >= 1 && Inv(cap, s) && Enabled(s, a)
    ensures Inv(cap, Step(cap, s, a))
  {
    var s' := Step(cap, s, a);
    assert s.queue != [] ==> s.queue == [s.queue[0]] + s.queue[1..];
    forall p | 0 <= p < |s.calls| {
      CallStep(cap, s, a, p);
    }
    assert a.TrySend? && s'.sent != s.sent ==> s'.sent[|s.sent|] == a.p;
    assert forall p :: p in s.sent ==> p in s'.sent;
    assert |s'.calls| > |s.calls| ==> a.Begin? && CallOk(cap, s', s'.calls[|s.calls|]);
  }

  lemma {:induction false} InvAlways(cap: nat, acts: seq<Action>)
    requires cap >= 1 && Legal(cap, acts)
    ensures Inv(cap, Exec(cap, acts))
  {
    if acts != [] {
      var n := |acts| - 1;
      InvAlways(cap, acts[..n]);
      InvStep(cap, Exec(cap, acts[..n]), acts[n]);
    }
  }

  /** First in, first out: what left the channel is the oldest part of what entered it, in order, and
      the rest is queued.  A discard therefore always takes the oldest error. */
  lemma {:induction false} DropsOldest(cap: nat, acts: seq<Action>)
    requires cap >= 1 && Legal(cap, acts)
    ensures Exec(cap, acts).sent == Exec(cap, acts).removed + Exec(cap, acts).queue
    ensures |Exec(cap, acts).queue| <= cap
  {
    InvAlways(cap, acts);
  }

  /** A call that gives up lost its own error only to at least sixteen sends of other calls
      that succeeded while it ran, whatever the capacity. */
  lemma {:induction false} LossNeedsBurst(cap: nat, acts: seq<Action>, p: nat)
    requires cap >= 1 && Legal(cap, acts) && p < |Exec(cap, acts).calls| && Exec(cap, acts).calls[p].phase.GaveUp?
    ensures Exec(cap, acts).calls[p].stop - Exec(cap, acts).calls[p].start >= 16
    ensures Exec(cap, acts).calls[p].stop <= |Exec(cap, acts).sent| && p !in Exec(cap, acts).sent
  {
    InvAlways(cap, acts);
  }

  /** Attempts made so far by a call. */
  function Attempts(s: State, p: nat): (n: nat) {
    if p >= |s.calls| then 0
    else match s.calls[p].phase
      case Trying(i) => i
      case Discarding(i) => i + 1
      case Sent => 0
      case GaveUp => ERROR_CHAN_BUFFER + 1
  }

  /** Every call makes at most seventeen attempts, however the others are scheduled. */
  lemma {:induction false} BoundedRounds(cap: nat, acts: seq<Action>, p: nat)
    requires cap >= 1 && Legal(cap, acts)
    ensures Count(acts, TrySend(p)) <= 17
    ensures !(p < |Exec(cap, acts).calls| && Exec(cap, acts).calls[p].phase.Sent?) ==>
      Count(acts, TrySend(p)) == Attempts(Exec(cap, acts), p)
  {
    if acts != [] {
      var n := |acts| - 1;
      BoundedRounds(cap, acts[..n], p);
      InvAlways(cap, acts[..n]);
    }
  }

  /** The calls that have returned with their error sent. */
  function Senders(calls: seq<Call>): (n: nat) {
    if calls == [] then 0 else Senders(calls[..|calls|-1]) + (if calls[|calls|-1].phase.Sent? then 1 else 0)
  }

  lemma {:induction false} SendersUpdate(calls: seq<Call>, p: nat, c: Call)
    requires p < |calls|
    ensures Senders(calls[p := c])
         == Senders(calls) - (if calls[p].phase.Sent? then 1 else 0) + (if c.phase.Sent? then 1 else 0)
    ensures Senders(calls) <= |calls|
    ensures !calls[p].phase.Sent? ==> Senders(calls) < |calls|
  {
    var n := |calls| - 1;
    if p == n {
      assert calls[p := c][..n] == calls[..n];
      if n > 0 { SendersUpdate(calls[..n], 0, c); }
    } else {
      SendersUpdate(calls[..n], p, c);
      assert calls[p := c][..n] == calls[..n][p := c];
    }
  }

  ghost predicate Lossless(s: State) {
    && |s.sent| == Senders(s.calls)
    && s.discards == 0
    && (forall p :: 0 <= p < |s.calls| ==> s.calls[p].phase == Trying(0) || s.calls[p].phase.Sent?)
    && (forall p :: 0 <= p < |s.calls| && s.calls[p].phase.Sent? ==> p in s.sent)
  }

  /** At no point of the run are there more than `cap` failures that were published, or are being published,
      and not yet read. */
  predicate Undrained(cap: nat, acts: seq<Action>)
    requires Legal(cap, acts)
  {
    && |Exec(cap, acts).calls| <= cap + |Exec(cap, acts).removed|
    && (acts == [] || Undrained(cap, acts[..|acts|-1]))
  }

  lemma LosslessBegin(cap: nat, s: State)
    requires Lossless(s)
    ensures Lossless(Step(cap, s, Begin))
  {
    assert Step(cap, s, Begin).calls[..|s.calls|] == s.calls;
  }

  /** With room in the channel, a call's first attempt succeeds. */
  lemma LosslessSend(cap: nat, s: State, p: nat)
    requires Lossless(s) && Enabled(s, TrySend(p)) && |s.queue| < cap
    ensures Lossless(Step(cap, s, TrySend(p)))
  {
    var s' := Step(cap, s, TrySend(p));
    SendersUpdate(s.calls, p, s'.calls[p]);
    assert s'.sent[|s.sent|] == p;
    assert forall q :: q in s.sent ==> q in s'.sent;
  }

  lemma LosslessStep(cap: nat, s: State, a: Action)
    requires Lossless(s) && Enabled(s, a) && s.sent == s.removed + s.queue
    requires |s.calls| <= cap + |s.removed|
    ensures Lossless(Step(cap, s, a))
  {
    match a
    case Begin => LosslessBegin(cap, s);
    case TrySend(p) =>
      SendersUpdate(s.calls, p, s.calls[p]);
      LosslessSend(cap, s, p);
    case Discard(p) =>
    case Consume =>
  }

  /** As long as at most `cap` failures are undrained at any one time, however many there are over the life of
      the channel, nothing is lost: no call sees a full channel, so none discards, none gives up, and every
      returned call's error is queued or was consumed. */
  lemma {:induction false} NothingLostUndrained(cap: nat, acts: seq<Action>)
    requires cap >= 1 && Legal(cap, acts) && Undrained(cap, acts)
    ensures Lossless(Exec(cap, acts))
  {
    if acts != [] {
      var n := |acts| - 1;
      NothingLostUndrained(cap, acts[..n]);
      InvAlways(cap, acts[..n]);
      LosslessStep(cap, Exec(cap, acts[..n]), acts[n]);
    }
  }

  lemma {:induction false} FewAreUndrained(cap: nat, acts: seq<Action>)
    requires Legal(cap, acts) && |Exec(cap, acts).calls| <= cap
    ensures Undrained(cap, acts)
  {
    if acts != [] {
      var n := |acts| - 1;
      CallsGrow(cap, Exec(cap, acts[..n]), acts[n]);
      FewAreUndrained(cap, acts[..n]);
    }
  }

  lemma CallsGrow(cap: nat, s: State, a: Action)
    requires Enabled(s, a)
    ensures |s.calls| <= |Step(cap, s, a).calls|
  {
  }

  /** In particular the first `cap` failures of a channel lose nothing, drained or not. */
  lemma {:induction false} NothingLostUpToCapacity(cap: nat, acts: seq<Action>)
    requires cap >= 1 && Legal(cap, acts) && |Exec(cap, acts).calls| <= cap
    ensures Lossless(Exec(cap, acts))
  {
    FewAreUndrained(cap, acts);
    NothingLostUndrained(cap, acts);
  }

  /** The channel and its other users, for one publishErr call. */
  class ErrChan {
    const cap: nat
    var queue: seq<nat>
    ghost var otherSends: nat

    ghost predicate Valid()
      reads this
    {
      cap >= 1 && |queue| <= cap
    }

    constructor (cap: nat)
      requires cap >= 1
      ensures Valid() && this.cap == cap && queue == [] && otherSends == 0
    {
      this.cap := cap;
      queue, otherSends := [], 0;
    }

    /** Any number of steps of other publishers and of consumers, unless `quiet`. */
    method Interfere(quiet: bool)
      requires Valid()
      modifies this
      ensures Valid() && otherSends >= old(otherSends)
      ensures |queue| - |old(queue)| <= otherSends - old(otherSends)
      ensures quiet ==> queue == old(queue) && otherSends == old(otherSends)
    {
      if quiet {
        return;
      }
      var n :| 0 <= n;
      for i := 0 to n
        invariant Valid() && otherSends >= old(otherSends)
        invariant |queue| - |old(queue)| <= otherSends - old(otherSends)
      {
        var send: bool := *;
        var e: nat :| true;
        if send && |queue| < cap {
          queue := queue + [e];
          otherSends := otherSends + 1;
        } else if queue != [] {
          queue := queue[1..];
        }
      }
    }

    /** publishErr.  With no one else about, the error is always queued, at the price of the oldest. */
    method PublishErr(err: nat, quiet: bool) returns (sent: bool, rounds: nat)
      requires Valid()
      modifies this
      ensures Valid() && 1 <= rounds <= 17
      ensures sent ==> queue != [] && queue[|queue| - 1] == err
      ensures !sent ==> otherSends - old(otherSends) >= 16
      ensures quiet ==> sent && rounds <= 2
      ensures quiet ==>
        queue == (if |old(queue)| < cap then old(queue) else old(queue)[1..]) + [err]
    {
      rounds := 0;
      while rounds <= ERROR_CHAN_BUFFER
        invariant Valid() && rounds <= ERROR_CHAN_BUFFER + 1 && otherSends >= old(otherSends)
        invariant rounds > 0 ==> |queue| < cap && otherSends - old(otherSends) >= rounds - 1
        invariant quiet ==> rounds <= 1 && otherSends == old(otherSends)
        invariant quiet && rounds > 0 ==> |old(queue)| == cap
        invariant quiet ==> queue == if rounds == 0 then old(queue) else old(queue)[1..]
      {
        Interfere(quiet);
        rounds := rounds + 1;
        if |queue| < cap {
          queue := queue + [err];
          return true, rounds;
        }
        Interfere(quiet);
        if queue != [] {
          queue := queue[1..];
        }
      }
      sent := false;
    }
  }
}
