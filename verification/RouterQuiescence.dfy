/** Close reaches quiescence: after its lock section, and while no Subscribe creates a subscription, the
    readers run out of steps, and only when all of them have exited; and how long that lasts. */
module RouterQuiescence {
  import opened Prelude
  import opened RouterModel
  import opened RouterSafety

  /** Steps of readers, of callers already committed to an Unsubscribe, and the transport's closing of a channel. */
  predicate Internal(a: Action) { (Local(a) && !a.Deliver?) || a.Deregister? }

  /** An internal step that must come: the transport closes a channel once it was unsubscribed. */
  predicate MustCome(s: State, a: Action) {
    Internal(a) && Enabled(s, a) && (a.CloseChan? ==> s.readers[a.k].unsubs > 0)
  }

  /** Steps one queued message can still cause. */
  function PerMessage(r: Reader): (n: nat) { |r.handlers| + 3 }

  function PhaseRank(r: Reader): (n: nat) {
    match r.phase
    case Finished => 0
    case Publishing(_) => 1
    case Marked => 2
    case Stopping => 3
    case Receiving => 4
    case Dispatching(_, pending) => 5 + |pending|
    case Holding(_) => 6 + |r.handlers|
  }

  function Backlog(queued: nat, per: nat): (n: nat) {
    if queued == 0 then 0 else Backlog(queued - 1, per) + per
  }

  function Rank(r: Reader): (n: nat) {
    PhaseRank(r) + Backlog(|r.queue|, PerMessage(r)) + r.owed + (if r.closed then 0 else 1)
  }

  function Total(rs: seq<Reader>): (n: nat) {
    if rs == [] then 0 else Total(rs[..|rs|-1]) + Rank(rs[|rs|-1])
  }

  lemma {:induction false} TotalUpdate(rs: seq<Reader>, k: nat, r: Reader)
    requires k < |rs|
    ensures Total(rs[k := r]) == Total(rs) - Rank(rs[k]) + Rank(r)
  {
    var n := |rs| - 1;
    if k == n {
      assert rs[k := r][..n] == rs[..n];
    } else {
      TotalUpdate(rs[..n], k, r);
      assert rs[k := r][..n] == rs[..n][k := r];
    }
  }

  lemma RankFalls(r: Reader, a: Action)
    requires Local(a) && Ready(r, a)
    ensures LocalStep(r, a).handlers == r.handlers
    ensures !a.Deliver? ==> Rank(LocalStep(r, a)) < Rank(r)
    ensures a.Deliver? ==> Rank(LocalStep(r, a)) == Rank(r) + PerMessage(r)
  {
    if a.Receive? {
      assert Backlog(|r.queue|, PerMessage(r)) == Backlog(|r.queue| - 1, PerMessage(r)) + PerMessage(r);
    }
  }

  /** No message causes more than b steps. */
  predicate Bounded(s: State, b: nat) {
    forall k :: 0 <= k < |s.readers| ==> PerMessage(s.readers[k]) <= b
  }

  lemma LeaveRank(r: Reader)
    requires r.phase.Marked?
    ensures Rank(Leave(r, false)) < Rank(r) && Leave(r, false).handlers == r.handlers
  {
  }

  lemma QuietDeregister(s: State, k: nat, b: nat)
    requires s.dests == map[] && Enabled(s, Deregister(k)) && Bounded(s, b)
    ensures Step(s, Deregister(k)).dests == map[] && Bounded(Step(s, Deregister(k)), b)
    ensures Total(Step(s, Deregister(k)).readers) < Total(s.readers)
  {
    DeregisterStepIs(s, k);
    LeaveRank(s.readers[k]);
    TotalUpdate(s.readers, k, Leave(s.readers[k], false));
  }

  lemma QuietLocal(s: State, a: Action, b: nat)
    requires s.dests == map[] && Enabled(s, a) && Local(a) && Bounded(s, b)
    ensures Step(s, a).dests == map[] && Bounded(Step(s, a), b)
    ensures !a.Deliver? ==> Total(Step(s, a).readers) < Total(s.readers)
    ensures a.Deliver? ==> Total(Step(s, a).readers) <= Total(s.readers) + b
  {
    LocalStepIs(s, a);
    RankFalls(s.readers[a.k], a);
    TotalUpdate(s.readers, a.k, LocalStep(s.readers[a.k], a));
  }

  /** With an empty registry, whatever else callers do changes no reader and registers nothing. */
  lemma OtherStep(s: State, a: Action)
    requires s.dests == map[] && Enabled(s, a) && !Local(a) && !a.Deregister? && !a.Create?
    ensures Step(s, a).dests == map[] && Step(s, a).readers == s.readers
  {
  }

  lemma QuietStep(s: State, a: Action, b: nat)
    requires s.dests == map[] && Enabled(s, a) && !a.Create? && Bounded(s, b)
    ensures Step(s, a).dests == map[] && Bounded(Step(s, a), b)
    ensures Total(Step(s, a).readers) + (if Internal(a) then 1 else 0)
         <= Total(s.readers) + (if a.Deliver? then b else 0)
  {
    if a.Deregister? {
      QuietDeregister(s, a.k, b);
    } else if Local(a) {
      QuietLocal(s, a, b);
    } else {
      OtherStep(s, a);
    }
  }

  /** b for every delivery from position m on. */
  function Budget(acts: seq<Action>, m: nat, b: nat): (n: nat) {
    if |acts| <= m then 0 else Budget(acts[..|acts|-1], m, b) + (if acts[|acts|-1].Deliver? then b else 0)
  }

  /** The internal steps from position m on. */
  function InternalFrom(acts: seq<Action>, m: nat): (n: nat) {
    if |acts| <= m then 0 else InternalFrom(acts[..|acts|-1], m) + (if Internal(acts[|acts|-1]) then 1 else 0)
  }

  /** Once Close has emptied the registry, and as long as no Subscribe creates a subscription, the internal
      steps are bounded by the work there was plus at most `b` for every message the transport still
      delivers; whatever callers do meanwhile: further Close and Unsubscribe calls, returns of Close, tokens
      drawn, Subscribe calls that fail. */
  lemma {:induction false} CloseTerminates(acts: seq<Action>, m: nat, b: nat)
    requires Legal(acts) && m <= |acts| && Legal(acts[..m])
    requires Exec(acts[..m]).dests == map[] && Bounded(Exec(acts[..m]), b)
    requires forall i :: m <= i < |acts| ==> !acts[i].Create?
    ensures Exec(acts).dests == map[] && Bounded(Exec(acts), b)
    ensures Total(Exec(acts).readers) + InternalFrom(acts, m) <= Total(Exec(acts[..m]).readers) + Budget(acts, m, b)
    decreases |acts|
  {
    if m == |acts| {
      assert acts[..m] == acts;
    } else {
      var n := |acts| - 1;
      assert acts[..n][..m] == acts[..m];
      CloseTerminates(acts[..n], m, b);
      QuietStep(Exec(acts[..n]), acts[n], b);
    }
  }

  lemma ReceivingMoves(s: State, k: nat) returns (a: Action)
    requires k < |s.readers| && ReaderOk(s.readers[k]) && RegistryOk(s) && s.dests == map[]
    requires s.readers[k].phase.Receiving?
    ensures MustCome(s, a) && Local(a) && a.k == k
  {
    var r := s.readers[k];
    assert !r.removal.Registered? && r.owed + r.unsubs == 1;
    a := if r.queue != [] then Receive(k)
         else if r.closed then ReceiveEnd(k)
         else if r.owed > 0 then CallUnsub(k)
         else CloseChan(k);
  }

  /** While a reader has not exited, some step must come: the system cannot get stuck before. */
  lemma {:induction false} UnfinishedMoves(acts: seq<Action>, k: nat) returns (a: Action)
    requires Legal(acts) && Exec(acts).dests == map[]
    requires k < |Exec(acts).readers| && !Exec(acts).readers[k].phase.Finished?
    ensures MustCome(Exec(acts), a) && a.k == k
  {
    InvAlways(acts);
    var r := Exec(acts).readers[k];
    match r.phase
    case Receiving => a := ReceivingMoves(Exec(acts), k);
    case Holding(_) => a := Snapshot(k);
    case Dispatching(_, pending) =>
      if pending == {} {
        a := EndDispatch(k);
      } else {
        var t :| t in pending;
        a := Invoke(k, t);
      }
    case Stopping => a := MarkDone(k);
    case Marked => a := Deregister(k);
    case Publishing(_) => a := Publish(k);
  }

  predicate CollectedBy(s: State, c: nat, k: nat) { c < |s.closers| && k in s.closers[c].subs }

  /** Every subscription a Close collected is unsubscribed or about to be. */
  ghost predicate ClosersOk(s: State) {
    forall c: nat, k: nat :: CollectedBy(s, c, k) ==>
      k < |s.readers| && s.readers[k].owed + s.readers[k].unsubs >= 1
  }

  lemma OwedFrame(s: State, a: Action, k: nat)
    requires Enabled(s, a) && k < |s.readers|
    ensures NextReader(s, a, k).owed + NextReader(s, a, k).unsubs >= s.readers[k].owed + s.readers[k].unsubs
    ensures a.CloseLock? && k in Collected(s) ==> NextReader(s, a, k).owed + NextReader(s, a, k).unsubs >= 1
  {
  }

  lemma {:induction false} ClosersAlways(acts: seq<Action>)
    requires Legal(acts)
    ensures ClosersOk(Exec(acts))
  {
    if acts != [] {
      var n := |acts| - 1;
      var s, s' := Exec(acts[..n]), Exec(acts);
      ClosersAlways(acts[..n]);
      forall c: nat, k: nat | CollectedBy(s', c, k)
        ensures k < |s'.readers| && s'.readers[k].owed + s'.readers[k].unsubs >= 1
      {
        assert CollectedBy(s, c, k) || (acts[n].CloseLock? && k in Collected(s));
        OwedFrame(s, acts[n], k);
      }
    }
  }

  /** So when nothing more must come, every reader has exited and every pending Close returns. */
  lemma {:induction false} QuiescentMeansClosed(acts: seq<Action>, c: nat)
    requires Legal(acts) && Exec(acts).dests == map[]
    requires forall a :: !MustCome(Exec(acts), a)
    requires c < |Exec(acts).closers| && !Exec(acts).closers[c].returned
    ensures forall k :: 0 <= k < |Exec(acts).readers| ==> Exec(acts).readers[k].phase.Finished?
    ensures Enabled(Exec(acts), CloseReturn(c))
  {
    var s := Exec(acts);
    ClosersAlways(acts);
    forall k | 0 <= k < |s.readers|
      ensures s.readers[k].phase.Finished? && s.readers[k].owed == 0
    {
      if !s.readers[k].phase.Finished? {
        var a := UnfinishedMoves(acts, k);
      }
      assert !MustCome(s, CallUnsub(k));
    }
    assert forall k: nat :: k in s.closers[c].subs ==> CollectedBy(s, c, k);
    WaitGroupCounts(acts);
  }

  /** What Close leaves behind: an empty registry, and no reader that has not exited. */
  predicate ClosedDown(s: State) {
    s.dests == map[] && forall k :: 0 <= k < |s.readers| ==> s.readers[k].phase.Finished?
  }

  lemma {:induction false} ClosedDownStep(s: State, a: Action)
    requires ClosedDown(s) && Enabled(s, a)
    ensures ClosedDown(Step(s, a)) <==> !a.Create?
  {
    if a.Create? {
      assert a.dest in Step(s, a).dests;
    }
  }

  /** After the first i actions, the router is closed down. */
  predicate ClosedDownAt(acts: seq<Action>, i: nat) {
    i <= |acts| && Legal(acts[..i]) && ClosedDown(Exec(acts[..i]))
  }

  lemma {:induction false} ClosedDownUntil(acts: seq<Action>, m: nat, i: nat)
    requires Legal(acts) && m <= i <= |acts| && ClosedDownAt(acts, m)
    requires forall j :: m <= j < i ==> !acts[j].Create?
    ensures ClosedDownAt(acts, i)
  {
    if m < i {
      ClosedDownUntil(acts, m, i - 1);
      PrefixLegal(acts, i - 1);
      ClosedDownStep(Exec(acts[..i - 1]), acts[i - 1]);
    }
  }

  lemma {:induction false} ReturnsClosedDown(acts: seq<Action>, m: nat)
    requires Legal(acts) && 0 < m <= |acts| && acts[m - 1].CloseReturn?
    ensures ClosedDownAt(acts, m)
  {
    PrefixLegal(acts, m - 1);
    CloseLeavesNothing(acts[..m - 1], acts[m - 1].c);
    ClosedDownStep(Exec(acts[..m - 1]), acts[m - 1]);
  }

  /** "No goroutine outlives the router": from the return of Close on, the router stays closed down at every
      later point if and only if no Subscribe creates a subscription after that return. */
  lemma {:induction false} StaysClosedDownExactly(acts: seq<Action>, m: nat)
    requires Legal(acts) && 0 < m <= |acts| && acts[m - 1].CloseReturn?
    ensures (forall i :: m <= i <= |acts| ==> ClosedDownAt(acts, i))
       <==> (forall i :: m <= i < |acts| ==> !acts[i].Create?)
  {
    ReturnsClosedDown(acts, m);
    if forall i :: m <= i < |acts| ==> !acts[i].Create? {
      forall i | m <= i <= |acts|
        ensures ClosedDownAt(acts, i)
      {
        ClosedDownUntil(acts, m, i);
      }
    } else {
      var i :| m <= i < |acts| && acts[i].Create?;
      PrefixLegal(acts, i);
      if ClosedDownAt(acts, i) {
        ClosedDownStep(Exec(acts[..i]), acts[i]);
        assert !ClosedDownAt(acts, i + 1);
      }
    }
  }

  /** The other case is a run of any router: Close on an idle router, and a Subscribe that was already under
      way, or begins later, registers a live destination after Close has returned. */
  lemma SubscribeOutlivesClose(d: Dest) returns (acts: seq<Action>)
    ensures acts == [DrawToken, CloseLock, CloseReturn(0), Create(1, d)] && Legal(acts)
    ensures ClosedDownAt(acts, 3) && HasLive(Exec(acts), d)
  {
    assert Legal([]);
    Extend([], DrawToken);
    Extend([] + [DrawToken], CloseLock);
    var closing := [DrawToken, CloseLock];
    assert closing == [] + [DrawToken] + [CloseLock];
    assert Collected(Exec([] + [DrawToken])) == {};
    CloseDoesNotBarSubscribe(closing, 0, 1, d);
    acts := closing + [CloseReturn(0)] + [Create(1, d)];
    assert acts[..3] == closing + [CloseReturn(0)];
  }

  /** In general: wherever Close can return, a Subscribe call that drew its token before registers a live
      destination on the closed router. */
  lemma {:induction false} CloseDoesNotBarSubscribe(acts: seq<Action>, c: nat, tok: Token, d: Dest)
    requires Legal(acts) && Enabled(Exec(acts), CloseReturn(c)) && tok in Exec(acts).inFlight
    ensures Legal(acts + [CloseReturn(c)]) && ClosedDown(Exec(acts + [CloseReturn(c)]))
    ensures Legal(acts + [CloseReturn(c)] + [Create(tok, d)])
    ensures HasLive(Exec(acts + [CloseReturn(c)] + [Create(tok, d)]), d)
  {
    CloseLeavesNothing(acts, c);
    Extend(acts, CloseReturn(c));
    ClosedDownStep(Exec(acts), CloseReturn(c));
    Extend(acts + [CloseReturn(c)], Create(tok, d));
  }
}
