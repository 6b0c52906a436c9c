/** What the readers publish on Errors, over whole runs. */
module RouterReports {
  import opened Prelude
  import opened RouterModel
  import opened RouterSafety

  /** The action is a Subscribe that replaces the dead state of reader k. */
  predicate TakesOver(s: State, a: Action, k: nat) { a.Create? && At(s, a.dest, k) }

  /** The action is an Unsubscribe or a Close that takes reader k's state out of the registry. */
  predicate TearsDown(s: State, a: Action, k: nat) {
    || (a.Unsubscribe? && At(s, a.dest, k) && s.readers[k].handlers <= {a.tok})
    || (a.CloseLock? && IsRegistered(s, k))
  }

  predicate ReplacedDuring(acts: seq<Action>, k: nat)
    requires Legal(acts)
  {
    acts != [] && var n := |acts| - 1; ReplacedDuring(acts[..n], k) || TakesOver(Exec(acts[..n]), acts[n], k)
  }

  predicate TornDownDuring(acts: seq<Action>, k: nat)
    requires Legal(acts)
  {
    acts != [] && var n := |acts| - 1; TornDownDuring(acts[..n], k) || TearsDown(Exec(acts[..n]), acts[n], k)
  }

  lemma RemovalFrame(s: State, a: Action, k: nat)
    requires RegistryOk(s) && Enabled(s, a) && k < |s.readers|
    ensures TakesOver(s, a, k) ==> s.readers[k].removal.Registered? && NextReader(s, a, k).removal.Replaced?
    ensures TearsDown(s, a, k) ==>
      && s.readers[k].removal.Registered?
      && (NextReader(s, a, k).removal.LastHandlerLeft? || NextReader(s, a, k).removal.RouterClosed?)
    ensures !TakesOver(s, a, k) && !TearsDown(s, a, k) ==>
      NextReader(s, a, k).removal == s.readers[k].removal || NextReader(s, a, k).removal.ReaderExit?
    ensures NextReader(s, a, k).removal != s.readers[k].removal ==> s.readers[k].removal.Registered?
  {
    var r := s.readers[k];
    if a.Unsubscribe? && At(s, a.dest, k) {
      assert DropHandler(r, a.tok).handlers == r.handlers - {a.tok};
      assert r.handlers <= {a.tok} <==> r.handlers - {a.tok} == {};
    }
  }

  /** The way a reader left the registry tells which actions took it out. */
  lemma {:induction false} RemovalHistory(acts: seq<Action>, k: nat)
    requires Legal(acts)
    ensures ReplacedDuring(acts, k) <==> k < |Exec(acts).readers| && Exec(acts).readers[k].removal.Replaced?
    ensures TornDownDuring(acts, k) <==>
      && k < |Exec(acts).readers|
      && (Exec(acts).readers[k].removal.LastHandlerLeft? || Exec(acts).readers[k].removal.RouterClosed?)
  {
    if acts != [] {
      var n := |acts| - 1;
      RemovalHistory(acts[..n], k);
      InvAlways(acts[..n]);
      if k < |Exec(acts[..n]).readers| {
        RemovalFrame(Exec(acts[..n]), acts[n], k);
      }
    }
  }

  /** Each finished reader has published exactly: the broker error it read; else its closed
      subscription, unless its state was torn down or replaced first; else nothing. */
  lemma {:induction false} ExactReport(acts: seq<Action>, k: nat)
    requires Legal(acts) && k < |Exec(acts).readers| && Exec(acts).readers[k].phase.Finished?
    ensures var r := Exec(acts).readers[k];
      r.reports == match r.term
        case Some(cause) => [BrokerError(r.dest, cause)]
        case None =>
          if TornDownDuring(acts, k) || ReplacedDuring(acts, k) then [] else [SubscriptionClosed(r.dest)]
    ensures Count(acts, Publish(k)) == |Exec(acts).readers[k].reports| <= 1
  {
    InvAlways(acts);
    RemovalHistory(acts, k);
    CountUnsubs(acts, k);
  }

  /** A teardown the router performed is never reported as a closed subscription, at any point. */
  lemma {:induction false} OwnTeardownSilent(acts: seq<Action>, k: nat)
    requires Legal(acts) && k < |Exec(acts).readers| && TornDownDuring(acts, k)
    ensures SubscriptionClosed(Exec(acts).readers[k].dest) !in Exec(acts).readers[k].reports
  {
    InvAlways(acts);
    RemovalHistory(acts, k);
  }

  /** While a destination has a registered reader, a Subscribe for it creates a fresh subscription if and
      only if that reader has closed its done channel; before that it attaches, also after the reader has
      left its loop.  A replaced reader has closed its done channel and not yet taken the lock. */
  lemma {:induction false} ReplacementWindow(acts: seq<Action>, a: Action, k: nat)
    requires Legal(acts) && Enabled(Exec(acts), a) && (a.Attach? || a.Create?) && At(Exec(acts), a.dest, k)
    ensures a.Create? <==> MarkDone(k) in acts
    ensures a.Create? <==> TakesOver(Exec(acts), a, k)
    ensures a.Create? <==> Exec(acts).readers[k].phase.Marked?
    ensures a.Attach? && EndedLoop(acts, k) <==> Exec(acts).readers[k].phase.Stopping?
  {
    InvAlways(acts);
    LoopHistory(acts, k);
  }

  /** In the run, reader k left its loop, and until then the router had not torn its state down. */
  predicate StoppedFirst(acts: seq<Action>, k: nat)
    requires Legal(acts)
  {
    acts != [] && var n := |acts| - 1;
    StoppedFirst(acts[..n], k) || (EndsLoop(Exec(acts[..n]), acts[n], k) && !TornDownDuring(acts[..n], k))
  }

  /** A reader that left its loop without a teardown before or after did so first. */
  lemma {:induction false} StoppedOrTornDown(acts: seq<Action>, k: nat)
    requires Legal(acts)
    ensures EndedLoop(acts, k) ==> StoppedFirst(acts, k) || TornDownDuring(acts, k)
    ensures StoppedFirst(acts, k) ==> EndedLoop(acts, k)
  {
    if acts != [] {
      StoppedOrTornDown(acts[..|acts|-1], k);
    }
  }

  /** The contract of the package: a reader that stops for any reason other than a teardown the router
      performed publishes the cause. */
  predicate FailureObservable(acts: seq<Action>, k: nat)
    requires Legal(acts) && k < |Exec(acts).readers|
  {
    StoppedFirst(acts, k) ==> Exec(acts).readers[k].reports != []
  }

  /** It holds of a finished reader except when it stopped first, its channel had closed without an error, and
      before it took the lock its state left the registry: replaced by a Subscribe, or taken out by an
      Unsubscribe or a Close that came after the stop.  A reader whose state was never taken out, or that
      read an error, always published. */
  lemma {:induction false} FailureObservableExactly(acts: seq<Action>, k: nat)
    requires Legal(acts) && k < |Exec(acts).readers| && Exec(acts).readers[k].phase.Finished?
    ensures FailureObservable(acts, k) <==>
      !(StoppedFirst(acts, k) && Exec(acts).readers[k].term.None?
        && (ReplacedDuring(acts, k) || TornDownDuring(acts, k)))
    ensures Exec(acts).readers[k].reports != [] <==>
      !(Exec(acts).readers[k].term.None? && (ReplacedDuring(acts, k) || TornDownDuring(acts, k)))
    ensures StoppedFirst(acts, k) || TornDownDuring(acts, k)
  {
    ExactReport(acts, k);
    LoopHistory(acts, k);
    StoppedOrTornDown(acts, k);
  }

  /** The first half of the runs below: the peer closes the channel and the reader leaves its loop. */
  lemma PeerCloses(d: Dest) returns (acts: seq<Action>)
    ensures Legal(acts)
    ensures Exec(acts) == State(map[d := 0], [FreshReader(d, 1).(closed := true, phase := Stopping)], 1, {}, [], 1)
  {
    assert Legal([]);
    acts := ThenDraw([]);
    CreateStepIs(Exec(acts), 1, d);
    Extend(acts, Create(1, d));
    acts := acts + [Create(1, d)];
    acts := ThenLocal(acts, CloseChan(0));
    acts := ThenLocal(acts, ReceiveEnd(0));
  }

  lemma {:induction false} ThenLocal(acts: seq<Action>, a: Action) returns (more: seq<Action>)
    requires Legal(acts) && Local(a) && Enabled(Exec(acts), a)
    ensures more == acts + [a] && Legal(more)
    ensures var s := Exec(acts);
      Exec(more) == s.(readers := s.readers[a.k := LocalStep(s.readers[a.k], a)], wg := NextWg(s, a))
  {
    more := acts + [a];
    Extend(acts, a);
    LocalStepIs(Exec(acts), a);
  }

  lemma {:induction false} ThenDraw(acts: seq<Action>) returns (more: seq<Action>)
    requires Legal(acts)
    ensures more == acts + [DrawToken] && Legal(more)
    ensures var s := Exec(acts);
      Exec(more) == s.(nextToken := s.nextToken + 1, inFlight := s.inFlight + {s.nextToken + 1})
  {
    more := acts + [DrawToken];
    DrawTokenStepIs(Exec(acts));
    Extend(acts, DrawToken);
  }

  /** Reader 0, replaced and without an error to report, takes the lock. */
  lemma {:induction false} ThenSilentExit(acts: seq<Action>, d: Dest) returns (more: seq<Action>)
    requires Legal(acts)
    requires var s := Exec(acts);
      && s.dests == map[d := 1] && |s.readers| == 2 && s.readers[0].phase.Marked?
      && s.readers[0].removal.Replaced? && s.readers[0].term.None?
    ensures more == acts + [Deregister(0)] && Legal(more)
    ensures Exec(more).dests == Exec(acts).dests
    ensures Exec(more).readers == [Exec(acts).readers[0].(phase := Finished), Exec(acts).readers[1]]
  {
    more := acts + [Deregister(0)];
    DeregisterStepIs(Exec(acts), 0);
    Extend(acts, Deregister(0));
  }

  lemma {:induction false} ReplacedNotTornDown(acts: seq<Action>, k: nat)
    requires Legal(acts) && k < |Exec(acts).readers| && Exec(acts).readers[k].removal.Replaced?
    ensures !TornDownDuring(acts, k)
  {
    RemovalHistory(acts, k);
  }

  lemma {:induction false} ThenCreate(acts: seq<Action>, tok: Token, d: Dest) returns (more: seq<Action>)
    requires Legal(acts) && Enabled(Exec(acts), Create(tok, d)) && At(Exec(acts), d, 0) && |Exec(acts).readers| == 1
    ensures more == acts + [Create(tok, d)] && Legal(more)
    ensures Exec(more).dests == Exec(acts).dests[d := 1]
    ensures Exec(more).readers == [Exec(acts).readers[0].(removal := Replaced), FreshReader(d, tok)]
  {
    more := acts + [Create(tok, d)];
    Extend(acts, Create(tok, d));
    CreateStepIs(Exec(acts), tok, d);
  }

  /** The second half of the exception: a dead reader's state is replaced before it deregisters. */
  lemma {:induction false} Replace(acts: seq<Action>, d: Dest) returns (more: seq<Action>)
    requires Legal(acts)
    requires var s := Exec(acts);
      && s.dests == map[d := 0] && |s.readers| == 1 && s.readers[0].dest == d && s.readers[0].phase.Marked?
      && s.readers[0].term.None? && s.readers[0].reports == []
    ensures Legal(more) && acts < more
    ensures var s, s' := Exec(acts), Exec(more);
      && s'.dests == map[d := 1]
      && s'.readers == [s.readers[0].(removal := Replaced, phase := Finished), FreshReader(d, s.nextToken + 1)]
    ensures !TornDownDuring(more, 0)
  {
    var tok := Exec(acts).nextToken + 1;
    more := ThenDraw(acts);
    more := ThenCreate(more, tok, d);
    more := ThenSilentExit(more, d);
    ReplacedNotTornDown(more, 0);
  }

  lemma {:induction false} SilentStop(acts: seq<Action>, k: nat)
    requires Legal(acts) && k < |Exec(acts).readers| && Exec(acts).readers[k].phase.Finished?
    requires Exec(acts).readers[k].reports == [] && (StoppedFirst(acts, k) || !TornDownDuring(acts, k))
    ensures StoppedFirst(acts, k) && !FailureObservable(acts, k)
  {
    FailureObservableExactly(acts, k);
  }

  lemma ReplacedRun(d: Dest) returns (acts: seq<Action>)
    ensures Legal(acts) && !TornDownDuring(acts, 0)
    ensures Exec(acts).readers == [
      FreshReader(d, 1).(closed := true, removal := Replaced, phase := Finished), FreshReader(d, 2)]
  {
    acts := PeerCloses(d);
    acts := ThenLocal(acts, MarkDone(0));
    acts := Replace(acts, d);
  }

  lemma NothingReported(d: Dest, t: Token)
    ensures FreshReader(d, t).reports == []
  {
  }

  /** One run of the exception, for any destination: a Subscribe takes the lock before the dead
      reader does, and the failure is published nowhere. */
  lemma UnreportedClose(d: Dest) returns (acts: seq<Action>)
    ensures Legal(acts) && |Exec(acts).readers| == 2 && Exec(acts).readers[0].phase.Finished?
    ensures !TornDownDuring(acts, 0) && !FailureObservable(acts, 0)
    ensures forall k :: 0 <= k < 2 ==> Exec(acts).readers[k].reports == []
  {
    acts := ReplacedRun(d);
    NothingReported(d, 1);
    NothingReported(d, 2);
    SilentStop(acts, 0);
  }

  /** A stop that came first stays so. */
  lemma {:induction false} StaysStoppedFirst(acts: seq<Action>, a: Action, k: nat)
    requires Legal(acts) && Enabled(Exec(acts), a) && StoppedFirst(acts, k)
    ensures Legal(acts + [a]) && StoppedFirst(acts + [a], k)
  {
    Extend(acts, a);
    assert (acts + [a])[..|acts|] == acts;
  }

  lemma {:induction false} StillRegistered(acts: seq<Action>, k: nat)
    requires Legal(acts) && k < |Exec(acts).readers|
    requires Exec(acts).readers[k].LeftLoop() && Exec(acts).readers[k].removal.Registered?
    ensures StoppedFirst(acts, k)
  {
    LoopHistory(acts, k);
    RemovalHistory(acts, k);
    StoppedOrTornDown(acts, k);
  }

  /** The dead reader 0 has its last handler removed, and then takes the lock. */
  lemma {:induction false} ThenLateTeardown(acts: seq<Action>, d: Dest) returns (more: seq<Action>)
    requires Legal(acts) && Exec(acts).dests == map[d := 0]
    requires Exec(acts).readers == [FreshReader(d, 1).(closed := true, phase := Marked)]
    ensures more == acts + [Unsubscribe(d, 1)] + [Deregister(0)] && Legal(more)
    ensures StoppedFirst(more, 0) && |Exec(more).readers| == 1
    ensures Exec(more).readers[0].phase.Finished? && Exec(more).readers[0].reports == []
    ensures Exec(more).readers[0].owed + Exec(more).readers[0].unsubs == 0
  {
    StillRegistered(acts, 0);
    var gone := acts + [Unsubscribe(d, 1)];
    StaysStoppedFirst(acts, Unsubscribe(d, 1), 0);
    Extend(acts, Unsubscribe(d, 1));
    LastHandlerOfDead(d, Exec(acts));
    more := gone + [Deregister(0)];
    StaysStoppedFirst(gone, Deregister(0), 0);
    DeregisterStepIs(Exec(gone), 0);
    Extend(gone, Deregister(0));
  }

  lemma LastHandlerOfDead(d: Dest, s: State)
    requires s.dests == map[d := 0] && s.readers == [FreshReader(d, 1).(closed := true, phase := Marked)]
    ensures var s' := Step(s, Unsubscribe(d, 1));
      && d !in s'.dests && |s'.readers| == 1
      && s'.readers[0].phase.Marked? && s'.readers[0].term.None? && s'.readers[0].dest == d
      && s'.readers[0].owed == s'.readers[0].unsubs == 0 && s'.readers[0].reports == []
  {
    var r := s.readers[0];
    assert At(s, d, 0) && DropHandler(r, 1).handlers == {};
  }

  /** The other run of the exception: the reader has stopped and closed its done channel, and its last handler
      is unsubscribed before it takes the lock.  The router calls nothing at the transport, nothing is
      replaced, and nothing is published. */
  lemma LateTeardown(d: Dest) returns (acts: seq<Action>)
    ensures Legal(acts) && |Exec(acts).readers| == 1 && Exec(acts).readers[0].phase.Finished?
    ensures StoppedFirst(acts, 0) && !ReplacedDuring(acts, 0) && !FailureObservable(acts, 0)
    ensures Exec(acts).readers[0].owed + Exec(acts).readers[0].unsubs == 0
  {
    acts := PeerCloses(d);
    acts := ThenLocal(acts, MarkDone(0));
    acts := ThenLateTeardown(acts, d);
    SilentStop(acts, 0);
    ExactReport(acts, 0);
    RemovalHistory(acts, 0);
    NotReplaced(acts);
  }

  /** With a single reader nothing was replaced. */
  lemma {:induction false} NotReplaced(acts: seq<Action>)
    requires Legal(acts) && |Exec(acts).readers| <= 1
    ensures !ReplacedDuring(acts, 0)
  {
    if acts != [] {
      var n := |acts| - 1;
      assert |Exec(acts[..n]).readers| <= |Exec(acts).readers|;
      NotReplaced(acts[..n]);
    }
  }
}
