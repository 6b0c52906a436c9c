/** Subscribe calls that attach to a reader which has left its loop and not yet closed its done channel.
    The package promises no token for a reader that has already exited; these are the exceptions. */
module RouterStopping {
  import opened Prelude
  import opened RouterModel
  import opened RouterSafety
  import opened RouterReports
  import opened RouterDispatch

  /** Token t was registered with reader k after its last snapshot. */
  predicate TooLate(r: Reader, t: Token) { r.LeftLoop() && t in r.from && r.from[t] == |r.seen| }

  lemma LocalTooLate(r: Reader, a: Action, t: Token)
    requires TooLate(r, t) && Local(a) && Ready(r, a)
    ensures TooLate(LocalStep(r, a), t)
  {
  }

  lemma TooLateStep(s: State, a: Action, k: nat, t: Token)
    requires Inv(s) && Enabled(s, a) && k < |s.readers| && TooLate(s.readers[k], t)
    ensures TooLate(NextReader(s, a, k), t)
  {
    if Local(a) {
      if a.k == k { LocalTooLate(s.readers[k], a, t); }
    } else if a.Attach? {
      assert Owns(s, k, t);
    }
  }

  /** An Attach to a reader that has left its loop registers its token too late, for good. */
  lemma {:induction false} StaysTooLate(acts: seq<Action>, n: nat, k: nat)
    requires Legal(acts) && n < |acts| && Legal(acts[..n])
    requires acts[n].Attach? && At(Exec(acts[..n]), acts[n].dest, k) && EndedLoop(acts[..n], k)
    ensures k < |Exec(acts).readers| && TooLate(Exec(acts).readers[k], acts[n].tok)
    decreases |acts|
  {
    var m := |acts| - 1;
    if n == m {
      LoopHistory(acts[..n], k);
    } else {
      assert acts[..m][..n] == acts[..n];
      StaysTooLate(acts[..m], n, k);
      InvAlways(acts[..m]);
      TooLateStep(Exec(acts[..m]), acts[m], k, acts[n].tok);
    }
  }

  /** The token of such a Subscribe is never called, by this reader or any other, for the rest of any run. */
  lemma {:induction false} LateTokenNeverCalled(acts: seq<Action>, n: nat, k: nat, j: nat)
    requires Legal(acts) && n < |acts| && Legal(acts[..n])
    requires acts[n].Attach? && At(Exec(acts[..n]), acts[n].dest, k) && EndedLoop(acts[..n], k)
    requires j < |Exec(acts).readers|
    ensures Delivered(Exec(acts).readers[j].calls, acts[n].tok) == []
  {
    StaysTooLate(acts, n, k);
    DispatchWindow(acts, k, acts[n].tok);
  }

  /** What its caller can still learn: once the reader has exited, the cause has been published as for
      every other token of the reader.  It is silent exactly when the channel closed without an error
      and the state was torn down, by this caller among others, or replaced in the window. */
  lemma {:induction false} LateTokenFate(acts: seq<Action>, n: nat, k: nat)
    requires Legal(acts) && n < |acts| && Legal(acts[..n])
    requires acts[n].Attach? && At(Exec(acts[..n]), acts[n].dest, k) && EndedLoop(acts[..n], k)
    requires k < |Exec(acts).readers| && Exec(acts).readers[k].phase.Finished?
    ensures var r := Exec(acts).readers[k];
      && (r.term.Some? ==> r.reports == [BrokerError(acts[n].dest, r.term.value)])
      && (r.term.None? && !TornDownDuring(acts, k) && !ReplacedDuring(acts, k) ==>
            r.reports == [SubscriptionClosed(acts[n].dest)])
      && (r.reports == [] <==> r.term.None? && (TornDownDuring(acts, k) || ReplacedDuring(acts, k)))
  {
    ExactReport(acts, k);
    InvAlways(acts[..n]);
    SameDest(acts, n, k);
  }

  lemma {:induction false} SameDest(acts: seq<Action>, n: nat, k: nat)
    requires Legal(acts) && n <= |acts| && Legal(acts[..n]) && k < |Exec(acts[..n]).readers|
    ensures k < |Exec(acts).readers| && Exec(acts).readers[k].dest == Exec(acts[..n]).readers[k].dest
    decreases |acts|
  {
    if n == |acts| {
      assert acts[..n] == acts;
    } else {
      var m := |acts| - 1;
      assert acts[..m][..n] == acts[..n];
      SameDest(acts[..m], n, k);
      InvAlways(acts[..m]);
      RegistryFrame(Exec(acts[..m]), acts[m], k);
    }
  }

  /** The run of a late token, for any destination: the peer closes the channel, the reader leaves its
      loop, and a Subscribe attaches before the reader closes its done channel. */
  lemma LateAttach(d: Dest) returns (acts: seq<Action>)
    ensures Legal(acts) && Legal(acts + [Attach(2, d)])
    ensures At(Exec(acts), d, 0) && EndedLoop(acts, 0)
    ensures var s := Exec(acts + [Attach(2, d)]);
      && s.dests == map[d := 0] && s.nextToken == 2
      && s.readers == [AddHandler(FreshReader(d, 1).(closed := true, phase := Stopping), 2)]
  {
    acts := PeerCloses(d);
    acts := ThenDraw(acts);
    Extend(acts, Attach(2, d));
    LoopHistory(acts, 0);
    var s := Exec(acts);
    assert Step(s, Attach(2, d)).readers == s.readers[0 := AddHandler(s.readers[0], 2)];
  }

  lemma LateMarked(d: Dest) returns (acts: seq<Action>)
    ensures Legal(acts) && |acts| >= 2 && acts[|acts| - 2] == Attach(2, d)
    ensures Exec(acts).dests == map[d := 0] && Exec(acts).nextToken == 2
    ensures Exec(acts).readers == [AddHandler(FreshReader(d, 1).(closed := true, phase := Marked), 2)]
  {
    acts := LateAttach(d);
    acts := ThenLocal(acts + [Attach(2, d)], MarkDone(0));
  }

  /** The reader of the late token at the end of the run below. */
  function Exited(d: Dest): (r: Reader) {
    AddHandler(FreshReader(d, 1).(closed := true, removal := Replaced, phase := Finished), 2)
  }

  lemma ExitedSilently(d: Dest, s: State)
    requires s.readers == [Exited(d), FreshReader(d, 3)]
    ensures s.readers[0].phase.Finished? && 2 in s.readers[0].handlers
    ensures |s.readers[0].reports| == |s.readers[1].reports| == 0
    ensures |s.readers[0].calls| == |s.readers[1].calls| == 0
  {
  }

  lemma SilentRun(d: Dest) returns (acts: seq<Action>, n: nat)
    ensures Legal(acts) && n < |acts| && acts[n] == Attach(2, d) && !TornDownDuring(acts, 0)
    ensures Exec(acts).dests == map[d := 1] && Exec(acts).readers == [Exited(d), FreshReader(d, 3)]
  {
    var before := LateMarked(d);
    n := |before| - 2;
    acts := Replace(before, d);
    assert acts[n] == before[n];
  }

  /** Both promises fail together: the token was returned, its reader has exited, nobody was ever called, and
      nothing was published although the router tore nothing down. */
  lemma SilentToken(d: Dest) returns (acts: seq<Action>, n: nat)
    ensures Legal(acts) && n < |acts| && acts[n] == Attach(2, d) && !TornDownDuring(acts, 0)
    ensures |Exec(acts).readers| == 2 && Exec(acts).dests == map[d := 1]
    ensures Exec(acts).readers[0].phase.Finished? && 2 in Exec(acts).readers[0].handlers
    ensures |Exec(acts).readers[0].reports| == |Exec(acts).readers[1].reports| == 0
    ensures |Exec(acts).readers[0].calls| == |Exec(acts).readers[1].calls| == 0
  {
    acts, n := SilentRun(d);
    ExitedSilently(d, Exec(acts));
  }
}
