/** The registry's health contract and the token model, in every interleaving. */
module RouterSafety {
  import opened Prelude
  import opened RouterModel

  /** What reader `r` has published or is about to publish, given how it left the registry. */
  function Due(r: Reader): (o: Option<Report>) { ReportFor(r, r.removal.ReaderExit?) }

  predicate ReaderOk(r: Reader) {
    && (r.removal.Registered? ==> !r.Deregistered())
    && (r.removal.ReaderExit? ==> r.Deregistered())
    && (r.removal.Replaced? ==> r.Dead())
    && r.owed + r.unsubs <= 1
    && (r.owed + r.unsubs == 1 ==> r.removal.LastHandlerLeft? || r.removal.RouterClosed?)
    && (r.removal.LastHandlerLeft? || r.removal.RouterClosed? ==> r.owed + r.unsubs == 1 || r.Dead())
    && (r.removal.LastHandlerLeft? ==> r.handlers == {})
    && r.upto.Keys <= r.from.Keys
    && r.handlers == r.from.Keys - r.upto.Keys
    && (r.phase.Receiving? || r.phase.Holding? || r.phase.Dispatching? ==> r.term.None?)
    && (r.phase.Stopping? || r.Dead() ==> r.term.Some? || (r.closed && r.queue == []))
    && (!r.phase.Finished? ==> r.reports == [])
    && (r.phase.Publishing? ==> Due(r) == Some(r.phase.report))
    && (r.phase.Finished? ==> r.reports == match Due(r) case Some(e) => [e] case None => [])
  }

  /** The registry holds exactly the readers not yet removed from it, each with a handler. */
  ghost predicate RegistryOk(s: State) {
    && (forall d :: d in s.dests ==>
          && s.dests[d] < |s.readers| && s.readers[s.dests[d]].dest == d
          && s.readers[s.dests[d]].removal.Registered? && s.readers[s.dests[d]].handlers != {})
    && (forall k :: 0 <= k < |s.readers| && s.readers[k].removal.Registered? ==> IsRegistered(s, k))
  }

  /** Token t was registered with reader k. */
  predicate Owns(s: State, k: nat, t: Token) { k < |s.readers| && t in s.readers[k].from }

  /** A token is drawn once and used for at most one registration. */
  ghost predicate TokensOk(s: State) {
    && (forall t :: t in s.inFlight ==> t <= s.nextToken)
    && (forall k: nat, t: Token :: Owns(s, k, t) ==> t <= s.nextToken && t !in s.inFlight)
    && (forall j: nat, k: nat, t: Token :: Owns(s, j, t) && Owns(s, k, t) ==> j == k)
  }

  ghost predicate Inv(s: State) {
    && (forall k :: 0 <= k < |s.readers| ==> ReaderOk(s.readers[k]))
    && RegistryOk(s)
    && TokensOk(s)
  }

  lemma LocalStepOk(r: Reader, a: Action)
    requires ReaderOk(r) && Local(a) && Ready(r, a)
    ensures ReaderOk(LocalStep(r, a))
  {
  }

  lemma RemoveTokenOk(r: Reader, tok: Token)
    requires ReaderOk(r) && r.removal.Registered?
    ensures ReaderOk(RemoveToken(r, tok))
    ensures DropHandler(r, tok).handlers == r.handlers - {tok}
  {
    var r1 := DropHandler(r, tok);
    assert r1.handlers == r.handlers - {tok} == r1.from.Keys - r1.upto.Keys;
  }

  lemma ReaderOkStep(s: State, a: Action, k: nat)
    requires Inv(s) && Enabled(s, a) && k < |s.readers|
    ensures ReaderOk(NextReader(s, a, k))
  {
    var r := s.readers[k];
    match a
    case DrawToken =>
    case SubscribeFails(_, _) =>
    case CloseReturn(_) =>
    case Attach(tok, d) =>
      if At(s, d, k) {
        assert !Owns(s, k, tok);
        assert AddHandler(r, tok).handlers == AddHandler(r, tok).from.Keys - r.upto.Keys;
      }
    case Create(_, d) =>
    case Unsubscribe(d, tok) => if At(s, d, k) { RemoveTokenOk(r, tok); }
    case CloseLock =>
    case Deregister(j) =>
    case _ => if a.k == k { LocalStepOk(r, a); }
  }

  /** A reader keeps its place in the registry unless the action takes it away, and keeps its
      last handler while it is there. */
  lemma RegistryFrame(s: State, a: Action, k: nat)
    requires RegistryOk(s) && Enabled(s, a) && k < |s.readers|
    ensures NextReader(s, a, k).dest == s.readers[k].dest
    ensures NextReader(s, a, k).removal.Registered? <==>
      s.readers[k].dest in NextDests(s, a) && NextDests(s, a)[s.readers[k].dest] == k
    ensures NextReader(s, a, k).removal.Registered? ==> NextReader(s, a, k).handlers != {}
  {
    var r := s.readers[k];
    assert r.removal.Registered? <==> IsRegistered(s, k);
    if a.Unsubscribe? && At(s, a.dest, k) {
      assert RemoveToken(r, a.tok).removal.Registered? <==> DropHandler(r, a.tok).handlers != {};
    }
  }

  lemma DestsFrame(s: State, a: Action, d: Dest)
    requires RegistryOk(s) && Enabled(s, a) && d in NextDests(s, a)
    ensures (d in s.dests && NextDests(s, a)[d] == s.dests[d])
         || (a.Create? && d == a.dest && NextDests(s, a)[d] == |s.readers|)
  {
  }

  /** RegistryOk follows from the frames above, whatever the action was. */
  lemma RegistryFromFrames(s: State, s': State, created: Option<Dest>)
    requires RegistryOk(s)
    requires |s'.readers| == |s.readers| + (if created.Some? then 1 else 0)
    requires forall k :: 0 <= k < |s.readers| ==>
      && s'.readers[k].dest == s.readers[k].dest
      && (s'.readers[k].removal.Registered? <==> s.readers[k].dest in s'.dests && s'.dests[s.readers[k].dest] == k)
      && (s'.readers[k].removal.Registered? ==> s'.readers[k].handlers != {})
    requires created.Some? ==>
      && s'.readers[|s.readers|].dest == created.value && s'.readers[|s.readers|].removal.Registered?
      && s'.readers[|s.readers|].handlers != {}
      && created.value in s'.dests && s'.dests[created.value] == |s.readers|
    requires forall d :: d in s'.dests ==>
      (d in s.dests && s'.dests[d] == s.dests[d]) || (created == Some(d) && s'.dests[d] == |s.readers|)
    ensures RegistryOk(s')
  {
  }

  lemma RegistryStep(s: State, a: Action)
    requires RegistryOk(s) && Enabled(s, a)
    ensures RegistryOk(Step(s, a))
  {
    forall k | 0 <= k < |s.readers| {
      RegistryFrame(s, a, k);
    }
    forall d | d in NextDests(s, a) {
      DestsFrame(s, a, d);
    }
    RegistryFromFrames(s, Step(s, a), if a.Create? then Some(a.dest) else None);
  }

  lemma LocalTokens(r: Reader, a: Action)
    requires Local(a) && Ready(r, a)
    ensures LocalStep(r, a).from == r.from && LocalStep(r, a).handlers == r.handlers
  {
  }

  /** Only Attach and Create register a token, and only one drawn and not used before. */
  lemma TokensFrame(s: State, a: Action, k: nat)
    requires Enabled(s, a) && k < |s.readers|
    ensures if a.Attach? && At(s, a.dest, k)
      then NextReader(s, a, k).from.Keys == s.readers[k].from.Keys + {a.tok}
      else NextReader(s, a, k).from == s.readers[k].from
  {
    var r := s.readers[k];
    if Local(a) {
      if a.k == k { LocalTokens(r, a); }
    } else if a.Attach? {
      assert AddHandler(r, a.tok).from.Keys == r.from.Keys + {a.tok};
    } else if a.Unsubscribe? {
      assert RemoveToken(r, a.tok).from == r.from;
    }
  }

  /** TokensOk follows when one token at most is used, by one reader, and it was in flight. */
  lemma TokensFromFrames(s: State, s': State, used: Option<Token>, at: nat)
    requires TokensOk(s) && s.nextToken <= s'.nextToken
    requires used.Some? ==> used.value in s.inFlight
    requires forall t :: t in s'.inFlight ==>
      used != Some(t) && (t in s.inFlight || t == s.nextToken + 1 == s'.nextToken)
    requires forall k: nat, t: Token :: Owns(s', k, t) ==> Owns(s, k, t) || (used == Some(t) && k == at)
    ensures TokensOk(s')
  {
  }

  lemma TokensStep(s: State, a: Action)
    requires TokensOk(s) && Enabled(s, a)
    ensures TokensOk(Step(s, a))
  {
    var s' := Step(s, a);
    var used := if a.Attach? || a.Create? then Some(a.tok) else None;
    var at := if a.Attach? then s.dests[a.dest] else |s.readers|;
    forall k: nat, t: Token | Owns(s', k, t)
      ensures Owns(s, k, t) || (used == Some(t) && k == at)
    {
      if k < |s.readers| {
        TokensFrame(s, a, k);
        assert t in s'.readers[k].from.Keys;
      }
    }
    TokensFromFrames(s, s', used, at);
  }

  lemma InvStep(s: State, a: Action)
    requires Inv(s) && Enabled(s, a)
    ensures Inv(Step(s, a))
  {
    var s' := Step(s, a);
    forall k | 0 <= k < |s'.readers|
      ensures ReaderOk(s'.readers[k])
    {
      if k < |s.readers| {
        ReaderOkStep(s, a, k);
        assert s'.readers[k] == NextReader(s, a, k);
      } else {
        assert s'.readers[k] == FreshReader(a.dest, a.tok);
      }
    }
    RegistryStep(s, a);
    TokensStep(s, a);
  }

  lemma {:induction false} InvAlways(acts: seq<Action>)
    requires Legal(acts)
    ensures Inv(Exec(acts))
  {
    if acts != [] {
      var n := |acts| - 1;
      InvAlways(acts[..n]);
      InvStep(Exec(acts[..n]), acts[n]);
    }
  }

  /** The action by which reader k leaves its loop: it reads an error, or the end of its closed channel. */
  predicate EndsLoop(s: State, a: Action, k: nat) {
    || a == ReceiveEnd(k)
    || (a == Receive(k) && k < |s.readers| && s.readers[k].queue != [] && s.readers[k].queue[0].Fault?)
  }

  /** In the run, reader k has read an error or the end of its channel. */
  predicate EndedLoop(acts: seq<Action>, k: nat)
    requires Legal(acts)
  {
    acts != [] && var n := |acts| - 1; EndedLoop(acts[..n], k) || EndsLoop(Exec(acts[..n]), acts[n], k)
  }

  lemma LocalLoop(r: Reader, a: Action)
    requires Local(a) && Ready(r, a)
    ensures LocalStep(r, a).LeftLoop() <==>
      r.LeftLoop() || a.ReceiveEnd? || (a.Receive? && r.queue[0].Fault?)
    ensures LocalStep(r, a).Dead() <==> r.Dead() || a.MarkDone?
  {
  }

  lemma LoopFrame(s: State, a: Action, k: nat)
    requires Enabled(s, a) && k < |s.readers|
    ensures NextReader(s, a, k).LeftLoop() <==> s.readers[k].LeftLoop() || EndsLoop(s, a, k)
    ensures NextReader(s, a, k).Dead() <==> s.readers[k].Dead() || a == MarkDone(k)
  {
    if Local(a) && a.k == k {
      LocalLoop(s.readers[k], a);
    }
  }

  /** Where a reader stands tells what it has done in the run: leave its loop, close its done channel. */
  lemma {:induction false} LoopHistory(acts: seq<Action>, k: nat)
    requires Legal(acts)
    ensures EndedLoop(acts, k) <==> k < |Exec(acts).readers| && Exec(acts).readers[k].LeftLoop()
    ensures MarkDone(k) in acts <==> k < |Exec(acts).readers| && Exec(acts).readers[k].Dead()
  {
    if acts != [] {
      var n := |acts| - 1;
      LoopHistory(acts[..n], k);
      assert acts == acts[..n] + [acts[n]];
      if k < |Exec(acts[..n]).readers| {
        LoopFrame(Exec(acts[..n]), acts[n], k);
      }
    }
  }

  /** Every registered destination has a handler and a reader that has not deregistered.  That reader
      drains its subscription until it has read an error or the end of the closed channel; from then on
      it has nothing left to read but may still be registered, one or two steps from deregistering. */
  lemma {:induction false} HealthContract(acts: seq<Action>, d: Dest)
    requires Legal(acts) && d in Exec(acts).dests
    ensures var s := Exec(acts); var k := s.dests[d];
      && k < |s.readers| && s.readers[k].dest == d
      && s.readers[k].handlers != {} && !s.readers[k].Deregistered()
      && (s.readers[k].LeftLoop() <==> EndedLoop(acts, k))
      && (EndedLoop(acts, k) ==>
            && (s.readers[k].term.Some? || (s.readers[k].closed && s.readers[k].queue == []))
            && Enabled(s, if MarkDone(k) in acts then Deregister(k) else MarkDone(k)))
  {
    InvAlways(acts);
    LoopHistory(acts, Exec(acts).dests[d]);
  }

  /** A Subscribe that returns a token has bound it to the registered reader of its destination and to no
      other.  That reader has already left its loop if and only if it was an Attach between the reader's
      last receive and its close(done); its done channel is never closed. */
  lemma {:induction false} TokenBoundToRegisteredReader(acts: seq<Action>, a: Action)
    requires Legal(acts) && Enabled(Exec(acts), a) && (a.Attach? || a.Create?)
    ensures var s := Step(Exec(acts), a);
      && a.dest in s.dests && s.dests[a.dest] < |s.readers|
      && a.tok in s.readers[s.dests[a.dest]].handlers
      && !s.readers[s.dests[a.dest]].Dead()
      && (s.readers[s.dests[a.dest]].LeftLoop() <==> a.Attach? && EndedLoop(acts, s.dests[a.dest]))
      && (forall k: nat :: Owns(s, k, a.tok) ==> k == s.dests[a.dest])
  {
    var s := Exec(acts);
    InvAlways(acts);
    InvStep(s, a);
    LoopHistory(acts, Step(s, a).dests[a.dest]);
    assert Owns(Step(s, a), Step(s, a).dests[a.dest], a.tok);
  }

  /** Once out of the registry a reader never returns to it. */
  lemma {:induction false} NeverReregistered(acts: seq<Action>, n: nat, k: nat)
    requires Legal(acts) && n <= |acts| && Legal(acts[..n])
    requires k < |Exec(acts[..n]).readers| && !IsRegistered(Exec(acts[..n]), k)
    ensures k < |Exec(acts).readers| && !IsRegistered(Exec(acts), k)
    decreases |acts|
  {
    if n == |acts| {
      assert acts[..n] == acts;
    } else {
      var m := |acts| - 1;
      assert acts[..m][..n] == acts[..n];
      NeverReregistered(acts[..m], n, k);
      InvAlways(acts[..m]);
      RegistryFrame(Exec(acts[..m]), acts[m], k);
    }
  }

  /** A deregistered reader is not in the registry, so with NeverReregistered it stays out. */
  lemma {:induction false} DeregisteredIsOut(acts: seq<Action>, k: nat)
    requires Legal(acts) && k < |Exec(acts).readers| && Exec(acts).readers[k].Deregistered()
    ensures !IsRegistered(Exec(acts), k)
  {
    InvAlways(acts);
  }

  /** A stale, unknown or misdirected token changes nothing. */
  lemma {:induction false} StaleTokenNoOp(acts: seq<Action>, d: Dest, tok: Token)
    requires Legal(acts)
    requires forall k: nat :: At(Exec(acts), d, k) ==> tok !in Exec(acts).readers[k].handlers
    ensures Step(Exec(acts), Unsubscribe(d, tok)) == Exec(acts)
  {
    var s := Exec(acts);
    InvAlways(acts);
    assert d in s.dests ==> At(s, d, s.dests[d]);
    assert Step(s, Unsubscribe(d, tok)).readers == s.readers;
  }

  lemma RemoveTokenIs(r: Reader, tok: Token)
    requires ReaderOk(r) && r.removal.Registered? && tok in r.handlers
    ensures DropHandler(r, tok).handlers == RemoveToken(r, tok).handlers == r.handlers - {tok}
    ensures r.handlers == {tok} <==> r.handlers - {tok} == {}
    ensures RemoveToken(r, tok).owed == (if r.handlers == {tok} && !r.Dead() then 1 else r.owed)
  {
  }

  /** Unsubscribe removes the one registration its token was issued for: no other reader changes,
      no other token goes, and the destination goes exactly when that was its last handler. */
  lemma {:induction false} UnsubscribeRemovesOne(acts: seq<Action>, d: Dest, tok: Token, k: nat)
    requires Legal(acts) && At(Exec(acts), d, k) && tok in Exec(acts).readers[k].handlers
    ensures var s, s' := Exec(acts), Step(Exec(acts), Unsubscribe(d, tok));
      && |s'.readers| == |s.readers|
      && (forall j :: 0 <= j < |s.readers| && j != k ==> s'.readers[j] == s.readers[j])
      && s'.readers[k].handlers == s.readers[k].handlers - {tok}
      && (forall j: nat :: Owns(s, j, tok) ==> j == k)
      && s'.dests == (if s.readers[k].handlers == {tok} then s.dests - {d} else s.dests)
      && s'.readers[k].owed
         == (if s.readers[k].handlers == {tok} && !s.readers[k].Dead() then 1 else s.readers[k].owed)
  {
    var s := Exec(acts);
    InvAlways(acts);
    RemoveTokenIs(s.readers[k], tok);
    assert Owns(s, k, tok);
  }

  lemma HandlerStays(s: State, a: Action, k: nat, t: Token)
    requires Inv(s) && Enabled(s, a) && k < |s.readers|
    requires t in s.readers[k].handlers && a != Unsubscribe(s.readers[k].dest, t)
    ensures t in NextReader(s, a, k).handlers
  {
    var r := s.readers[k];
    if Local(a) {
      if a.k == k { LocalTokens(r, a); }
    } else if a.Unsubscribe? && At(s, a.dest, k) {
      RemoveTokenOk(r, a.tok);
    }
  }

  /** A registration ends only by an Unsubscribe with its own token and destination. */
  lemma {:induction false} OnlyOwnTokenRemoves(acts: seq<Action>, a: Action, k: nat, t: Token)
    requires Legal(acts) && Enabled(Exec(acts), a) && k < |Exec(acts).readers|
    requires t in Exec(acts).readers[k].handlers && a != Unsubscribe(Exec(acts).readers[k].dest, t)
    ensures t in Step(Exec(acts), a).readers[k].handlers
  {
    InvAlways(acts);
    HandlerStays(Exec(acts), a, k, t);
  }

  lemma CountFrame(s: State, a: Action, k: nat)
    requires Enabled(s, a) && k < |s.readers|
    ensures NextReader(s, a, k).unsubs == s.readers[k].unsubs + (if a == CallUnsub(k) then 1 else 0)
    ensures |NextReader(s, a, k).reports| == |s.readers[k].reports| + (if a == Publish(k) then 1 else 0)
  {
  }

  lemma {:induction false} CountUnsubs(acts: seq<Action>, k: nat)
    requires Legal(acts)
    ensures Count(acts, CallUnsub(k)) == (if k < |Exec(acts).readers| then Exec(acts).readers[k].unsubs else 0)
    ensures Count(acts, Publish(k)) == (if k < |Exec(acts).readers| then |Exec(acts).readers[k].reports| else 0)
  {
    if acts != [] {
      var n := |acts| - 1;
      CountUnsubs(acts[..n], k);
      if k < |Exec(acts[..n]).readers| {
        CountFrame(Exec(acts[..n]), acts[n], k);
      }
    }
  }

  /** The router calls a transport subscription's Unsubscribe at most once, and only after the last
      handler left or Close ran. */
  lemma {:induction false} UnsubscribedAtMostOnce(acts: seq<Action>, k: nat)
    requires Legal(acts) && k < |Exec(acts).readers|
    ensures Count(acts, CallUnsub(k)) <= 1
    ensures Count(acts, CallUnsub(k)) == 1 ==>
      Exec(acts).readers[k].removal.LastHandlerLeft? || Exec(acts).readers[k].removal.RouterClosed?
  {
    InvAlways(acts);
    CountUnsubs(acts, k);
  }

  /** The readers that have not exited. */
  function Running(rs: seq<Reader>): (n: nat) {
    if rs == [] then 0 else Running(rs[..|rs|-1]) + (if rs[|rs|-1].phase.Finished? then 0 else 1)
  }

  lemma {:induction false} RunningUpdate(rs: seq<Reader>, k: nat, r: Reader)
    requires k < |rs|
    ensures Running(rs[k := r])
         == Running(rs) - (if rs[k].phase.Finished? then 0 else 1) + (if r.phase.Finished? then 0 else 1)
    ensures !rs[k].phase.Finished? ==> Running(rs) > 0
  {
    var n := |rs| - 1;
    if k == n {
      assert rs[k := r][..n] == rs[..n];
    } else {
      RunningUpdate(rs[..n], k, r);
      assert rs[k := r][..n] == rs[..n][k := r];
    }
  }

  lemma {:induction false} RunningSame(rs: seq<Reader>, rs': seq<Reader>)
    requires |rs| == |rs'| && forall k :: 0 <= k < |rs| ==> (rs[k].phase.Finished? <==> rs'[k].phase.Finished?)
    ensures Running(rs) == Running(rs')
  {
    if rs != [] {
      RunningSame(rs[..|rs|-1], rs'[..|rs|-1]);
    }
  }

  lemma RunningLocal(s: State, a: Action)
    requires Enabled(s, a) && Local(a)
    ensures Running(Step(s, a).readers) - Running(s.readers) == NextWg(s, a) - s.wg
  {
    LocalStepIs(s, a);
    RunningUpdate(s.readers, a.k, LocalStep(s.readers[a.k], a));
  }

  lemma RunningCreate(s: State, a: Action)
    requires Enabled(s, a) && a.Create?
    ensures Running(Step(s, a).readers) == Running(s.readers) + 1
  {
    var s' := Step(s, a);
    assert s'.readers[..|s.readers|] + [FreshReader(a.dest, a.tok)] == s'.readers;
    RunningSame(s.readers, s'.readers[..|s.readers|]);
  }

  lemma RunningStep(s: State, a: Action)
    requires Enabled(s, a)
    ensures Running(Step(s, a).readers) - Running(s.readers) == NextWg(s, a) - s.wg
  {
    if Local(a) {
      RunningLocal(s, a);
    } else if a.Create? {
      RunningCreate(s, a);
    } else if a.Deregister? {
      DeregisterStepIs(s, a.k);
      RunningUpdate(s.readers, a.k, Leave(s.readers[a.k], IsRegistered(s, a.k)));
    } else {
      RunningSame(s.readers, Step(s, a).readers);
    }
  }

  /** The WaitGroup counts the readers that have not exited; in particular it is never negative. */
  lemma {:induction false} WaitGroupCounts(acts: seq<Action>)
    requires Legal(acts)
    ensures Exec(acts).wg == Running(Exec(acts).readers)
    ensures Exec(acts).wg == 0 <==> forall k :: 0 <= k < |Exec(acts).readers| ==> Exec(acts).readers[k].phase.Finished?
  {
    if acts != [] {
      var n := |acts| - 1;
      WaitGroupCounts(acts[..n]);
      RunningStep(Exec(acts[..n]), acts[n]);
    }
    NoneRunning(Exec(acts).readers);
  }

  lemma {:induction false} NoneRunning(rs: seq<Reader>)
    ensures Running(rs) == 0 <==> forall k :: 0 <= k < |rs| ==> rs[k].phase.Finished?
  {
    if rs != [] {
      NoneRunning(rs[..|rs|-1]);
      forall k | 0 <= k < |rs| && Running(rs) == 0
        ensures rs[k].phase.Finished?
      {
        RunningUpdate(rs, k, rs[k]);
      }
    }
  }

  /** When Close returns, its wait on the WaitGroup has seen every reader exit, the registry is empty, and every
      subscription that it collected has been unsubscribed at the transport, once. */
  lemma {:induction false} CloseLeavesNothing(acts: seq<Action>, c: nat)
    requires Legal(acts) && Enabled(Exec(acts), CloseReturn(c))
    ensures Exec(acts).dests == map[]
    ensures forall k :: 0 <= k < |Exec(acts).readers| ==> Exec(acts).readers[k].phase.Finished?
    ensures forall k :: k in Exec(acts).closers[c].subs && k < |Exec(acts).readers| ==> Count(acts, CallUnsub(k)) == 1
  {
    InvAlways(acts);
    WaitGroupCounts(acts);
    var s := Exec(acts);
    forall k | k in s.closers[c].subs && k < |s.readers|
      ensures Count(acts, CallUnsub(k)) == 1
    {
      CountUnsubs(acts, k);
    }
    assert forall d :: d !in s.dests;
  }
}
