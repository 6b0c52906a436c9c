/** The gate that keeps go-stomp's Unsubscribe and Disconnect apart, and the once-guarded Unsubscribe
    of a subscription.  Callers, subscriptions and Disconnect calls come in any number; go-stomp may
    return, fail or panic. */
module DisconnectGate {
  import opened Prelude

  /** What Unsubscribe reports: nil, errDisconnected, go-stomp's error, or a recovered runtime panic. */
  datatype Result = Nil | Refused | Failed | Recovered

  /** How a go-stomp Unsubscribe ends. */
  datatype Outcome = Ok | Error | RuntimePanic | OtherPanic

  /** The body of once.Do for one subscription. */
  datatype SubPhase =
    | Fresh
    | Claimed                       // stop is closed, the gate not yet asked
    | Begun                         // counted as pending
    | InCall                        // inside go-stomp's Unsubscribe
    | Leaving(outcome: Outcome)     // out of go-stomp, still counted as pending
    | Done(err: Result)

  datatype CallPhase = Entered | Running | Returned(result: Result) | Panicked

  /** A call of a subscription's Unsubscribe, explicit or launched because its context was done. */
  datatype Caller = Caller(u: nat, phase: CallPhase)

  datatype DiscPhase =
    | Started
    | Closing                       // closing set, waiting for pending unsubscribes
    | Passed                        // the wait is over
    | Chosen(graceful: bool)        // ended has been read
    | Calling(graceful: bool)       // inside go-stomp's Disconnect or MustDisconnect
    | Finished

  datatype State = State(
    closing: bool, pending: nat, ended: bool, subs: seq<SubPhase>, callers: seq<Caller>, discs: seq<DiscPhase>)

  datatype Action =
    | NewSub
    | CallUnsubscribe(u: nat)
    | Claim(c: nat)
    | Begin(u: nat)
    | EnterGo(u: nat)
    | ExitGo(u: nat, outcome: Outcome)
    | End(u: nat)
    | Return(c: nat)
    | MarkEnded
    | CallDisconnect
    | SetClosing(d: nat)
    | WaitOver(d: nat)
    | LoadEnded(d: nat)
    | EnterDisconnect(d: nat)
    | ExitDisconnect(d: nat)

  const INIT := State(false, 0, false, [], [], [])

  predicate Enabled(s: State, a: Action) {
    match a
    case NewSub => true
    case CallUnsubscribe(u) => u < |s.subs|
    case Claim(c) =>
      && c < |s.callers| && s.callers[c].phase.Entered?
      && s.callers[c].u < |s.subs| && s.subs[s.callers[c].u].Fresh?
    case Begin(u) => u < |s.subs| && s.subs[u].Claimed?
    case EnterGo(u) => u < |s.subs| && s.subs[u].Begun?
    case ExitGo(u, _) => u < |s.subs| && s.subs[u].InCall?
    case End(u) => u < |s.subs| && s.subs[u].Leaving? && s.pending > 0
    case Return(c) =>
      c < |s.callers| && (s.callers[c].phase.Entered? || s.callers[c].phase.Running?)
      && s.callers[c].u < |s.subs| && s.subs[s.callers[c].u].Done?
    case MarkEnded => true
    case CallDisconnect => true
    case SetClosing(d) => d < |s.discs| && s.discs[d].Started?
    case WaitOver(d) => d < |s.discs| && s.discs[d].Closing? && s.pending == 0
    case LoadEnded(d) => d < |s.discs| && s.discs[d].Passed?
    case EnterDisconnect(d) => d < |s.discs| && s.discs[d].Chosen?
    case ExitDisconnect(d) => d < |s.discs| && s.discs[d].Calling?
  }

  /** The result the deferred functions leave in s.err; a panic that is not a runtime error leaves nil. */
  function ResultOf(o: Outcome): (r: Result) {
    match o case Ok => Nil case Error => Failed case RuntimePanic => Recovered case OtherPanic => Nil
  }

  function Step(s: State, a: Action): (t: State)
    requires Enabled(s, a)
  {
    match a
    case NewSub => s.(subs := s.subs + [Fresh])
    case CallUnsubscribe(u) => s.(callers := s.callers + [Caller(u, Entered)])
    case Claim(c) =>
      s.(subs := s.subs[s.callers[c].u := Claimed], callers := s.callers[c := s.callers[c].(phase := Running)])
    case Begin(u) =>
      if s.closing then s.(subs := s.subs[u := Done(Refused)])
      else s.(subs := s.subs[u := Begun], pending := s.pending + 1)
    case EnterGo(u) => s.(subs := s.subs[u := InCall])
    case ExitGo(u, o) =>
      var panicking := o.OtherPanic?;
      s.(subs := s.subs[u := Leaving(o)],
         callers := if panicking
                    then seq(|s.callers|, c requires 0 <= c < |s.callers| =>
                      if s.callers[c] == Caller(u, Running) then Caller(u, Panicked) else s.callers[c])
                    else s.callers)
    case End(u) => s.(subs := s.subs[u := Done(ResultOf(s.subs[u].outcome))], pending := s.pending - 1)
    case Return(c) => s.(callers := s.callers[c := s.callers[c].(phase := Returned(s.subs[s.callers[c].u].err))])
    case MarkEnded => s.(ended := true)
    case CallDisconnect => s.(discs := s.discs + [Started])
    case SetClosing(d) => s.(closing := true, discs := s.discs[d := Closing])
    case WaitOver(d) => s.(discs := s.discs[d := Passed])
    case LoadEnded(d) => s.(discs := s.discs[d := Chosen(!s.ended)])
    case EnterDisconnect(d) => s.(discs := s.discs[d := Calling(s.discs[d].graceful)])
    case ExitDisconnect(d) => s.(discs := s.discs[d := Finished])
  }

  predicate Legal(acts: seq<Action>)
    decreases |acts|, 0
  {
    acts == [] ||
    (Legal(acts[..|acts|-1]) && Enabled(Exec(acts[..|acts|-1]), acts[|acts|-1]))
  }

  function Exec(acts: seq<Action>): (s: State)
    requires Legal(acts)
    decreases |acts|, 1
  {
    if acts == [] then INIT else Step(Exec(acts[..|acts|-1]), acts[|acts|-1])
  }

  /** Counted by the WaitGroup. */
  predicate Active(p: SubPhase) { p.Begun? || p.InCall? || p.Leaving? }

  function Actives(subs: seq<SubPhase>): (n: nat) {
    if subs == [] then 0 else Actives(subs[..|subs|-1]) + (if Active(subs[|subs|-1]) then 1 else 0)
  }

  lemma {:induction false} ActivesUpdate(subs: seq<SubPhase>, u: nat, p: SubPhase)
    requires u < |subs|
    ensures Actives(subs[u := p]) == Actives(subs) - (if Active(subs[u]) then 1 else 0) + (if Active(p) then 1 else 0)
    ensures Active(subs[u]) ==> Actives(subs) > 0
  {
    var n := |subs| - 1;
    if u == n {
      assert subs[u := p][..n] == subs[..n];
    } else {
      ActivesUpdate(subs[..n], u, p);
      assert subs[u := p][..n] == subs[..n][u := p];
    }
  }

  predicate PastWait(p: DiscPhase) { p.Passed? || p.Chosen? || p.Calling? || p.Finished? }

  ghost predicate Inv(s: State) {
    && s.pending == Actives(s.subs)
    && (forall d :: 0 <= d < |s.discs| && !s.discs[d].Started? ==> s.closing)
    && (forall d :: 0 <= d < |s.discs| && PastWait(s.discs[d]) ==> s.pending == 0)
  }

  lemma PendingStep(s: State, a: Action)
    requires s.pending == Actives(s.subs) && Enabled(s, a)
    ensures Step(s, a).pending == Actives(Step(s, a).subs)
    ensures s.closing ==> Step(s, a).closing && Step(s, a).pending <= s.pending
  {
    match a
    case NewSub => assert (s.subs + [Fresh])[..|s.subs|] == s.subs;
    case Claim(c) => ActivesUpdate(s.subs, s.callers[c].u, Claimed);
    case Begin(u) => ActivesUpdate(s.subs, u, Step(s, a).subs[u]);
    case EnterGo(u) => ActivesUpdate(s.subs, u, InCall);
    case ExitGo(u, o) => ActivesUpdate(s.subs, u, Leaving(o));
    case End(u) => ActivesUpdate(s.subs, u, Step(s, a).subs[u]);
    case _ =>
  }

  lemma DiscStep(s: State, a: Action, d: nat)
    requires Enabled(s, a) && d < |s.discs|
    ensures d < |Step(s, a).discs|
    ensures PastWait(s.discs[d]) ==> PastWait(Step(s, a).discs[d])
    ensures !PastWait(s.discs[d]) && PastWait(Step(s, a).discs[d]) ==> s.discs[d].Closing? && Step(s, a).pending == 0
    ensures s.discs[d].Started? && !Step(s, a).discs[d].Started? ==> Step(s, a).closing
    ensures !s.discs[d].Started? ==> !Step(s, a).discs[d].Started?
  {
  }

  lemma InvStep(s: State, a: Action)
    requires Inv(s) && Enabled(s, a)
    ensures Inv(Step(s, a))
    ensures s.closing ==> Step(s, a).closing && Step(s, a).pending <= s.pending
  {
    PendingStep(s, a);
    var s' := Step(s, a);
    forall d | 0 <= d < |s'.discs|
      ensures !s'.discs[d].Started? ==> s'.closing
      ensures PastWait(s'.discs[d]) ==> s'.pending == 0
    {
      if d < |s.discs| {
        DiscStep(s, a, d);
      }
    }
  }

  lemma {:induction false} InvAlways(acts: seq<Action>)
    requires Legal(acts)
    ensures Inv(Exec(acts))
  {
    if acts != [] {
      var n := |acts| - 1;
      InvAlways(acts[..n]);
      InvStep(Exec(acts[..n]), acts[n]);
    }
  }

  /** While a Disconnect call is past its wait, and so while it is in go-stomp, no go-stomp Unsubscribe
      is in progress or about to start. */
  lemma {:induction false} NoOverlap(acts: seq<Action>, d: nat, u: nat)
    requires Legal(acts) && d < |Exec(acts).discs| && PastWait(Exec(acts).discs[d]) && u < |Exec(acts).subs|
    ensures !Active(Exec(acts).subs[u])
  {
    InvAlways(acts);
    ActivesUpdate(Exec(acts).subs, u, Fresh);
  }

  /** A Disconnect call never goes back before its wait. */
  lemma {:induction false} StaysPastWait(acts: seq<Action>, n: nat, d: nat)
    requires Legal(acts) && n <= |acts| && Legal(acts[..n])
    requires d < |Exec(acts[..n]).discs| && PastWait(Exec(acts[..n]).discs[d])
    ensures d < |Exec(acts).discs| && PastWait(Exec(acts).discs[d])
    decreases |acts|
  {
    if n == |acts| {
      assert acts[..n] == acts;
    } else {
      var m := |acts| - 1;
      assert acts[..m][..n] == acts[..n];
      StaysPastWait(acts[..m], n, d);
      DiscStep(Exec(acts[..m]), acts[m], d);
    }
  }

  lemma {:induction false} PrefixLegal(acts: seq<Action>, n: nat)
    requires Legal(acts) && n <= |acts|
    ensures Legal(acts[..n])
    ensures n < |acts| ==> Enabled(Exec(acts[..n]), acts[n])
    decreases |acts|
  {
    if n == |acts| {
      assert acts[..n] == acts;
    } else {
      var m := |acts| - 1;
      PrefixLegal(acts[..m], n);
      assert acts[..m][..n] == acts[..n];
    }
  }

  /** Once any Disconnect call is past its wait, no go-stomp Unsubscribe starts for the rest of the run. */
  lemma {:induction false} NoneStartsAfter(acts: seq<Action>, n: nat, d: nat, i: nat)
    requires Legal(acts) && n <= i < |acts| && Legal(acts[..n])
    requires d < |Exec(acts[..n]).discs| && PastWait(Exec(acts[..n]).discs[d])
    ensures !acts[i].EnterGo?
  {
    PrefixLegal(acts, i);
    assert acts[..i][..n] == acts[..n];
    StaysPastWait(acts[..i], n, d);
    if acts[i].EnterGo? {
      NoOverlap(acts[..i], d, acts[i].u);
      assert false;
    }
  }

  predicate NotCalled(s: State, u: nat) {
    u >= |s.subs| || s.subs[u].Fresh? || s.subs[u].Claimed? || s.subs[u].Begun? || s.subs[u] == Done(Refused)
  }

  /** go-stomp's Unsubscribe runs at most once per subscription, and not at all for a refused one. */
  lemma {:induction false} GoUnsubscribeAtMostOnce(acts: seq<Action>, u: nat)
    requires Legal(acts)
    ensures Count(acts, EnterGo(u)) <= 1
    ensures NotCalled(Exec(acts), u) ==> Count(acts, EnterGo(u)) == 0
  {
    if acts != [] {
      GoUnsubscribeAtMostOnce(acts[..|acts|-1], u);
    }
  }

  ghost predicate ResultsOk(s: State) {
    forall c :: 0 <= c < |s.callers| && s.callers[c].phase.Returned? ==>
      s.callers[c].u < |s.subs| && s.subs[s.callers[c].u] == Done(s.callers[c].phase.result)
  }

  lemma ResultStep(s: State, a: Action, c: nat)
    requires ResultsOk(s) && Enabled(s, a) && c < |Step(s, a).callers| && Step(s, a).callers[c].phase.Returned?
    ensures var s' := Step(s, a);
      s'.callers[c].u < |s'.subs| && s'.subs[s'.callers[c].u] == Done(s'.callers[c].phase.result)
  {
    assert (a.Return? && a.c == c) || (c < |s.callers| && s.callers[c] == Step(s, a).callers[c]);
  }

  lemma {:induction false} ResultsAlways(acts: seq<Action>)
    requires Legal(acts)
    ensures ResultsOk(Exec(acts))
  {
    if acts != [] {
      var n := |acts| - 1;
      ResultsAlways(acts[..n]);
      forall c | 0 <= c < |Exec(acts).callers| && Exec(acts).callers[c].phase.Returned? {
        ResultStep(Exec(acts[..n]), acts[n], c);
      }
    }
  }

  /** Every Unsubscribe call that returns gets the result of the one attempt. */
  lemma {:induction false} SameResult(acts: seq<Action>, b: nat, c: nat)
    requires Legal(acts) && b < |Exec(acts).callers| && c < |Exec(acts).callers|
    requires Exec(acts).callers[b].u == Exec(acts).callers[c].u
    requires Exec(acts).callers[b].phase.Returned? && Exec(acts).callers[c].phase.Returned?
    ensures Exec(acts).callers[b].phase.result == Exec(acts).callers[c].phase.result
  {
    ResultsAlways(acts);
  }

  /** In the run, the attempt of subscription u asked for the gate when it was closed. */
  predicate RefusedDuring(acts: seq<Action>, u: nat)
    requires Legal(acts)
  {
    acts != [] && var n := |acts| - 1;
    RefusedDuring(acts[..n], u) || (acts[n] == Begin(u) && Exec(acts[..n]).closing)
  }

  /** The attempt has left go-stomp with this outcome, and its result is or will be r. */
  predicate LeftAs(s: State, u: nat, o: Outcome, r: Result) {
    u < |s.subs| && (s.subs[u] == Leaving(o) || s.subs[u] == Done(r))
  }

  /** Where an attempt stands tells how go-stomp's Unsubscribe ended in the run, or that it was refused. */
  lemma {:induction false} OutcomeHistory(acts: seq<Action>, u: nat)
    requires Legal(acts)
    ensures ExitGo(u, Error) in acts <==> LeftAs(Exec(acts), u, Error, Failed)
    ensures ExitGo(u, RuntimePanic) in acts <==> LeftAs(Exec(acts), u, RuntimePanic, Recovered)
    ensures ExitGo(u, Ok) in acts || ExitGo(u, OtherPanic) in acts <==>
      LeftAs(Exec(acts), u, Ok, Nil) || LeftAs(Exec(acts), u, OtherPanic, Nil)
    ensures RefusedDuring(acts, u) <==> u < |Exec(acts).subs| && Exec(acts).subs[u] == Done(Refused)
  {
    if acts != [] {
      var n := |acts| - 1;
      OutcomeHistory(acts[..n], u);
      assert acts == acts[..n] + [acts[n]];
      OutcomeFrame(Exec(acts[..n]), acts[n], u);
    }
  }

  lemma OutcomeFrame(s: State, a: Action, u: nat)
    requires Enabled(s, a)
    ensures LeftAs(Step(s, a), u, Error, Failed) <==> LeftAs(s, u, Error, Failed) || a == ExitGo(u, Error)
    ensures LeftAs(Step(s, a), u, RuntimePanic, Recovered) <==>
      LeftAs(s, u, RuntimePanic, Recovered) || a == ExitGo(u, RuntimePanic)
    ensures LeftAs(Step(s, a), u, Ok, Nil) || LeftAs(Step(s, a), u, OtherPanic, Nil) <==>
      || LeftAs(s, u, Ok, Nil) || LeftAs(s, u, OtherPanic, Nil)
      || a == ExitGo(u, Ok) || a == ExitGo(u, OtherPanic)
    ensures u < |Step(s, a).subs| && Step(s, a).subs[u] == Done(Refused) <==>
      (u < |s.subs| && s.subs[u] == Done(Refused)) || (a == Begin(u) && s.closing)
  {
  }

  /** What an Unsubscribe call returns, read off the run: a failure or a recovered panic exactly when go-stomp's
      Unsubscribe ended that way, a refusal exactly when the gate was closed, and nil exactly when go-stomp
      returned, or panicked with something that is not a runtime error. */
  lemma {:induction false} ResultExactly(acts: seq<Action>, c: nat)
    requires Legal(acts) && c < |Exec(acts).callers| && Exec(acts).callers[c].phase.Returned?
    ensures var u, r := Exec(acts).callers[c].u, Exec(acts).callers[c].phase.result;
      && (r == Failed <==> ExitGo(u, Error) in acts)
      && (r == Recovered <==> ExitGo(u, RuntimePanic) in acts)
      && (r == Refused <==> RefusedDuring(acts, u))
      && (r == Nil <==> ExitGo(u, Ok) in acts || ExitGo(u, OtherPanic) in acts)
  {
    ResultsAlways(acts);
    OutcomeHistory(acts, Exec(acts).callers[c].u);
  }

  lemma {:induction false} EndedHistory(acts: seq<Action>)
    requires Legal(acts)
    ensures Exec(acts).ended <==> MarkEnded in acts
  {
    if acts != [] {
      EndedHistory(acts[..|acts|-1]);
      assert acts == acts[..|acts|-1] + [acts[|acts|-1]];
    }
  }

  /** A Disconnect call asks go-stomp for a graceful disconnect exactly when no subscription had reported the end
      of the connection before it looked. */
  lemma {:induction false} GracefulOnlyWhileLive(acts: seq<Action>, d: nat)
    requires Legal(acts) && Enabled(Exec(acts), LoadEnded(d))
    ensures Step(Exec(acts), LoadEnded(d)).discs[d] == Chosen(MarkEnded !in acts)
  {
    EndedHistory(acts);
  }

  /** Steps still to come of the unsubscribes a Disconnect waits for. */
  function Remaining(p: SubPhase): (n: nat) {
    match p case Begun => 3 case InCall => 2 case Leaving(_) => 1 case _ => 0
  }

  /** The wait ends: while something is pending, one of the pending unsubscribes can move, it moves at
      most three times, and no new one is admitted. */
  lemma {:induction false} WaitEnds(acts: seq<Action>, d: nat) returns (a: Action)
    requires Legal(acts) && d < |Exec(acts).discs| && Exec(acts).discs[d].Closing?
    ensures Enabled(Exec(acts), a)
    ensures a == WaitOver(d) || (
      && (a.EnterGo? || a.ExitGo? || a.End?) && a.u < |Exec(acts).subs|
      && Remaining(Step(Exec(acts), a).subs[a.u]) < Remaining(Exec(acts).subs[a.u]) <= 3)
    ensures forall b :: Enabled(Exec(acts), b) ==> Step(Exec(acts), b).pending <= Exec(acts).pending
  {
    var s := Exec(acts);
    InvAlways(acts);
    forall b | Enabled(s, b)
      ensures Step(s, b).pending <= s.pending
    {
      InvStep(s, b);
    }
    if s.pending == 0 {
      a := WaitOver(d);
    } else {
      var u := FindActive(s.subs);
      a := match s.subs[u] case Begun => EnterGo(u) case InCall => ExitGo(u, Ok) case Leaving(_) => End(u);
    }
  }

  lemma {:induction false} FindActive(subs: seq<SubPhase>) returns (u: nat)
    requires Actives(subs) > 0
    ensures u < |subs| && Active(subs[u])
  {
    var n := |subs| - 1;
    if Active(subs[n]) {
      u := n;
    } else {
      u := FindActive(subs[..n]);
    }
  }

  lemma {:induction false} Extend(acts: seq<Action>, a: Action)
    requires Legal(acts) && Enabled(Exec(acts), a)
    ensures Legal(acts + [a]) && Exec(acts + [a]) == Step(Exec(acts), a)
  {
    var more := acts + [a];
    assert more[..|more| - 1] == acts && more[|more| - 1] == a;
  }

  /** The actions can happen one after the other from s on. */
  predicate Path(s: State, acts: seq<Action>)
    decreases |acts|
  {
    acts == [] || (Enabled(s, acts[0]) && Path(Step(s, acts[0]), acts[1..]))
  }

  lemma PathHead(s: State, a: Action, rest: seq<Action>)
    requires Path(s, [a] + rest)
    ensures Enabled(s, a) && Path(Step(s, a), rest)
  {
    assert ([a] + rest)[1..] == rest;
  }

  /** An attempt that has left go-stomp keeps its outcome until it ends. */
  predicate LeftWith(s: State, u: nat, o: Outcome) { u < |s.subs| && (s.subs[u] == Leaving(o) || s.subs[u].Done?) }

  lemma LeftWithStep(s: State, a: Action, u: nat, o: Outcome)
    requires LeftWith(s, u, o) && Enabled(s, a)
    ensures LeftWith(Step(s, a), u, o)
  {
  }

  /** What others do between the steps of one call. */
  datatype Gaps = Gaps(first: seq<Action>, second: seq<Action>, third: seq<Action>)

  /** One admitted attempt, interleaved with others: all of it, from its call into go-stomp on, from its
      return on. */
  function Attempt(u: nat, outcome: Outcome, g: Gaps): (acts: seq<Action>) {
    [Begin(u)] + (g.first + Entering(u, outcome, g))
  }

  function Entering(u: nat, outcome: Outcome, g: Gaps): (acts: seq<Action>) {
    [EnterGo(u)] + (g.second + Exiting(u, outcome, g))
  }

  function Exiting(u: nat, outcome: Outcome, g: Gaps): (acts: seq<Action>) {
    [ExitGo(u, outcome)] + (g.third + ([End(u)] + []))
  }

  /** One Disconnect call, interleaved with others: all of it, from the end of its wait on, and its call into
      go-stomp. */
  function Disconnecting(d: nat, g: Gaps): (acts: seq<Action>) { [SetClosing(d)] + (g.first + Waited(d, g)) }

  function Waited(d: nat, g: Gaps): (acts: seq<Action>) {
    [WaitOver(d)] + (g.second + ([LoadEnded(d)] + GoCall(d, g)))
  }

  function GoCall(d: nat, g: Gaps): (acts: seq<Action>) {
    [EnterDisconnect(d)] + (g.third + ([ExitDisconnect(d)] + []))
  }

  /** A trace that grew step by step has grown by the whole. */
  lemma Grown(t: seq<Action>, a: Action, env: seq<Action>, rest: seq<Action>)
    ensures ((t + [a]) + env) + rest == t + ([a] + (env + rest))
  {
  }

  lemma ChoiceStep(s: State, d: nat)
    requires Enabled(s, LoadEnded(d))
    ensures d < |Step(s, LoadEnded(d)).discs| && PastWait(Step(s, LoadEnded(d)).discs[d])
  {
  }

  lemma Onward(t: seq<Action>, front: seq<Action>, a: Action)
    ensures (t + front) + [a] == t + (front + [a])
  {
  }

  lemma Uncover(env: seq<Action>, i: nat, rest: seq<Action>)
    requires i < |env|
    ensures env[i..] + rest == [env[i]] + (env[i + 1..] + rest)
    ensures env[..i + 1] == env[..i] + [env[i]]
  {
  }

  lemma Shut(acts: seq<Action>, d: nat)
    requires Legal(acts) && d < |Exec(acts).discs| && PastWait(Exec(acts).discs[d])
    ensures Exec(acts).closing && Exec(acts).pending == 0
  {
    InvAlways(acts);
  }

  /** How sub.unsubscribe ends: it returns, or a panic that is not a runtime error goes on. */
  datatype Ending = Returning(result: Result) | Panicking

  /** The connection object on the fields the code has; each method performs, on them, exactly the actions it
      appends to `trace`.  A call that is not one lock section is given what other goroutines do between its
      own steps, in any way that is a run. */
  class Conn {
    var closing: bool
    var pending: nat
    var ended: bool
    ghost var trace: seq<Action>
    ghost var model: State             // where the trace has led

    ghost predicate Valid()
      reads this
    {
      && Legal(trace) && model == Exec(trace)
      && closing == model.closing && pending == model.pending && ended == model.ended
    }

    constructor ()
      ensures Valid() && trace == [] && !closing && pending == 0 && !ended
    {
      closing, pending, ended, trace, model := false, 0, false, [], INIT;
    }

    /** An action that is not on the connection's fields. */
    ghost method Elsewhere(a: Action)
      requires Valid() && Enabled(model, a) && !a.Begin? && !a.End? && !a.MarkEnded? && !a.SetClosing?
      modifies `trace, `model
      ensures Valid() && trace == old(trace) + [a] && model == Step(old(model), a)
    {
      Extend(trace, a);
      trace := trace + [a];
      model := Exec(trace);
    }

    method BeginUnsubscribe(ghost u: nat) returns (ok: bool)
      requires Valid() && Enabled(model, Begin(u))
      modifies this
      ensures Valid() && trace == old(trace) + [Begin(u)] && model == Step(old(model), Begin(u))
      ensures ok == !old(closing) && closing == old(closing) && ended == old(ended)
      ensures pending == old(pending) + (if ok then 1 else 0)
    {
      Extend(trace, Begin(u));
      trace := trace + [Begin(u)];
      model := Exec(trace);
      if closing {
        return false;
      }
      pending := pending + 1;
      ok := true;
    }

    method EndUnsubscribe(ghost u: nat)
      requires Valid() && Enabled(model, End(u))
      modifies this
      ensures Valid() && trace == old(trace) + [End(u)] && model == Step(old(model), End(u))
      ensures pending == old(pending) - 1 && closing == old(closing) && ended == old(ended)
    {
      Extend(trace, End(u));
      trace := trace + [End(u)];
      model := Exec(trace);
      pending := pending - 1;
    }

    method ReportEnd()
      requires Valid()
      modifies this
      ensures Valid() && trace == old(trace) + [MarkEnded] && model == Step(old(model), MarkEnded)
      ensures ended && closing == old(closing) && pending == old(pending)
    {
      Extend(trace, MarkEnded);
      trace := trace + [MarkEnded];
      model := Exec(trace);
      ended := true;
    }

    /** Disconnect's lock section. */
    method CloseGate(ghost d: nat)
      requires Valid() && Enabled(model, SetClosing(d))
      modifies this
      ensures Valid() && trace == old(trace) + [SetClosing(d)] && model == Step(old(model), SetClosing(d))
      ensures closing && pending == old(pending) && ended == old(ended)
    {
      Extend(trace, SetClosing(d));
      trace := trace + [SetClosing(d)];
      model := Exec(trace);
      closing := true;
    }

    /** One step of another goroutine, on the fields. */
    method Other(a: Action)
      requires Valid() && Enabled(model, a)
      modifies this
      ensures Valid() && trace == old(trace) + [a] && model == Step(old(model), a)
      ensures old(ended) ==> ended
    {
      match a {
        case Begin(u) => var _ := BeginUnsubscribe(u);
        case End(u) => EndUnsubscribe(u);
        case MarkEnded => ReportEnd();
        case SetClosing(d) => CloseGate(d);
        case _ => Elsewhere(a);
      }
    }

    /** What others do up to one of the caller's own steps.  `u` and `o` are the caller's attempt, if it has
        left go-stomp. */
    method Others(env: seq<Action>, ghost rest: seq<Action>, ghost u: nat, ghost o: Outcome)
      requires Valid() && Path(model, env + rest)
      modifies this
      ensures Valid() && trace == old(trace) + env && Path(model, rest)
      ensures old(LeftWith(model, u, o)) ==> LeftWith(model, u, o)
      ensures old(ended) ==> ended
    {
      var i := 0;
      assert env[..0] == [] && env[0..] == env;
      while i < |env|
        invariant 0 <= i <= |env| && Valid() && trace == old(trace) + env[..i]
        invariant Path(model, env[i..] + rest)
        invariant old(LeftWith(model, u, o)) ==> LeftWith(model, u, o)
        invariant old(ended) ==> ended
      {
        Uncover(env, i, rest);
        PathHead(model, env[i], env[i + 1..] + rest);
        ghost var was := model;
        Other(env[i]);
        if LeftWith(was, u, o) {
          LeftWithStep(was, env[i], u, o);
        }
        Onward(old(trace), env[..i], env[i]);
        i := i + 1;
      }
      assert env[i..] + rest == rest;
    }

    /** sub.unsubscribe.  Whatever go-stomp does, return, fail or panic, and whatever others do meanwhile, an
        admitted attempt ends uncounted, with its one result; a panic that is not a runtime error goes on to
        the caller all the same. */
    method Unsubscribe(ghost u: nat, outcome: Outcome, g: Gaps) returns (r: Ending)
      requires Valid() && Enabled(model, Begin(u))
      requires !closing ==> Path(model, Attempt(u, outcome, g))
      modifies this
      ensures Valid() && u < |model.subs| && !Active(model.subs[u])
      ensures old(closing) ==> r == Returning(Refused) && trace == old(trace) + [Begin(u)]
      ensures !old(closing) ==> trace == old(trace) + Attempt(u, outcome, g)
      ensures !old(closing) && outcome.Ok? ==> r == Returning(Nil)
      ensures !old(closing) && outcome.Error? ==> r == Returning(Failed)
      ensures !old(closing) && outcome.RuntimePanic? ==> r == Returning(Recovered)
      ensures !old(closing) && outcome.OtherPanic? ==> r == Panicking
      ensures r.Returning? ==> model.subs[u] == Done(r.result)
    {
      if !closing {
        PathHead(model, Begin(u), g.first + Entering(u, outcome, g));
      }
      var ok := BeginUnsubscribe(u);
      if !ok {
        return Returning(Refused);
      }
      Others(g.first, Entering(u, outcome, g), u, outcome);
      Enter(u, outcome, g);
      EndUnsubscribe(u);
      Grown(old(trace), Begin(u), g.first, Entering(u, outcome, g));
      r := if outcome.OtherPanic? then Panicking else Returning(ResultOf(outcome));
    }

    /** The call of go-stomp's Unsubscribe, up to the deferred endUnsubscribe. */
    method Enter(ghost u: nat, outcome: Outcome, g: Gaps)
      requires Valid() && Path(model, Entering(u, outcome, g))
      modifies this
      ensures Valid() && trace + [End(u)] == old(trace) + Entering(u, outcome, g)
      ensures Enabled(model, End(u)) && model.subs[u] == Leaving(outcome)
    {
      ghost var before := trace;
      PathHead(model, EnterGo(u), g.second + Exiting(u, outcome, g));
      Elsewhere(EnterGo(u));
      Others(g.second, Exiting(u, outcome, g), u, outcome);
      ghost var middle := trace;
      PathHead(model, ExitGo(u, outcome), g.third + ([End(u)] + []));
      Elsewhere(ExitGo(u, outcome));
      Others(g.third, [End(u)] + [], u, outcome);
      PathHead(model, End(u), []);
      Grown(middle, ExitGo(u, outcome), g.third, [End(u)] + []);
      Grown(before, EnterGo(u), g.second, Exiting(u, outcome, g));
    }

    /** Disconnect.  It closes the gate, waits until nothing is pending while others go on, chooses, and returns
        an error exactly when go-stomp does.  The call is graceful only if no end of the connection had been
        reported, and is not only if one has; nothing is pending while it is on, nor after it. */
    method Disconnect(ghost d: nat, g: Gaps, goFails: bool) returns (graceful: bool, ok: bool)
      requires Valid() && Path(model, Disconnecting(d, g))
      modifies this
      ensures Valid() && trace == old(trace) + Disconnecting(d, g)
      ensures closing && pending == 0 && (graceful ==> !old(ended)) && (!graceful ==> ended)
      ensures ok == !goFails
    {
      PathHead(model, SetClosing(d), g.first + Waited(d, g));
      CloseGate(d);
      Await(d, g);
      graceful := PastGate(d, g);
      Grown(old(trace), SetClosing(d), g.first, Waited(d, g));
      ok := !goFails;
    }

    /** Disconnect from the end of its wait on. */
    method PastGate(ghost d: nat, g: Gaps) returns (graceful: bool)
      requires Valid() && Path(model, Waited(d, g))
      modifies this
      ensures Valid() && trace == old(trace) + Waited(d, g)
      ensures closing && pending == 0 && (graceful ==> !old(ended)) && (!graceful ==> ended)
    {
      PathHead(model, WaitOver(d), g.second + ([LoadEnded(d)] + GoCall(d, g)));
      Elsewhere(WaitOver(d));
      Others(g.second, [LoadEnded(d)] + GoCall(d, g), 0, Ok);
      graceful := Choose(d, g);
      CallGo(d, g);
      Grown(old(trace), WaitOver(d), g.second, [LoadEnded(d)] + GoCall(d, g));
    }

    /** unsubs.Wait: others go on until nothing is pending. */
    method Await(ghost d: nat, g: Gaps)
      requires Valid() && Path(model, g.first + Waited(d, g))
      modifies this
      ensures Valid() && pending == 0 && trace == old(trace) + g.first && Path(model, Waited(d, g))
      ensures old(ended) ==> ended
    {
      Others(g.first, Waited(d, g), 0, Ok);
      PathHead(model, WaitOver(d), g.second + ([LoadEnded(d)] + GoCall(d, g)));
    }

    /** The choice of the go-stomp call: graceful exactly when no end of the connection is reported by then. */
    method Choose(ghost d: nat, g: Gaps) returns (graceful: bool)
      requires Valid() && Path(model, [LoadEnded(d)] + GoCall(d, g))
      modifies this
      ensures Valid() && Path(model, GoCall(d, g))
      ensures trace + GoCall(d, g) == old(trace) + ([LoadEnded(d)] + GoCall(d, g))
      ensures closing && pending == 0 && ended == old(ended) && graceful == !ended
    {
      PathHead(model, LoadEnded(d), GoCall(d, g));
      ChoiceStep(model, d);
      graceful := !ended;
      Elsewhere(LoadEnded(d));
      Shut(trace, d);
      Grown(old(trace), LoadEnded(d), [], GoCall(d, g));
      assert [] + GoCall(d, g) == GoCall(d, g) && trace + [] == trace;
    }

    /** The call into go-stomp, with the gate closed. */
    method CallGo(ghost d: nat, g: Gaps)
      requires Valid() && Path(model, GoCall(d, g))
      modifies this
      ensures Valid() && trace == old(trace) + GoCall(d, g)
      ensures closing && pending == 0 && (old(ended) ==> ended)
    {
      PathHead(model, EnterDisconnect(d), g.third + ([ExitDisconnect(d)] + []));
      Elsewhere(EnterDisconnect(d));
      Others(g.third, [ExitDisconnect(d)] + [], 0, Ok);
      PathHead(model, ExitDisconnect(d), []);
      Elsewhere(ExitDisconnect(d));
      Grown(old(trace), EnterDisconnect(d), g.third, [ExitDisconnect(d)] + []);
      Shut(trace, d);
    }
  }
}
