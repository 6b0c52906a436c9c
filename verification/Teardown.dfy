/** The end of the credential connection: a background goroutine runs the two teardown steps while the
    caller waits for it or for the context, and fetchToken's deferred function turns what came back into
    the result.  The context's becoming done and the start of the close it triggers are one step. */
module Teardown {
  import opened Prelude

  /** The teardown errors of the two steps; none of both is a nil step error. */
  datatype Steps = Steps(uerr: Option<string>, derr: Option<string>) {
    predicate IsNil() { uerr.None? && derr.None? }
  }

  /** Why the body of fetchToken failed. */
  datatype Why =
    | NonceFailed | SubscribeFailed | SendFailed | BlankToken | ReplyError(cause: string) | ClosedEarly | Cancelled

  /** What the body of fetchToken ended with. */
  datatype Body = Token(text: string) | BodyError(why: Why)

  /** Where the background goroutine stands. */
  datatype Background =
    | CheckUnsubscribe
    | Unsubscribing
    | CheckDisconnect
    | Disconnecting
    | Record           // steps over, results not yet stored
    | Recorded         // results stored, stop() not yet called
    | Stopped          // the context no longer closes the transport, done not yet closed
    | Finished         // done closed

  /** Where the caller stands. */
  datatype Main =
    | Waiting
    | SawContext                                     // took the ctx.Done branch of the outer select
    | Returned(steps: Steps, ctxErr: bool)           // endCredentialConn has returned
    | Ended                                          // the deferred function has run

  /** What fetchToken returns. */
  datatype Result = Got(text: string) | Failed(why: Why) | TeardownFailed(steps: Steps)

  datatype LogLine = LogLine(steps: Steps, tokenReceived: bool)

  /** The context and the transport: whether the close on ctx is registered, whether the transport is
      closed, and whether the context became done only between stop() and close(done). */
  datatype Net = Net(ctxDone: bool, armed: bool, closed: bool, late: bool)

  datatype Bg = Bg(at: Background, steps: Steps, ctxSeen: bool, ranUnsub: bool, ranDisc: bool)

  /** `gaveUp`: the caller left by the default branch of the inner select. */
  datatype Fg = Fg(at: Main, gaveUp: bool, result: Option<Result>, log: seq<LogLine>)

  datatype State = State(body: Body, hasSub: bool, net: Net, bg: Bg, fg: Fg)

  datatype Action =
    | CtxDone
    | BgCheckUnsubscribe
    | BgUnsubscribed(err: Option<string>)
    | BgCheckDisconnect
    | BgDisconnected(err: Option<string>)
    | BgRecord
    | BgStop
    | BgCloseDone
    | MainSelectDone
    | MainSelectCtx
    | MainInnerDone
    | MainInnerDefault
    | MainDefer

  /** endCredentialConn has set everything up; a context done before that closes the transport at once. */
  function Init(body: Body, hasSub: bool, ctxDone: bool): (s: State) {
    State(body, hasSub, Net(ctxDone, !ctxDone, ctxDone, false),
          Bg(CheckUnsubscribe, Steps(None, None), false, false, false), Fg(Waiting, false, None, []))
  }

  predicate Enabled(s: State, a: Action) {
    match a
    case CtxDone => !s.net.ctxDone
    case BgCheckUnsubscribe => s.bg.at.CheckUnsubscribe?
    case BgUnsubscribed(_) => s.bg.at.Unsubscribing?
    case BgCheckDisconnect => s.bg.at.CheckDisconnect?
    case BgDisconnected(_) => s.bg.at.Disconnecting?
    case BgRecord => s.bg.at.Record?
    case BgStop => s.bg.at.Recorded?
    case BgCloseDone => s.bg.at.Stopped?
    case MainSelectDone => s.fg.at.Waiting? && s.bg.at.Finished?
    case MainSelectCtx => s.fg.at.Waiting? && s.net.ctxDone
    case MainInnerDone => s.fg.at.SawContext? && s.bg.at.Finished?
    case MainInnerDefault => s.fg.at.SawContext? && !s.bg.at.Finished?
    case MainDefer => s.fg.at.Returned?
  }

  /** The background goroutine. */
  function NextBg(b: Bg, hasSub: bool, ctxDone: bool, a: Action): (b': Bg) {
    match a
    case BgCheckUnsubscribe => b.(at := if hasSub && !ctxDone then Unsubscribing else CheckDisconnect)
    case BgUnsubscribed(e) => b.(at := CheckDisconnect, ranUnsub := true, steps := b.steps.(uerr := e))
    case BgCheckDisconnect => b.(at := if !ctxDone then Disconnecting else Record)
    case BgDisconnected(e) => b.(at := Record, ranDisc := true, steps := b.steps.(derr := e))
    case BgRecord => b.(at := Recorded, ctxSeen := ctxDone)
    case BgStop => b.(at := Stopped)
    case BgCloseDone => b.(at := Finished)
    case _ => b
  }

  /** The deferred function of fetchToken: its result and its log. */
  function Deferred(body: Body, st: Steps, ctxErr: bool): (r: (Result, seq<LogLine>)) {
    match body
    case Token(t) =>
      if ctxErr then (TeardownFailed(st), []) else (Got(t), if st.IsNil() then [] else [LogLine(st, true)])
    case BodyError(e) => (Failed(e), if st.IsNil() then [] else [LogLine(st, false)])
  }

  /** The caller. */
  function NextFg(f: Fg, b: Bg, body: Body, a: Action): (f': Fg) {
    match a
    case MainSelectDone => f.(at := Returned(b.steps, b.ctxSeen))
    case MainSelectCtx => f.(at := SawContext)
    case MainInnerDone => f.(at := Returned(b.steps, b.ctxSeen))
    case MainInnerDefault => f.(at := Returned(Steps(None, None), true), gaveUp := true)
    case MainDefer =>
      if f.at.Returned? then
        var (r, l) := Deferred(body, f.at.steps, f.at.ctxErr);
        f.(at := Ended, result := Some(r), log := f.log + l)
      else f
    case _ => f
  }

  /** The context and the transport; the deferred function closes it after a failed step on a live context. */
  function NextNet(n: Net, b: Bg, f: Fg, a: Action): (n': Net) {
    match a
    case CtxDone => Net(true, false, n.closed || n.armed, b.at.Stopped?)
    case BgStop => n.(armed := false)
    case MainDefer =>
      if f.at.Returned? && !f.at.steps.IsNil() && !f.at.ctxErr then n.(closed := true) else n
    case _ => n
  }

  function Step(s: State, a: Action): (t: State)
    requires Enabled(s, a)
  {
    State(s.body, s.hasSub, NextNet(s.net, s.bg, s.fg, a), NextBg(s.bg, s.hasSub, s.net.ctxDone, a),
          NextFg(s.fg, s.bg, s.body, a))
  }

  predicate Legal(s0: State, acts: seq<Action>)
    decreases |acts|, 0
  {
    acts == [] ||
    (Legal(s0, acts[..|acts|-1]) && Enabled(Exec(s0, acts[..|acts|-1]), acts[|acts|-1]))
  }

  function Exec(s0: State, acts: seq<Action>): (s: State)
    requires Legal(s0, acts)
    decreases |acts|, 1
  {
    if acts == [] then s0 else Step(Exec(s0, acts[..|acts|-1]), acts[|acts|-1])
  }

  predicate BeforeDisconnect(b: Background) {
    b.CheckUnsubscribe? || b.Unsubscribing? || b.CheckDisconnect? || b.Disconnecting?
  }

  predicate Stored(b: Background) { b.Recorded? || b.Stopped? || b.Finished? }

  /** Which steps have run, and what the background goroutine knows of the context. */
  predicate BgOk(b: Bg, hasSub: bool, ctxDone: bool) {
    && (b.at.CheckUnsubscribe? || b.at.Unsubscribing? ==> !b.ranUnsub)
    && (!b.ranUnsub ==> b.steps.uerr.None?)
    && (!b.ranDisc ==> b.steps.derr.None?)
    && (BeforeDisconnect(b.at) ==> !b.ranDisc)
    && (!BeforeDisconnect(b.at) && !b.ranDisc ==> ctxDone)
    && (hasSub && !b.at.CheckUnsubscribe? && !b.at.Unsubscribing? && !b.ranUnsub ==> ctxDone)
    && (b.at.Disconnecting? || b.ranDisc ==> hasSub ==> b.ranUnsub)
    && (b.ctxSeen ==> Stored(b.at) && ctxDone)
    && (!b.ctxSeen && Stored(b.at) ==> b.ranDisc)
  }

  predicate FgOk(f: Fg, b: Bg, body: Body, ctxDone: bool) {
    && (!f.at.Ended? ==> f.result.None? && f.log == [])
    && (f.at.SawContext? ==> ctxDone)
    && (f.gaveUp ==> ctxDone && (f.at.Returned? || f.at.Ended?))
    && (f.at.Returned? ==> f.at == Returned(ReturnedSteps(f, b), f.gaveUp || b.ctxSeen))
    && ((f.at.Returned? || f.at.Ended?) && !f.gaveUp ==> b.at.Finished?)
    && (f.at.Ended? ==>
          && f.result == Some(Deferred(body, ReturnedSteps(f, b), f.gaveUp || b.ctxSeen).0)
          && f.log == Deferred(body, ReturnedSteps(f, b), f.gaveUp || b.ctxSeen).1)
  }

  /** The steps that endCredentialConn returned, from what is left after it. */
  function ReturnedSteps(f: Fg, b: Bg): (st: Steps) { if f.gaveUp then Steps(None, None) else b.steps }

  /** What is known of the transport: a context done before stop() has closed it. */
  predicate NetOk(n: Net, b: Bg, f: Fg) {
    && (n.armed <==> !n.ctxDone && !b.at.Stopped? && !b.at.Finished?)
    && (n.ctxDone && !n.late && !b.at.Finished? ==> n.closed)
    && (n.late ==> n.ctxDone && (b.at.Stopped? || b.at.Finished?))
    && (b.ctxSeen ==> n.closed && !n.late)
    && (!BeforeDisconnect(b.at) && !b.ranDisc ==> n.closed)
    && (!n.ctxDone && n.closed ==> f.at.Ended? && b.at.Finished?)
    && (n.late && n.closed ==> f.at.Ended? && !f.gaveUp)
    && (f.gaveUp && !n.late ==> n.closed)
    && (f.at.Ended? && !f.gaveUp && !b.steps.IsNil() ==> n.closed)
  }

  predicate Inv(s: State) {
    BgOk(s.bg, s.hasSub, s.net.ctxDone) && FgOk(s.fg, s.bg, s.body, s.net.ctxDone) && NetOk(s.net, s.bg, s.fg)
  }

  lemma BgStep(s: State, a: Action)
    requires Inv(s) && Enabled(s, a)
    ensures BgOk(Step(s, a).bg, s.hasSub, Step(s, a).net.ctxDone)
  {
  }

  lemma FgStep(s: State, a: Action)
    requires Inv(s) && Enabled(s, a)
    ensures FgOk(Step(s, a).fg, Step(s, a).bg, s.body, Step(s, a).net.ctxDone)
  {
    if a.MainDefer? {
      var l := Deferred(s.body, s.fg.at.steps, s.fg.at.ctxErr).1;
      assert s.fg.log + l == l;
    }
  }

  lemma NetStep(s: State, a: Action)
    requires Inv(s) && Enabled(s, a)
    ensures NetOk(Step(s, a).net, Step(s, a).bg, Step(s, a).fg)
  {
  }

  lemma {:induction false} InvAlways(body: Body, hasSub: bool, ctxDone: bool, acts: seq<Action>)
    requires Legal(Init(body, hasSub, ctxDone), acts)
    ensures var s := Exec(Init(body, hasSub, ctxDone), acts); Inv(s) && s.body == body && s.hasSub == hasSub
  {
    if acts != [] {
      var n := |acts| - 1;
      InvAlways(body, hasSub, ctxDone, acts[..n]);
      var s := Exec(Init(body, hasSub, ctxDone), acts[..n]);
      BgStep(s, acts[n]);
      FgStep(s, acts[n]);
      NetStep(s, acts[n]);
    }
  }

  /** fetchToken returns a token only if the teardown finished with the context still live after its last
      step; so Unsubscribe, when there was a subscription, and then Disconnect both ran. */
  lemma {:induction false} TokenOnlyAfterTeardown(body: Body, hasSub: bool, ctxDone: bool, acts: seq<Action>)
    requires Legal(Init(body, hasSub, ctxDone), acts)
    requires var o := Exec(Init(body, hasSub, ctxDone), acts).fg.result; o.Some? && o.value.Got?
    ensures var s := Exec(Init(body, hasSub, ctxDone), acts);
      && body == Token(s.fg.result.value.text)
      && s.bg.at.Finished? && !s.bg.ctxSeen && s.bg.ranDisc && (hasSub ==> s.bg.ranUnsub)
  {
    InvAlways(body, hasSub, ctxDone, acts);
  }

  /** Disconnect is entered only after the Unsubscribe step ran or there was nothing to unsubscribe. */
  lemma {:induction false} UnsubscribeFirst(body: Body, hasSub: bool, ctxDone: bool, acts: seq<Action>)
    requires Legal(Init(body, hasSub, ctxDone), acts) && Exec(Init(body, hasSub, ctxDone), acts).bg.at.Disconnecting?
    ensures hasSub ==> Exec(Init(body, hasSub, ctxDone), acts).bg.ranUnsub
  {
    InvAlways(body, hasSub, ctxDone, acts);
  }

  /** An error of the body is never overwritten. */
  lemma {:induction false} BodyErrorKept(why: Why, hasSub: bool, ctxDone: bool, acts: seq<Action>)
    requires Legal(Init(BodyError(why), hasSub, ctxDone), acts)
    requires Exec(Init(BodyError(why), hasSub, ctxDone), acts).fg.at.Ended?
    ensures Exec(Init(BodyError(why), hasSub, ctxDone), acts).fg.result == Some(Failed(why))
  {
    InvAlways(BodyError(why), hasSub, ctxDone, acts);
  }

  /** The step error endCredentialConn returned is reported exactly once: logged, or wrapped in the
      result, never both; and nothing else is logged or wrapped. */
  lemma {:induction false} StepErrorReportedOnce(body: Body, hasSub: bool, ctxDone: bool, acts: seq<Action>)
    requires Legal(Init(body, hasSub, ctxDone), acts) && Exec(Init(body, hasSub, ctxDone), acts).fg.at.Returned?
    ensures var s := Exec(Init(body, hasSub, ctxDone), acts);
      var s', st := Step(s, MainDefer), s.fg.at.steps;
      var logged := s'.fg.log == [LogLine(st, body.Token?)];
      var wrapped := s'.fg.result == Some(TeardownFailed(st));
      && (!st.IsNil() ==> (logged <==> !wrapped))
      && (st.IsNil() ==> s'.fg.log == [])
      && (!logged ==> s'.fg.log == [])
      && (wrapped <==> s.fg.at.ctxErr && body.Token?)
      && (s'.fg.result.value.TeardownFailed? ==> wrapped)
  {
    InvAlways(body, hasSub, ctxDone, acts);
  }

  /** In the run, the context was done when the background goroutine recorded its results. */
  predicate RecordedDone(s0: State, acts: seq<Action>)
    requires Legal(s0, acts)
  {
    acts != [] && var n := |acts| - 1;
    RecordedDone(s0, acts[..n]) || (acts[n].BgRecord? && Exec(s0, acts[..n]).net.ctxDone)
  }

  lemma {:induction false} ContextHistory(body: Body, hasSub: bool, ctxDone: bool, acts: seq<Action>)
    requires Legal(Init(body, hasSub, ctxDone), acts)
    ensures Exec(Init(body, hasSub, ctxDone), acts).net.ctxDone <==> ctxDone || CtxDone in acts
    ensures Exec(Init(body, hasSub, ctxDone), acts).bg.ctxSeen <==> RecordedDone(Init(body, hasSub, ctxDone), acts)
  {
    if acts != [] {
      var n := |acts| - 1;
      ContextHistory(body, hasSub, ctxDone, acts[..n]);
      InvAlways(body, hasSub, ctxDone, acts[..n]);
      assert acts == acts[..n] + [acts[n]];
      ContextFrame(Exec(Init(body, hasSub, ctxDone), acts[..n]), acts[n]);
    }
  }

  lemma ContextFrame(s: State, a: Action)
    requires Inv(s) && Enabled(s, a)
    ensures Step(s, a).net.ctxDone <==> s.net.ctxDone || a.CtxDone?
    ensures Step(s, a).bg.ctxSeen <==> s.bg.ctxSeen || (a.BgRecord? && s.net.ctxDone)
  {
  }

  /** The result of fetchToken, for every schedule.  A token that arrived is returned if and only if the caller did
      not leave early and the context was live when the results were recorded, whether or not a step failed;
      otherwise the token is given up for a teardown error.  A body that failed keeps its own error. */
  lemma {:induction false} ResultExactly(body: Body, hasSub: bool, ctxDone: bool, acts: seq<Action>)
    requires Legal(Init(body, hasSub, ctxDone), acts) && Exec(Init(body, hasSub, ctxDone), acts).fg.at.Ended?
    ensures var s0 := Init(body, hasSub, ctxDone); var s := Exec(s0, acts);
      && s.fg.result.Some?
      && (forall t :: s.fg.result == Some(Got(t)) <==>
            body == Token(t) && MainInnerDefault !in acts && !RecordedDone(s0, acts))
      && (forall why :: s.fg.result == Some(Failed(why)) <==> body == BodyError(why))
      && (s.fg.result.value.TeardownFailed? <==>
            body.Token? && (MainInnerDefault in acts || RecordedDone(s0, acts)))
  {
    InvAlways(body, hasSub, ctxDone, acts);
    ContextHistory(body, hasSub, ctxDone, acts);
    RaceIs(body, hasSub, ctxDone, acts);
  }

  /** No step is entered on a context already done at its check, and each one is on a live context: Unsubscribe if
      there is a subscription, Disconnect always. */
  lemma {:induction false} StepsNeedLiveContext(body: Body, hasSub: bool, ctxDone: bool, acts: seq<Action>, a: Action)
    requires Legal(Init(body, hasSub, ctxDone), acts) && Enabled(Exec(Init(body, hasSub, ctxDone), acts), a)
    ensures var s := Exec(Init(body, hasSub, ctxDone), acts); var s' := Step(s, a);
      var live := !ctxDone && CtxDone !in acts;
      && (a.BgCheckUnsubscribe? ==>
            s'.bg.at == (if hasSub && live then Unsubscribing else CheckDisconnect))
      && (a.BgCheckDisconnect? ==> s'.bg.at == (if live then Disconnecting else Record))
      && (s'.bg.at.Unsubscribing? && !s.bg.at.Unsubscribing? ==> live && hasSub)
      && (s'.bg.at.Disconnecting? && !s.bg.at.Disconnecting? ==> live)
  {
    InvAlways(body, hasSub, ctxDone, acts);
    ContextHistory(body, hasSub, ctxDone, acts);
  }

  /** In the run, a teardown step returned this error. */
  predicate StepFailed(acts: seq<Action>, e: string) {
    BgUnsubscribed(Some(e)) in acts || BgDisconnected(Some(e)) in acts
  }

  predicate Mentions(st: Steps, e: string) { st.uerr == Some(e) || st.derr == Some(e) }

  predicate Logged(f: Fg, e: string) { exists i :: 0 <= i < |f.log| && Mentions(f.log[i].steps, e) }

  predicate Wrapped(f: Fg, e: string) {
    f.result.Some? && f.result.value.TeardownFailed? && Mentions(f.result.value.steps, e)
  }

  /** The background goroutine has the errors of the steps it ran. */
  lemma {:induction false} StepHistory(body: Body, hasSub: bool, ctxDone: bool, acts: seq<Action>, e: string)
    requires Legal(Init(body, hasSub, ctxDone), acts)
    ensures var st := Exec(Init(body, hasSub, ctxDone), acts).bg.steps;
      && (st.uerr == Some(e) <==> BgUnsubscribed(Some(e)) in acts)
      && (st.derr == Some(e) <==> BgDisconnected(Some(e)) in acts)
  {
    if acts != [] {
      var n := |acts| - 1;
      StepHistory(body, hasSub, ctxDone, acts[..n], e);
      InvAlways(body, hasSub, ctxDone, acts[..n]);
      assert acts == acts[..n] + [acts[n]];
      StepFrame(Exec(Init(body, hasSub, ctxDone), acts[..n]), acts[n], e);
    }
  }

  lemma StepFrame(s: State, a: Action, e: string)
    requires Inv(s) && Enabled(s, a)
    ensures Step(s, a).bg.steps.uerr == Some(e) <==> s.bg.steps.uerr == Some(e) || a == BgUnsubscribed(Some(e))
    ensures Step(s, a).bg.steps.derr == Some(e) <==> s.bg.steps.derr == Some(e) || a == BgDisconnected(Some(e))
  {
  }

  /** Over the whole run: when fetchToken returns, every error of a teardown step has been logged or wrapped in the
      result, and not both, unless the caller left before the goroutine was through; then none has.  Nothing
      else is logged or wrapped. */
  lemma {:induction false} StepErrorsReported(body: Body, hasSub: bool, ctxDone: bool, acts: seq<Action>, e: string)
    requires Legal(Init(body, hasSub, ctxDone), acts) && Exec(Init(body, hasSub, ctxDone), acts).fg.at.Ended?
    ensures var f := Exec(Init(body, hasSub, ctxDone), acts).fg;
      && f.result.Some?
      && (Logged(f, e) || Wrapped(f, e) <==> StepFailed(acts, e) && MainInnerDefault !in acts)
      && !(Logged(f, e) && Wrapped(f, e)) && |f.log| <= 1
      && (f.log != [] ==>
            && (f.log[0].steps.uerr == Some(e) <==> BgUnsubscribed(Some(e)) in acts)
            && (f.log[0].steps.derr == Some(e) <==> BgDisconnected(Some(e)) in acts)
            && f.log[0].tokenReceived == body.Token?)
      && (f.result.value.TeardownFailed? && MainInnerDefault !in acts ==>
            && (f.result.value.steps.uerr == Some(e) <==> BgUnsubscribed(Some(e)) in acts)
            && (f.result.value.steps.derr == Some(e) <==> BgDisconnected(Some(e)) in acts))
  {
    InvAlways(body, hasSub, ctxDone, acts);
    StepHistory(body, hasSub, ctxDone, acts, e);
    RaceIs(body, hasSub, ctxDone, acts);
    var s := Exec(Init(body, hasSub, ctxDone), acts);
    var st := ReturnedSteps(s.fg, s.bg);
    assert Mentions(st, e) ==> !st.IsNil();
    assert s.fg.log != [] ==> s.fg.log[0].steps == st;
    assert Logged(s.fg, e) <==> s.fg.log != [] && Mentions(s.fg.log[0].steps, e);
  }

  /** The credential transport is closed or was gracefully disconnected. */
  predicate TransportEnded(s: State) { s.net.closed || (s.bg.ranDisc && s.bg.steps.derr.None?) }

  /** Both goroutines are through: the transport has ended, except when Disconnect failed and the
      context became done between stop() and close(done), with the caller leaving before the latter. */
  lemma {:induction false} TransportEndedExactly(body: Body, hasSub: bool, ctxDone: bool, acts: seq<Action>)
    requires Legal(Init(body, hasSub, ctxDone), acts)
    requires var s := Exec(Init(body, hasSub, ctxDone), acts); s.fg.at.Ended? && s.bg.at.Finished?
    ensures var s := Exec(Init(body, hasSub, ctxDone), acts);
      TransportEnded(s) <==> !(s.fg.gaveUp && s.net.late && s.bg.steps.derr.Some?)
  {
    InvAlways(body, hasSub, ctxDone, acts);
  }

  /** In the run, the context became done between stop() and close(done). */
  predicate LateDuring(s0: State, acts: seq<Action>)
    requires Legal(s0, acts)
  {
    acts != [] && var n := |acts| - 1;
    LateDuring(s0, acts[..n]) || (acts[n].CtxDone? && Exec(s0, acts[..n]).bg.at.Stopped?)
  }

  /** The two flags of the race say what happened in the run, and nothing more. */
  lemma {:induction false} RaceIs(body: Body, hasSub: bool, ctxDone: bool, acts: seq<Action>)
    requires Legal(Init(body, hasSub, ctxDone), acts)
    ensures var s0 := Init(body, hasSub, ctxDone);
      && (Exec(s0, acts).net.late <==> LateDuring(s0, acts))
      && (Exec(s0, acts).fg.gaveUp <==> MainInnerDefault in acts)
  {
    if acts != [] {
      var n := |acts| - 1;
      var s0 := Init(body, hasSub, ctxDone);
      RaceIs(body, hasSub, ctxDone, acts[..n]);
      InvAlways(body, hasSub, ctxDone, acts[..n]);
      assert acts == acts[..n] + [acts[n]];
      assert acts[n].CtxDone? ==> !Exec(s0, acts[..n]).net.late;
    }
  }

  /** The first half of the run below: Disconnect fails on a live context and stop() is called. */
  lemma DisconnectFails(text: string, cause: string) returns (acts: seq<Action>)
    ensures Legal(Init(Token(text), true, false), acts)
    ensures Exec(Init(Token(text), true, false), acts)
      == State(Token(text), true, Net(false, false, false, false),
               Bg(Stopped, Steps(None, Some(cause)), false, true, true), Fg(Waiting, false, None, []))
  {
    var s0 := Init(Token(text), true, false);
    acts := [];
    acts := Then(s0, acts, BgCheckUnsubscribe);
    acts := Then(s0, acts, BgUnsubscribed(None));
    acts := Then(s0, acts, BgCheckDisconnect);
    acts := Then(s0, acts, BgDisconnected(Some(cause)));
    acts := Then(s0, acts, BgRecord);
    acts := Then(s0, acts, BgStop);
  }

  /** The run of the exception: the failed Disconnect is neither logged nor followed by a close. */
  lemma TransportLeftOpen(text: string, cause: string) returns (acts: seq<Action>)
    ensures Legal(Init(Token(text), true, false), acts)
    ensures var s := Exec(Init(Token(text), true, false), acts);
      && s.fg.at.Ended? && s.bg.at.Finished? && !TransportEnded(s)
      && s.bg.steps.derr == Some(cause) && s.fg.log == [] && s.fg.result == Some(TeardownFailed(Steps(None, None)))
  {
    var s0 := Init(Token(text), true, false);
    acts := DisconnectFails(text, cause);
    acts := Then(s0, acts, CtxDone);
    acts := Then(s0, acts, MainSelectCtx);
    acts := Then(s0, acts, MainInnerDefault);
    acts := Then(s0, acts, BgCloseDone);
    acts := Then(s0, acts, MainDefer);
  }

  lemma Then(s0: State, acts: seq<Action>, a: Action) returns (more: seq<Action>)
    requires Legal(s0, acts) && Enabled(Exec(s0, acts), a)
    ensures more == acts + [a] && Legal(s0, more) && Exec(s0, more) == Step(Exec(s0, acts), a)
  {
    more := acts + [a];
    assert more[..|acts|] == acts;
  }

  /** Steps still to come. */
  function Rank(s: State): (n: nat) {
    (match s.bg.at
     case CheckUnsubscribe => 7 case Unsubscribing => 6 case CheckDisconnect => 5 case Disconnecting => 4
     case Record => 3 case Recorded => 2 case Stopped => 1 case Finished => 0)
    + (match s.fg.at case Waiting => 3 case SawContext => 2 case Returned(_, _) => 1 case Ended => 0)
    + (if s.net.ctxDone then 0 else 1)
  }

  lemma RankFalls(s: State, a: Action)
    requires Enabled(s, a)
    ensures Rank(Step(s, a)) < Rank(s)
  {
  }

  /** Every schedule ends within eleven steps; with SomethingMoves, it ends with a result and with the
      background goroutine done. */
  lemma {:induction false} EveryScheduleEnds(s0: State, acts: seq<Action>)
    requires Legal(s0, acts)
    ensures |acts| + Rank(Exec(s0, acts)) <= Rank(s0)
  {
    if acts != [] {
      var n := |acts| - 1;
      EveryScheduleEnds(s0, acts[..n]);
      RankFalls(Exec(s0, acts[..n]), acts[n]);
    }
  }

  lemma {:induction false} SomethingMoves(body: Body, hasSub: bool, ctxDone: bool, acts: seq<Action>)
    requires Legal(Init(body, hasSub, ctxDone), acts)
    requires var s := Exec(Init(body, hasSub, ctxDone), acts); !(s.fg.at.Ended? && s.bg.at.Finished?)
    ensures exists a: Action :: !a.CtxDone? && Enabled(Exec(Init(body, hasSub, ctxDone), acts), a)
  {
    var s := Exec(Init(body, hasSub, ctxDone), acts);
    InvAlways(body, hasSub, ctxDone, acts);
    var a := match s.bg.at
      case CheckUnsubscribe => BgCheckUnsubscribe
      case Unsubscribing => BgUnsubscribed(None)
      case CheckDisconnect => BgCheckDisconnect
      case Disconnecting => BgDisconnected(None)
      case Record => BgRecord
      case Recorded => BgStop
      case Stopped => BgCloseDone
      case Finished =>
        (match s.fg.at
         case Waiting => MainSelectDone
         case SawContext => MainInnerDone
         case _ => MainDefer);
    assert Enabled(s, a);
  }
}
