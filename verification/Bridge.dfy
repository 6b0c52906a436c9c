/** The subscription bridge: forwards go-stomp's messages until the subscription ends, is unsubscribed
    or its context is done, closes its output once, and drains its source to the end. */
module Bridge {
  /** What go-stomp delivers; `errorFrame` tells an ERROR frame from an error raised locally. */
  datatype Src = Message(body: string, destination: string) | Failure(cause: string, errorFrame: bool)

  datatype Out = OutMsg(body: string, destination: string) | OutErr(cause: string)

  function Convert(m: Src): (o: Out) {
    match m case Message(b, d) => OutMsg(b, d) case Failure(c, _) => OutErr(c)
  }

  predicate EndsConn(m: Src) { m.Failure? && m.errorFrame }

  predicate HasFailure(src: seq<Src>) {
    src != [] && (HasFailure(src[..|src|-1]) || src[|src|-1].Failure?)
  }

  predicate HasErrorFrame(src: seq<Src>) {
    src != [] && (HasErrorFrame(src[..|src|-1]) || EndsConn(src[|src|-1]))
  }

  /** The converted source, cut after its first error: all a subscriber may ever see. */
  function Cut(src: seq<Src>): (out: seq<Out>) {
    if src == [] then []
    else
      var before := src[..|src|-1];
      if HasFailure(before) then Cut(before) else Cut(before) + [Convert(src[|src|-1])]
  }

  /** Cut by its first error: the source up to there, one for one.  A message is passed on with its body and
      its destination, an error with its cause. */
  lemma {:induction false} CutIs(src: seq<Src>, n: nat)
    requires n <= |src| && (forall i :: 0 <= i < n ==> !src[i].Failure?) && (n < |src| ==> src[n].Failure?)
    ensures |Cut(src)| == if n < |src| then n + 1 else n
    ensures forall i :: 0 <= i < n ==> Cut(src)[i] == OutMsg(src[i].body, src[i].destination)
    ensures n < |src| ==> Cut(src)[n] == OutErr(src[n].cause)
    ensures HasFailure(src) <==> n < |src|
  {
    if src != [] {
      var m := |src| - 1;
      CutIs(src[..m], if n < m then n else m);
    }
  }

  lemma {:induction false} FirstFailure(src: seq<Src>) returns (n: nat)
    ensures n <= |src| && (forall i :: 0 <= i < n ==> !src[i].Failure?) && (n < |src| ==> src[n].Failure?)
  {
    if src == [] {
      n := 0;
    } else {
      n := FirstFailure(src[..|src|-1]);
      if n == |src| - 1 && !src[n].Failure? {
        n := n + 1;
      }
    }
  }

  /** The output is a beginning of the source, in the source's own terms: a message with its body and its
      destination, an error with its cause, and nothing after the first error. */
  predicate Mirrors(src: seq<Src>, out: seq<Out>) {
    && |out| <= |src|
    && (forall i :: 0 <= i < |out| && src[i].Message? ==> out[i] == OutMsg(src[i].body, src[i].destination))
    && (forall i :: 0 <= i < |out| && src[i].Failure? ==> out[i] == OutErr(src[i].cause) && i == |out| - 1)
  }

  /** And all of it: to the source's end, or to its first error. */
  predicate MirrorsAll(src: seq<Src>, out: seq<Out>) {
    Mirrors(src, out) && (|out| == |src| || (out != [] && src[|out| - 1].Failure?))
  }

  lemma PrefixIs(src: seq<Src>, out: seq<Out>)
    requires out <= Cut(src)
    ensures Mirrors(src, out) && (out == Cut(src) ==> MirrorsAll(src, out))
  {
    var n := FirstFailure(src);
    CutIs(src, n);
    forall i | 0 <= i < |out|
      ensures out[i] == Cut(src)[i] && (src[i].Failure? ==> i == n)
    {
    }
  }

  /** An ERROR frame that go-stomp delivered, anywhere in the source. */
  lemma {:induction false} ErrorFrameIs(src: seq<Src>)
    ensures HasErrorFrame(src) <==> exists i :: 0 <= i < |src| && src[i].Failure? && src[i].errorFrame
  {
    if src != [] {
      var n := |src| - 1;
      ErrorFrameIs(src[..n]);
      if i :| 0 <= i < |src| && src[i].Failure? && src[i].errorFrame {
        assert i < n ==> src[..n][i] == src[i];
      }
    }
  }

  lemma {:induction false} CutConcat(a: seq<Src>, b: seq<Src>)
    ensures Cut(a) <= Cut(a + b)
    ensures HasFailure(a) ==> HasFailure(a + b) && Cut(a + b) == Cut(a)
  {
    if b == [] {
      assert a + b == a;
    } else {
      var n := |b| - 1;
      CutConcat(a, b[..n]);
      assert (a + b)[..|a| + n] == a + b[..n];
    }
  }

  datatype Phase = Selecting | Sending(m: Src) | Returned

  /** `open` is out != nil; `stop` and `ctxDone` say that the channel is closed or the context done;
      `fed` and `taken` are the source's past. */
  datatype State = State(
    open: bool, phase: Phase, queue: seq<Src>, srcClosed: bool, ctxDone: bool, stop: bool,
    fed: seq<Src>, taken: seq<Src>, delivered: seq<Out>, closes: nat, launches: nat, marked: bool)

  datatype Action =
    // go-stomp, the context, and Unsubscribe
    | Feed(m: Src)
    | CloseSource
    | CtxDone
    | Stop
    // the bridge goroutine
    | Recv
    | RecvEnd
    | SelectDone
    | SelectStop
    | SendOut
    | SendDone
    | SendStop

  const INIT := State(true, Selecting, [], false, false, false, [], [], [], 0, 0, false)

  predicate Enabled(s: State, a: Action) {
    match a
    case Feed(_) => !s.srcClosed
    case CloseSource => !s.srcClosed
    case CtxDone => true
    case Stop => true
    case Recv => s.phase.Selecting? && s.queue != []
    case RecvEnd => s.phase.Selecting? && s.queue == [] && s.srcClosed
    case SelectDone => s.phase.Selecting? && s.open && s.ctxDone
    case SelectStop => s.phase.Selecting? && s.open && s.stop
    case SendOut => s.phase.Sending?
    case SendDone => s.phase.Sending? && s.ctxDone
    case SendStop => s.phase.Sending? && s.stop
  }

  function EndOut(s: State): (t: State) {
    if s.open then s.(open := false, closes := s.closes + 1) else s
  }

  function Step(s: State, a: Action): (t: State)
    requires Enabled(s, a)
  {
    match a
    case Feed(m) => s.(queue := s.queue + [m], fed := s.fed + [m])
    case CloseSource => s.(srcClosed := true)
    case CtxDone => s.(ctxDone := true)
    case Stop => s.(stop := true)
    case Recv =>
      var m := s.queue[0];
      s.(queue := s.queue[1..], taken := s.taken + [m], marked := s.marked || EndsConn(m),
         phase := if s.open then Sending(m) else Selecting)
    case RecvEnd => EndOut(s).(phase := Returned)
    case SelectDone => EndOut(s).(launches := s.launches + 1)
    case SelectStop => EndOut(s)
    case SendOut =>
      var s' := s.(delivered := s.delivered + [Convert(s.phase.m)], phase := Selecting);
      if s.phase.m.Failure? then EndOut(s') else s'
    case SendDone => EndOut(s).(launches := s.launches + 1, phase := Selecting)
    case SendStop => EndOut(s).(phase := Selecting)
  }

  predicate Legal(acts: seq<Action>)
    decreases |acts|, 0
  {
    acts == [] ||
    (Legal(acts[..|acts|-1]) && Enabled(Exec(acts[..|acts|-1]), acts[|acts|-1]))
  }

  function Exec(acts: seq<Action>): (s: State)
    requires Legal(acts)
    decreases |acts|, 1
  {
    if acts == [] then INIT else Step(Exec(acts[..|acts|-1]), acts[|acts|-1])
  }

  /** What was taken, without the message in hand. */
  function PassedOn(s: State): (src: seq<Src>) {
    if s.phase.Sending? && s.taken != [] then s.taken[..|s.taken|-1] else s.taken
  }

  predicate Control(s: State) {
    && s.closes == (if s.open then 0 else 1)
    && (s.phase.Sending? ==> s.open)
    && (s.phase.Returned? ==> !s.open && s.srcClosed && s.queue == [])
    && s.launches <= 1
    && (s.launches == 1 ==> s.ctxDone && !s.open)
  }

  /** Nothing of the source is lost, and an ERROR frame in what was taken has been reported. */
  predicate Accounted(s: State) {
    s.fed == s.taken + s.queue && (s.marked <==> HasErrorFrame(s.taken))
  }

  /** While open, everything taken has been passed on except the message in hand; once closed, a prefix
      of the cut source, and all of it unless a signal fired. */
  predicate Content(s: State) {
    if s.open then
      && (s.phase.Sending? ==> s.taken != [] && s.taken[|s.taken|-1] == s.phase.m)
      && !HasFailure(PassedOn(s)) && s.delivered == Cut(PassedOn(s))
    else
      && s.delivered <= Cut(s.taken)
      && (!s.ctxDone && !s.stop ==> s.delivered == Cut(s.taken) && (HasFailure(s.taken) || s.phase.Returned?))
  }

  lemma ControlStep(s: State, a: Action)
    requires Control(s) && Enabled(s, a)
    ensures Control(Step(s, a))
  {
  }

  lemma AccountedStep(s: State, a: Action)
    requires Accounted(s) && Enabled(s, a)
    ensures Accounted(Step(s, a))
  {
    if a.Recv? {
      RecvAccounted(s.taken, s.queue);
    } else if a.Feed? {
      assert s.fed + [a.m] == s.taken + (s.queue + [a.m]);
    }
  }

  lemma RecvAccounted(taken: seq<Src>, queue: seq<Src>)
    requires queue != []
    ensures taken + queue == (taken + [queue[0]]) + queue[1..]
    ensures HasErrorFrame(taken + [queue[0]]) <==> HasErrorFrame(taken) || EndsConn(queue[0])
  {
    assert (taken + [queue[0]])[..|taken|] == taken;
  }

  /** Passing on the message in hand completes the cut of what was taken. */
  lemma HandCompletes(s: State)
    requires Content(s) && s.open && s.phase.Sending?
    ensures Cut(s.taken) == s.delivered + [Convert(s.phase.m)]
    ensures HasFailure(s.taken) <==> s.phase.m.Failure?
  {
  }

  lemma OpenStep(s: State, a: Action)
    requires Control(s) && Content(s) && s.open && Enabled(s, a)
    ensures Content(Step(s, a))
  {
    if s.phase.Sending? {
      SendingStep(s, a);
    } else if a.Recv? {
      assert PassedOn(Step(s, a)) == s.taken;
    } else {
      assert Step(s, a).taken == s.taken && PassedOn(s) == s.taken;
    }
  }

  lemma SendingStep(s: State, a: Action)
    requires Control(s) && Content(s) && s.phase.Sending? && Enabled(s, a)
    ensures Content(Step(s, a))
  {
    HandCompletes(s);
    var s' := Step(s, a);
    assert s'.taken == s.taken;
    if s'.phase.Sending? {
      assert PassedOn(s') == PassedOn(s);
    }
  }

  lemma ClosedStep(s: State, a: Action)
    requires Control(s) && Content(s) && !s.open && Enabled(s, a)
    ensures Content(Step(s, a))
  {
    if a.Recv? {
      var taken := s.taken + [s.queue[0]];
      TakeOne(taken, |s.taken|);
      assert taken[..|s.taken|] == s.taken && taken[..|taken|] == taken;
    }
  }

  lemma {:induction false} InvAlways(acts: seq<Action>)
    requires Legal(acts)
    ensures Control(Exec(acts)) && Accounted(Exec(acts)) && Content(Exec(acts))
  {
    if acts != [] {
      var n := |acts| - 1;
      var s := Exec(acts[..n]);
      InvAlways(acts[..n]);
      ControlStep(s, acts[n]);
      AccountedStep(s, acts[n]);
      if s.open {
        OpenStep(s, acts[n]);
      } else {
        ClosedStep(s, acts[n]);
      }
    }
  }

  /** For every source and every schedule, what was delivered is a prefix of the source cut after its
      first error, in order and without gaps; and all of that once the bridge returned, if neither the
      context nor Unsubscribe fired. */
  lemma {:induction false} DeliversPrefix(acts: seq<Action>)
    requires Legal(acts)
    ensures Exec(acts).delivered <= Cut(Exec(acts).fed)
    ensures Exec(acts).phase.Returned? && !Exec(acts).ctxDone && !Exec(acts).stop ==>
      Exec(acts).delivered == Cut(Exec(acts).fed)
    ensures Mirrors(Exec(acts).fed, Exec(acts).delivered)
    ensures Exec(acts).phase.Returned? && !Exec(acts).ctxDone && !Exec(acts).stop ==>
      MirrorsAll(Exec(acts).fed, Exec(acts).delivered)
  {
    InvAlways(acts);
    var s := Exec(acts);
    CutConcat(s.taken, s.queue);
    if s.phase.Sending? {
      HandCompletes(s);
    }
    assert s.phase.Returned? ==> s.taken + s.queue == s.taken;
    PrefixIs(s.fed, s.delivered);
  }

  lemma LaunchFrame(s: State, a: Action)
    requires Enabled(s, a)
    ensures Step(s, a).launches == s.launches + (if a.SelectDone? || a.SendDone? then 1 else 0)
  {
  }

  /** The bridge launches an Unsubscribe exactly when it takes a select's context case. */
  lemma {:induction false} LaunchHistory(acts: seq<Action>)
    requires Legal(acts)
    ensures Exec(acts).launches > 0 <==> SelectDone in acts || SendDone in acts
  {
    if acts != [] {
      LaunchHistory(acts[..|acts|-1]);
      LaunchFrame(Exec(acts[..|acts|-1]), acts[|acts|-1]);
      assert acts == acts[..|acts|-1] + [acts[|acts|-1]];
    }
  }

  /** The output is closed at most once and never sent on when closed; a bridge that returned closed
      it, consumed its whole source, and reported the connection's end exactly if it was in there. */
  lemma {:induction false} ChannelDiscipline(acts: seq<Action>)
    requires Legal(acts)
    ensures Exec(acts).closes <= 1
    ensures Enabled(Exec(acts), SendOut) ==> Exec(acts).closes == 0
    ensures Exec(acts).phase.Returned? ==>
      && Exec(acts).closes == 1 && Exec(acts).taken == Exec(acts).fed
      && (Exec(acts).marked <==>
            exists i :: 0 <= i < |Exec(acts).fed| && Exec(acts).fed[i].Failure? && Exec(acts).fed[i].errorFrame)
    ensures Exec(acts).launches <= 1 && (Exec(acts).launches == 1 ==> Exec(acts).ctxDone)
    ensures Exec(acts).launches == 1 <==> SelectDone in acts || SendDone in acts
  {
    InvAlways(acts);
    LaunchHistory(acts);
    ErrorFrameIs(Exec(acts).fed);
    assert Exec(acts).phase.Returned? ==> Exec(acts).taken + [] == Exec(acts).taken;
  }

  /** After closing, the bridge never blocks on its output: whatever go-stomp has queued can be taken. */
  lemma {:induction false} KeepsDraining(acts: seq<Action>)
    requires Legal(acts) && !Exec(acts).open && !Exec(acts).phase.Returned?
    ensures Exec(acts).queue != [] ==> Enabled(Exec(acts), Recv)
    ensures Exec(acts).queue == [] && Exec(acts).srcClosed ==> Enabled(Exec(acts), RecvEnd)
  {
    InvAlways(acts);
  }

  /** Messages that can still delay the bridge. */
  function Backlog(s: State): (n: nat) { 2 * |s.queue| + (if s.phase.Sending? then 1 else 0) }

  /** Once Unsubscribe began, and whatever go-stomp's Unsubscribe then does, closing the output is
      enabled; any other step of the bridge uses up part of a message already queued.  So the channel
      closes: this is what Router.Close relies on. */
  lemma {:induction false} StopCloses(acts: seq<Action>) returns (a: Action)
    requires Legal(acts) && Exec(acts).stop && Exec(acts).open
    ensures Enabled(Exec(acts), a) && !Step(Exec(acts), a).open
    ensures forall b :: Enabled(Exec(acts), b) && !b.Feed? && !b.CloseSource? && !b.CtxDone? && !b.Stop? ==>
      !Step(Exec(acts), b).open || Backlog(Step(Exec(acts), b)) < Backlog(Exec(acts))
  {
    InvAlways(acts);
    a := if Exec(acts).phase.Sending? then SendStop else SelectStop;
  }

  /** Once the context is done, the bridge can close its output and launch the Unsubscribe. */
  lemma {:induction false} ContextCloses(acts: seq<Action>) returns (a: Action)
    requires Legal(acts) && Exec(acts).ctxDone && Exec(acts).open
    ensures Enabled(Exec(acts), a) && !Step(Exec(acts), a).open && Step(Exec(acts), a).launches == 1
  {
    InvAlways(acts);
    a := if Exec(acts).phase.Sending? then SendDone else SelectDone;
  }

  /** The bridge goroutine itself, on a source that delivers `src` and is then closed.  Each select takes
      any of its ready cases; the context and Unsubscribe may fire before any of them. */
  method Run(src: seq<Src>)
    returns (delivered: seq<Out>, closes: nat, launches: nat, marked: bool, ctxDone: bool, stopped: bool)
    ensures closes == 1 && launches <= 1 && (launches == 1 ==> ctxDone)
    ensures delivered <= Cut(src)
    ensures !ctxDone && !stopped ==> delivered == Cut(src)
    ensures Mirrors(src, delivered) && (!ctxDone && !stopped ==> MirrorsAll(src, delivered))
    ensures !stopped && delivered != Cut(src) ==> launches == 1
    ensures marked <==> exists i :: 0 <= i < |src| && src[i].Failure? && src[i].errorFrame
  {
    var open := true;
    delivered, closes, launches, marked, ctxDone, stopped := [], 0, 0, false, false, false;
    var i := 0;
    assert src[..0] == [];
    while true
      invariant 0 <= i <= |src|
      invariant closes == (if open then 0 else 1) && launches <= 1 && (launches == 1 ==> ctxDone && !open)
      invariant marked <==> HasErrorFrame(src[..i])
      invariant open ==> !HasFailure(src[..i]) && delivered == Cut(src[..i])
      invariant !open ==> delivered <= Cut(src[..i])
      invariant !open && !ctxDone && !stopped ==> HasFailure(src[..i]) && delivered == Cut(src[..i])
      invariant !open && !stopped && launches == 0 ==> HasFailure(src[..i]) && delivered == Cut(src[..i])
      decreases |src| - i, open
    {
      var d: bool, t: bool := *, *;
      ctxDone, stopped := ctxDone || d, stopped || t;
      if
      case open && ctxDone =>
        launches, open, closes := launches + 1, false, closes + 1;
      case open && stopped =>
        open, closes := false, closes + 1;
      case true =>
        if i == |src| {
          assert src[..i] == src;
          if open {
            open, closes := false, closes + 1;
          }
          PrefixIs(src, delivered);
          ErrorFrameIs(src);
          return;
        }
        var msg := src[i];
        TakeOne(src, i);
        i := i + 1;
        marked := marked || EndsConn(msg);
        if open {
          d, t := *, *;
          ctxDone, stopped := ctxDone || d, stopped || t;
          if
          case ctxDone =>
            launches, open, closes := launches + 1, false, closes + 1;
          case stopped =>
            open, closes := false, closes + 1;
          case true =>
            delivered := delivered + [Convert(msg)];
            if msg.Failure? {
              open, closes := false, closes + 1;
            }
        }
    }
  }

  lemma TakeOne(src: seq<Src>, i: nat)
    requires i < |src|
    ensures Cut(src[..i + 1]) == if HasFailure(src[..i]) then Cut(src[..i]) else Cut(src[..i]) + [Convert(src[i])]
    ensures HasFailure(src[..i + 1]) <==> HasFailure(src[..i]) || src[i].Failure?
    ensures HasErrorFrame(src[..i + 1]) <==> HasErrorFrame(src[..i]) || EndsConn(src[i])
  {
    assert src[..i + 1][..i] == src[..i];
  }
}
