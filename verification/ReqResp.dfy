/** Correlated request/reply: any number of concurrent GetResponse calls against a broker that answers a
    request on "/queue/" plus the request's reply-to. */
module ReqResp {
  import opened Prelude
  import opened Utf8
  import B = Bridge

  const REPLY_TO := "reply-to"

  function HexChar(n: nat): (c: char)
    requires n < 16
  {
    "0123456789abcdef"[n]
  }

  function HexName(nonce: seq<byte>): (s: string) {
    if nonce == [] then ""
    else HexName(nonce[..|nonce|-1]) + [HexChar(nonce[|nonce|-1] / 16), HexChar(nonce[|nonce|-1] % 16)]
  }

  function BareReply(nonce: seq<byte>): (s: string) { "reply." + HexName(nonce) }

  function QueueOf(bare: string): (d: Dest) { "/queue/" + bare }

  /** A name in lower-case hexadecimal digits, two for each byte, the high one first. */
  lemma {:induction false} HexNameIs(a: seq<byte>, i: nat)
    requires i < |a|
    ensures |HexName(a)| == 2 * |a|
    ensures HexDigitIs(HexName(a)[2 * i], a[i] / 16) && HexDigitIs(HexName(a)[2 * i + 1], a[i] % 16)
  {
    HexNameLength(a);
    HexNameSplit(a);
    HexCharIs(a[|a| - 1] / 16);
    HexCharIs(a[|a| - 1] % 16);
    if i < |a| - 1 {
      HexNameIs(a[..|a| - 1], i);
      assert HexName(a)[2 * i] == HexName(a[..|a| - 1])[2 * i];
    }
  }

  /** c is the digit of value v: a figure, or one of the letters a to f. */
  predicate HexDigitIs(c: char, v: int) {
    if v < 10 then c as int == '0' as int + v else c as int == 'a' as int + (v - 10)
  }

  lemma HexCharIs(v: nat)
    requires v < 16
    ensures HexDigitIs(HexChar(v), v)
  {
    assert v == 0 || v == 1 || v == 2 || v == 3 || v == 4 || v == 5 || v == 6 || v == 7
        || v == 8 || v == 9 || v == 10 || v == 11 || v == 12 || v == 13 || v == 14 || v == 15;
  }

  /** The last two digits of a name are those of the last byte, the others name the rest. */
  lemma HexNameSplit(a: seq<byte>)
    requires a != []
    ensures var n := |a| - 1;
      && |HexName(a)| == 2 * n + 2 && HexName(a)[..2 * n] == HexName(a[..n])
      && HexName(a)[2 * n] == HexChar(a[n] / 16) && HexName(a)[2 * n + 1] == HexChar(a[n] % 16)
  {
    HexNameLength(a);
    HexNameLength(a[..|a| - 1]);
  }

  lemma {:induction false} HexNameInjective(a: seq<byte>, b: seq<byte>)
    requires HexName(a) == HexName(b)
    ensures a == b
  {
    HexNameLength(a);
    HexNameLength(b);
    if a != [] {
      var n := |a| - 1;
      HexNameSplit(a);
      HexNameSplit(b);
      HexNameInjective(a[..n], b[..n]);
      SameByte(a[n], b[n]);
      assert a == a[..n] + [a[n]] && b == b[..n] + [b[n]];
    }
  }

  lemma SameByte(x: byte, y: byte)
    requires HexChar(x / 16) == HexChar(y / 16) && HexChar(x % 16) == HexChar(y % 16)
    ensures x == y
  {
    HexCharInjective(x / 16, y / 16);
    HexCharInjective(x % 16, y % 16);
  }

  lemma HexCharInjective(m: nat, n: nat)
    requires m < 16 && n < 16 && HexChar(m) == HexChar(n)
    ensures m == n
  {
  }

  lemma {:induction false} HexNameLength(a: seq<byte>)
    ensures |HexName(a)| == 2 * |a|
  {
    if a != [] {
      var n := |a| - 1;
      HexNameLength(a[..n]);
    }
  }

  /** Different nonces name different reply destinations. */
  lemma ReplyDestInjective(a: seq<byte>, b: seq<byte>)
    requires QueueOf(BareReply(a)) == QueueOf(BareReply(b))
    ensures a == b
  {
    var x, y := QueueOf(BareReply(a)), QueueOf(BareReply(b));
    assert x[7..] == BareReply(a) && y[7..] == BareReply(b);
    assert x[7..][6..] == HexName(a) && y[7..][6..] == HexName(b);
    HexNameInjective(a, b);
  }

  /** A reply names the request it answers; GetResponse returns the body only. */
  datatype Reply = Reply(request: nat, body: string)

  datatype Outcome = Answer(reply: Reply) | SubscribeError | SendError | Closed | Fault | Cancelled

  datatype Phase = Drawn | Subscribed | Waiting | Leaving(outcome: Outcome) | Returned(outcome: Outcome)

  /** `subs` and `unsubs` count what the call did with its reply subscription; `inbox` is its channel. */
  datatype Call = Call(nonce: seq<byte>, phase: Phase, subs: nat, unsubs: nat, inbox: seq<Reply>) {
    function ReplyDest(): (d: Dest) { QueueOf(BareReply(nonce)) }
    predicate Listening() { subs > unsubs }
  }

  /** A request as the broker got it; `sender` is not on the wire. */
  datatype Request = Request(sender: nat, replyTo: string)

  datatype State = State(calls: seq<Call>, requests: seq<Request>)

  datatype Action =
    | Begin(nonce: seq<byte>)
    | Subscribe(c: nat, ok: bool)
    | Send(c: nat, ok: bool)
    | BrokerAnswers(i: nat, body: string)
    | Receive(c: nat)
    | End(c: nat, how: Outcome)
    | Unsubscribe(c: nat)

  const INIT := State([], [])

  predicate Enabled(s: State, a: Action) {
    match a
    case Begin(nonce) => |nonce| == 8 && forall c :: 0 <= c < |s.calls| ==> s.calls[c].nonce != nonce
    case Subscribe(c, _) => c < |s.calls| && s.calls[c].phase.Drawn?
    case Send(c, _) => c < |s.calls| && s.calls[c].phase.Subscribed?
    case BrokerAnswers(i, _) => i < |s.requests|
    case Receive(c) => c < |s.calls| && s.calls[c].phase.Waiting? && s.calls[c].inbox != []
    case End(c, how) => c < |s.calls| && s.calls[c].phase.Waiting? && (how.Closed? || how.Fault? || how.Cancelled?)
    case Unsubscribe(c) => c < |s.calls| && s.calls[c].phase.Leaving?
  }

  /** Call c after the action.  A failed Subscribe returns at once; every later return is deferred past
      the Unsubscribe. */
  function NextCall(s: State, a: Action, c: nat): (call: Call)
    requires Enabled(s, a) && c < |s.calls|
  {
    var k := s.calls[c];
    match a
    case Begin(_) => k
    case Subscribe(d, ok) =>
      if d != c then k
      else if ok then k.(phase := Subscribed, subs := k.subs + 1) else k.(phase := Returned(SubscribeError))
    case Send(d, ok) =>
      if d != c then k else if ok then k.(phase := Waiting) else k.(phase := Leaving(SendError))
    case BrokerAnswers(i, body) =>
      if k.Listening() && k.ReplyDest() == QueueOf(s.requests[i].replyTo)
      then k.(inbox := k.inbox + [Reply(i, body)]) else k
    case Receive(d) =>
      if d != c then k else k.(inbox := k.inbox[1..], phase := Leaving(Answer(k.inbox[0])))
    case End(d, how) => if d != c then k else k.(phase := Leaving(how))
    case Unsubscribe(d) =>
      if d != c then k else k.(phase := Returned(k.phase.outcome), unsubs := k.unsubs + 1)
  }

  function Step(s: State, a: Action): (t: State)
    requires Enabled(s, a)
  {
    State(
      seq(|s.calls|, c requires 0 <= c < |s.calls| => NextCall(s, a, c))
        + (if a.Begin? then [Call(a.nonce, Drawn, 0, 0, [])] else []),
      s.requests + (if a.Send? && a.ok then [Request(a.c, BareReply(s.calls[a.c].nonce))] else []))
  }

  predicate Legal(acts: seq<Action>)
    decreases |acts|, 0
  {
    acts == [] ||
    (Legal(acts[..|acts|-1]) && Enabled(Exec(acts[..|acts|-1]), acts[|acts|-1]))
  }

  function Exec(acts: seq<Action>): (s: State)
    requires Legal(acts)
    decreases |acts|, 1
  {
    if acts == [] then INIT else Step(Exec(acts[..|acts|-1]), acts[|acts|-1])
  }

  /** Reply r belongs to call c: it answers a request that c sent. */
  predicate Own(s: State, c: nat, r: Reply) { r.request < |s.requests| && s.requests[r.request].sender == c }

  predicate CallOk(s: State, c: nat, k: Call) {
    && (k.phase.Drawn? ==> k.subs == 0 && k.unsubs == 0)
    && (k.phase.Subscribed? || k.phase.Waiting? || k.phase.Leaving? ==> k.subs == 1 && k.unsubs == 0)
    && (k.phase.Returned? ==> k.subs <= 1 && k.unsubs == k.subs && (k.subs == 0 <==> k.phase.outcome.SubscribeError?))
    && (forall i :: 0 <= i < |k.inbox| ==> Own(s, c, k.inbox[i]))
    && ((k.phase.Leaving? || k.phase.Returned?) && k.phase.outcome.Answer? ==> Own(s, c, k.phase.outcome.reply))
    && (k.phase.Leaving? ==> !k.phase.outcome.SubscribeError?)
  }

  ghost predicate Inv(s: State) {
    && (forall c :: 0 <= c < |s.calls| ==> CallOk(s, c, s.calls[c]))
    && (forall b, c :: 0 <= b < |s.calls| && 0 <= c < |s.calls| && s.calls[b].nonce == s.calls[c].nonce ==> b == c)
    && (forall i :: 0 <= i < |s.requests| ==>
          && s.requests[i].sender < |s.calls| && s.calls[s.requests[i].sender].subs == 1
          && s.requests[i].replyTo == BareReply(s.calls[s.requests[i].sender].nonce))
  }

  lemma CallStep(s: State, a: Action, c: nat)
    requires Inv(s) && Enabled(s, a) && c < |s.calls|
    ensures NextCall(s, a, c).nonce == s.calls[c].nonce && NextCall(s, a, c).subs >= s.calls[c].subs
    ensures CallOk(Step(s, a), c, NextCall(s, a, c))
  {
    var k, s' := s.calls[c], Step(s, a);
    assert forall r: Reply :: Own(s, c, r) ==> Own(s', c, r);
    if a.BrokerAnswers? && k.Listening() && k.ReplyDest() == QueueOf(s.requests[a.i].replyTo) {
      ReplyDestInjective(k.nonce, s.calls[s.requests[a.i].sender].nonce);
      assert Own(s', c, Reply(a.i, a.body));
    }
  }

  lemma InvStep(s: State, a: Action)
    requires Inv(s) && Enabled(s, a)
    ensures Inv(Step(s, a))
  {
    var s' := Step(s, a);
    forall c | 0 <= c < |s.calls|
      ensures s'.calls[c].nonce == s.calls[c].nonce && s'.calls[c].subs >= s.calls[c].subs && CallOk(s', c, s'.calls[c])
    {
      CallStep(s, a, c);
    }
    forall i | 0 <= i < |s'.requests|
      ensures s'.requests[i].sender < |s'.calls| && s'.calls[s'.requests[i].sender].subs == 1
      ensures s'.requests[i].replyTo == BareReply(s'.calls[s'.requests[i].sender].nonce)
    {
      assert CallOk(s', s'.requests[i].sender, s'.calls[s'.requests[i].sender]);
    }
  }

  lemma {:induction false} InvAlways(acts: seq<Action>)
    requires Legal(acts)
    ensures Inv(Exec(acts))
  {
    if acts != [] {
      var n := |acts| - 1;
      InvAlways(acts[..n]);
      InvStep(Exec(acts[..n]), acts[n]);
    }
  }

  /** Whatever the other calls and the broker do, a call returns only a reply to its own request. */
  lemma {:induction false} AnswersOwnRequest(acts: seq<Action>, c: nat)
    requires Legal(acts) && c < |Exec(acts).calls|
    requires Exec(acts).calls[c].phase.Returned? && Exec(acts).calls[c].phase.outcome.Answer?
    ensures Own(Exec(acts), c, Exec(acts).calls[c].phase.outcome.reply)
  {
    InvAlways(acts);
  }

  /** The call is over but for its return, with this outcome. */
  predicate EndedAs(s: State, c: nat, o: Outcome) {
    c < |s.calls| && (s.calls[c].phase == Leaving(o) || s.calls[c].phase == Returned(o))
  }

  /** The call has taken a reply. */
  predicate Answered(s: State, c: nat) {
    && c < |s.calls| && (s.calls[c].phase.Leaving? || s.calls[c].phase.Returned?)
    && s.calls[c].phase.outcome.Answer?
  }

  lemma OutcomeFrame(s: State, a: Action, c: nat)
    requires Enabled(s, a)
    ensures Answered(Step(s, a), c) <==> Answered(s, c) || a == Receive(c)
    ensures EndedAs(Step(s, a), c, SubscribeError) <==> EndedAs(s, c, SubscribeError) || a == Subscribe(c, false)
    ensures EndedAs(Step(s, a), c, SendError) <==> EndedAs(s, c, SendError) || a == Send(c, false)
    ensures forall how: Outcome :: how.Closed? || how.Fault? || how.Cancelled? ==>
      (EndedAs(Step(s, a), c, how) <==> EndedAs(s, c, how) || a == End(c, how))
  {
  }

  /** How a call ends is what the run did to it: a reply exactly when its select took one, and each failure exactly
      when that happened. */
  lemma {:induction false} OutcomeHistory(acts: seq<Action>, c: nat)
    requires Legal(acts)
    ensures Answered(Exec(acts), c) <==> Receive(c) in acts
    ensures EndedAs(Exec(acts), c, SubscribeError) <==> Subscribe(c, false) in acts
    ensures EndedAs(Exec(acts), c, SendError) <==> Send(c, false) in acts
    ensures forall how: Outcome :: how.Closed? || how.Fault? || how.Cancelled? ==>
      (EndedAs(Exec(acts), c, how) <==> End(c, how) in acts)
  {
    if acts != [] {
      var before, a := acts[..|acts|-1], acts[|acts|-1];
      OutcomeHistory(before, c);
      OutcomeFrame(Exec(before), a, c);
      assert acts == before + [a];
      assert forall x :: x in acts <==> x in before || x == a;
    }
  }

  /** The answers to call c's requests that came while it was subscribed, in order. */
  function Replies(acts: seq<Action>, c: nat): (replies: seq<Reply>)
    requires Legal(acts)
  {
    if acts == [] then []
    else
      var before, a := acts[..|acts|-1], acts[|acts|-1];
      Replies(before, c) + (if a.BrokerAnswers? && Reaches(Exec(before), a.i, c) then [Reply(a.i, a.body)] else [])
  }

  /** Request i is call c's, and the call is subscribed. */
  predicate Reaches(s: State, i: nat, c: nat) {
    i < |s.requests| && s.requests[i].sender == c && c < |s.calls| && s.calls[c].Listening()
  }

  /** What came for the call is what it took, if it took one, and what is still in its channel. */
  predicate InboxIs(s: State, c: nat, replies: seq<Reply>) {
    if c >= |s.calls| then replies == []
    else replies == (if Answered(s, c) then [s.calls[c].phase.outcome.reply] else []) + s.calls[c].inbox
  }

  lemma InboxAnswer(s: State, i: nat, body: string, c: nat, replies: seq<Reply>)
    requires Inv(s) && Enabled(s, BrokerAnswers(i, body)) && InboxIs(s, c, replies) && c < |s.calls|
    ensures InboxIs(Step(s, BrokerAnswers(i, body)), c, replies + (if Reaches(s, i, c) then [Reply(i, body)] else []))
  {
    var k, sender := s.calls[c], s.calls[s.requests[i].sender];
    if k.ReplyDest() == QueueOf(s.requests[i].replyTo) {
      ReplyDestInjective(k.nonce, sender.nonce);
    }
    var taken := if Answered(s, c) then [k.phase.outcome.reply] else [];
    assert (taken + k.inbox) + [Reply(i, body)] == taken + (k.inbox + [Reply(i, body)]);
    assert replies + [] == replies;
  }

  /** No other action brings the call anything; taking a reply takes the first. */
  lemma InboxOther(s: State, a: Action, c: nat, replies: seq<Reply>)
    requires Inv(s) && Enabled(s, a) && !a.BrokerAnswers? && InboxIs(s, c, replies)
    ensures InboxIs(Step(s, a), c, replies)
  {
    if a == Receive(c) {
      var k := s.calls[c];
      assert [] + k.inbox == [k.inbox[0]] + k.inbox[1..];
    }
  }

  lemma InboxFrame(s: State, a: Action, c: nat, replies: seq<Reply>)
    requires Inv(s) && Enabled(s, a) && InboxIs(s, c, replies)
    ensures InboxIs(Step(s, a), c,
                    replies + (if a.BrokerAnswers? && Reaches(s, a.i, c) then [Reply(a.i, a.body)] else []))
  {
    if a.BrokerAnswers? {
      if c < |s.calls| { InboxAnswer(s, a.i, a.body, c, replies); }
    } else {
      InboxOther(s, a, c, replies);
      assert replies + [] == replies;
    }
  }

  lemma {:induction false} RepliesKept(acts: seq<Action>, c: nat)
    requires Legal(acts)
    ensures InboxIs(Exec(acts), c, Replies(acts, c))
  {
    if acts != [] {
      var before := acts[..|acts|-1];
      RepliesKept(before, c);
      InvAlways(before);
      InboxFrame(Exec(before), acts[|acts|-1], c, Replies(before, c));
    }
  }

  /** A call whose select took a reply returns the first one that came for it: not a later one, and no failure. */
  lemma {:induction false} ReturnsFirstReply(acts: seq<Action>, c: nat)
    requires Legal(acts) && Receive(c) in acts
    ensures Replies(acts, c) != [] && EndedAs(Exec(acts), c, Answer(Replies(acts, c)[0]))
  {
    OutcomeHistory(acts, c);
    RepliesKept(acts, c);
  }

  /** When the broker answers a request, the subscription of the call that sent it has been made: the
      reply reaches that call and no other, unless the call has already unsubscribed. */
  lemma {:induction false} NoReplyTooEarly(acts: seq<Action>, i: nat, body: string)
    requires Legal(acts) && i < |Exec(acts).requests|
    ensures var s, s' := Exec(acts), Step(Exec(acts), BrokerAnswers(i, body));
      var c := s.requests[i].sender;
      && c < |s.calls| && s.calls[c].subs == 1
      && (s.calls[c].unsubs == 0 ==> s'.calls[c].inbox == s.calls[c].inbox + [Reply(i, body)])
      && (forall b :: 0 <= b < |s.calls| && b != c ==> s'.calls[b] == s.calls[b])
  {
    InvAlways(acts);
    var s := Exec(acts);
    var c := s.requests[i].sender;
    forall b | 0 <= b < |s.calls| && s.calls[b].ReplyDest() == QueueOf(s.requests[i].replyTo)
      ensures b == c
    {
      ReplyDestInjective(s.calls[b].nonce, s.calls[c].nonce);
    }
  }

  /** A call that returned has unsubscribed the reply subscription it made exactly once, on every path. */
  lemma {:induction false} UnsubscribedOnce(acts: seq<Action>, c: nat)
    requires Legal(acts) && c < |Exec(acts).calls|
    ensures Exec(acts).calls[c].subs <= 1 && Exec(acts).calls[c].unsubs <= Exec(acts).calls[c].subs
    ensures Exec(acts).calls[c].phase.Returned? ==> Exec(acts).calls[c].unsubs == Exec(acts).calls[c].subs
  {
    InvAlways(acts);
  }

  /** The header loop of GetResponse: the caller's headers, with reply-to set to the bare reply name even
      if the caller had one. */
  method MergeHeaders(base: map<string, string>, bare: string) returns (headers: map<string, string>)
    ensures headers == base["reply-to" := bare]
  {
    headers := map[];
    var left := base.Keys;
    while left != {}
      invariant left <= base.Keys && headers.Keys == base.Keys - left
      invariant forall k :: k in headers ==> headers[k] == base[k]
    {
      var k :| k in left;
      headers := headers[k := base[k]];
      left := left - {k};
    }
    assert headers == base;
    headers := headers[REPLY_TO := bare];
  }

  /** The queue-prepend rule: a name with one of the three prefixes is left as it is, any other is a queue. */
  function NormalizeDestination(d: Dest): (n: Dest)
    ensures "/topic/" <= n || "/queue/" <= n || "/temp-queue/" <= n
    ensures n == d <==> "/topic/" <= d || "/queue/" <= d || "/temp-queue/" <= d
    ensures n != d ==> |n| == |d| + 7 && n[..7] == "/queue/" && n[7..] == d
  {
    if "/topic/" <= d || "/queue/" <= d || "/temp-queue/" <= d then d else "/queue/" + d
  }

  /** The effects of one call, in order. */
  datatype Effect =
    | SubscribedTo(dest: Dest)
    | SentTo(dest: Dest, body: string, headers: map<string, string>)
    | Unsubscribed(dest: Dest)

  /** What the wait for the first reply meets. */
  datatype Wait = Got(body: string) | GotError(cause: string) | ChannelClosed | ContextDone

  /** How a call fails; only Expired wraps the context's error. */
  datatype Failure = NoNonce | NotSubscribed | NotSent | ClosedEarly | ReplyFailed(cause: string) | Expired

  datatype Response = Body(text: string) | Failed(how: Failure)

  /** One call by itself.  `nonce` is None when the random source fails. */
  method GetResponse(dest: Dest, body: string, base: map<string, string>, nonce: Option<seq<byte>>,
                     subscribed: bool, sent: bool, wait: Wait)
    returns (r: Response, effects: seq<Effect>)
    ensures r == Failed(NoNonce) <==> nonce.None?
    ensures r == Failed(NotSubscribed) <==> nonce.Some? && !subscribed
    ensures r == Failed(NotSent) <==> nonce.Some? && subscribed && !sent
    ensures nonce.Some? && subscribed && sent ==>
      && (r.Body? <==> wait.Got?) && (r.Body? ==> r.text == wait.body)
      && (r == Failed(ClosedEarly) <==> wait.ChannelClosed?)
      && (r == Failed(Expired) <==> wait.ContextDone?)
      && (wait.GotError? ==> r == Failed(ReplyFailed(wait.cause)))
    ensures nonce.None? || !subscribed ==> effects == []
    ensures nonce.Some? && subscribed ==>
      var bare := "reply." + HexName(nonce.value);
      effects == [SubscribedTo("/queue/" + bare)]
        + (if sent then [SentTo(NormalizeDestination(dest), body, base["reply-to" := bare])] else [])
        + [Unsubscribed("/queue/" + bare)]
  {
    effects := [];
    if nonce.None? {
      return Failed(NoNonce), effects;
    }
    var bareReply := BareReply(nonce.value);
    var queueReply := QueueOf(bareReply);
    if !subscribed {
      return Failed(NotSubscribed), effects;
    }
    effects := effects + [SubscribedTo(queueReply)];
    var headers := MergeHeaders(base, bareReply);
    r := Failed(NotSent);
    if sent {
      effects := effects + [SentTo(NormalizeDestination(dest), body, headers)];
      match wait {
        case Got(text) => r := Body(text);
        case GotError(cause) => r := Failed(ReplyFailed(cause));
        case ChannelClosed => r := Failed(ClosedEarly);
        case ContextDone => r := Failed(Expired);
      }
    }
    effects := effects + [Unsubscribed(queueReply)];
  }

  // The wait on top of the reply subscription's bridge, which the transport runs with the call's own context.

  /** The select of the wait may take this case: the bridge stands at b and nothing has been read yet. */
  predicate Offers(b: B.State, w: Wait) {
    match w
    case Got(body) => b.delivered != [] && b.delivered[0].OutMsg? && b.delivered[0].body == body
    case GotError(cause) => b.delivered != [] && b.delivered[0] == B.OutErr(cause)
    case ChannelClosed => b.delivered == [] && !b.open
    case ContextDone => b.ctxDone
  }

  /** The bridge closes its output by this action, having passed nothing on with it. */
  predicate Closing(a: B.Action) {
    a.SelectDone? || a.SelectStop? || a.SendDone? || a.SendStop? || a.RecvEnd?
  }

  predicate NeverClosing(acts: seq<B.Action>) { forall a :: a in acts ==> !Closing(a) }

  lemma DeliveredFrame(s: B.State, a: B.Action)
    requires B.Enabled(s, a)
    ensures B.Step(s, a).delivered == [] <==> s.delivered == [] && !a.SendOut?
  {
  }

  lemma OpenFrame(s: B.State, a: B.Action)
    requires B.Enabled(s, a) && !a.SendOut?
    ensures B.Step(s, a).open <==> s.open && !Closing(a)
  {
  }

  lemma {:induction false} BridgeHistory(acts: seq<B.Action>)
    requires B.Legal(acts)
    ensures B.Exec(acts).delivered == [] <==> B.SendOut !in acts
    ensures B.SendOut !in acts ==> (B.Exec(acts).open <==> NeverClosing(acts))
  {
    if acts != [] {
      var before, a := acts[..|acts|-1], acts[|acts|-1];
      BridgeHistory(before);
      assert acts == before + [a];
      assert forall x :: x in acts <==> x in before || x == a;
      DeliveredFrame(B.Exec(before), a);
      if !a.SendOut? {
        OpenFrame(B.Exec(before), a);
      }
    }
  }

  /** On expiry of the context the call is promised to return the context's error.  Once the context is done it
      certainly does, whatever the select takes, if and only if the bridge has neither passed anything on nor
      closed its output.  It may report a closed subscription instead if and only if the bridge, which sees
      the same context, has closed its output with nothing passed on. */
  lemma {:induction false} ExpiryReportedExactly(acts: seq<B.Action>)
    requires B.Legal(acts) && B.Exec(acts).ctxDone
    ensures (forall w :: Offers(B.Exec(acts), w) ==> w.ContextDone?) <==> B.SendOut !in acts && NeverClosing(acts)
    ensures Offers(B.Exec(acts), ChannelClosed) <==> B.SendOut !in acts && !NeverClosing(acts)
  {
    var b := B.Exec(acts);
    BridgeHistory(acts);
    if b.delivered != [] {
      var w := match b.delivered[0] case OutMsg(body, _) => Got(body) case OutErr(cause) => GotError(cause);
      assert Offers(b, w);
    } else if !b.open {
      assert Offers(b, ChannelClosed);
    }
  }

  /** Before the context is done, and before the call itself unsubscribes, a closed channel is what the error
      says: go-stomp ended the subscription without a reply or an error. */
  lemma {:induction false} ClosedMeansEnded(acts: seq<B.Action>)
    requires B.Legal(acts) && !B.Exec(acts).ctxDone && !B.Exec(acts).stop
    requires Offers(B.Exec(acts), ChannelClosed)
    ensures B.Exec(acts).srcClosed && B.Exec(acts).fed == []
  {
    B.InvAlways(acts);
    var b := B.Exec(acts);
    if b.taken != [] {
      CutNonempty(b.taken);
      assert false;
    }
    assert b.fed == b.taken + b.queue == [];
  }

  lemma {:induction false} CutNonempty(src: seq<B.Src>)
    requires src != []
    ensures B.Cut(src) != []
  {
    if |src| > 1 {
      CutNonempty(src[..|src|-1]);
    } else {
      assert src[..0] == [];
    }
  }

  /** The exception, twice: on an idle subscription, and with the reply already taken from go-stomp, which the
      bridge drops.  Nothing but the context ended either. */
  lemma ExpiryReportedAsClosed(reply: string, d: Dest) returns (idle: seq<B.Action>, dropped: seq<B.Action>)
    ensures B.Legal(idle) && B.Legal(dropped)
    ensures Offers(B.Exec(idle), ChannelClosed) && B.Exec(idle).ctxDone && !B.Exec(idle).srcClosed && !B.Exec(idle).stop
    ensures B.Exec(idle).fed == [] && B.Exec(dropped).fed == [B.Message(reply, d)]
    ensures Offers(B.Exec(dropped), ChannelClosed) && B.Exec(dropped).ctxDone
    ensures !B.Exec(dropped).srcClosed && !B.Exec(dropped).stop
  {
    assert B.Legal([]);
    idle := BridgeThen([], B.CtxDone);
    idle := BridgeThen(idle, B.SelectDone);
    dropped := BridgeThen([], B.Feed(B.Message(reply, d)));
    dropped := BridgeThen(dropped, B.Recv);
    dropped := BridgeThen(dropped, B.CtxDone);
    dropped := BridgeThen(dropped, B.SendDone);
  }

  lemma {:induction false} BridgeThen(acts: seq<B.Action>, a: B.Action) returns (more: seq<B.Action>)
    requires B.Legal(acts) && B.Enabled(B.Exec(acts), a)
    ensures more == acts + [a] && B.Legal(more) && B.Exec(more) == B.Step(B.Exec(acts), a)
  {
    more := acts + [a];
    assert more[..|acts|] == acts;
  }
}
