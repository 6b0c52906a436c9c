/** The token exchange: the credential leg, its teardown, and the second, token-authenticated leg. */
module Exchange {
  import opened Prelude
  import Teardown

  /** strings.TrimSpace's notion of space. */
  predicate IsSpace(c: char) {
    '\t' <= c <= '\r' || c == ' ' || c == '\U{0085}' || c == '\U{00A0}' || c == '\U{1680}'
    || '\U{2000}' <= c <= '\U{200A}' || c == '\U{2028}' || c == '\U{2029}' || c == '\U{202F}'
    || c == '\U{205F}' || c == '\U{3000}'
  }

  /** The white space characters of Unicode, by code point. */
  const SPACES: set<int> := {
    0x09, 0x0A, 0x0B, 0x0C, 0x0D, 0x20, 0x85, 0xA0, 0x1680, 0x2000, 0x2001, 0x2002, 0x2003, 0x2004, 0x2005,
    0x2006, 0x2007, 0x2008, 0x2009, 0x200A, 0x2028, 0x2029, 0x202F, 0x205F, 0x3000}

  lemma SpaceIs(c: char)
    ensures IsSpace(c) <==> c as int in SPACES
  {
    var v := c as int;
    assert '\t' as int == 9 && '\r' as int == 13 && ' ' as int == 32;
    assert 9 <= v <= 13 ==> v in {0x09, 0x0A, 0x0B, 0x0C, 0x0D};
    assert 0x2000 <= v <= 0x200A ==>
      v in {0x2000, 0x2001, 0x2002, 0x2003, 0x2004, 0x2005, 0x2006, 0x2007, 0x2008, 0x2009, 0x200A};
  }

  function TrimSpace(s: string): (t: string) {
    if s == [] then []
    else if IsSpace(s[0]) then TrimSpace(s[1..])
    else if IsSpace(s[|s|-1]) then TrimSpace(s[..|s|-1])
    else s
  }

  /** Trimming takes off exactly the surrounding space: it keeps one stretch of s, everything outside it is
      space, and it neither begins nor ends with one. */
  lemma TrimIs(s: string) returns (i: nat, j: nat)
    ensures i <= j <= |s| && TrimSpace(s) == s[i..j]
    ensures forall k :: 0 <= k < i || j <= k < |s| ==> s[k] as int in SPACES
    ensures i < j ==> s[i] as int !in SPACES && s[j - 1] as int !in SPACES
  {
    i, j := Trimmed(s);
    forall k | 0 <= k < |s|
      ensures IsSpace(s[k]) <==> s[k] as int in SPACES
    {
      SpaceIs(s[k]);
    }
  }

  /** A stretch of s with its first character left out, seen in s. */
  lemma LeadingSpace(s: string, i: nat, j: nat)
    requires s != [] && IsSpace(s[0]) && i <= j <= |s| - 1
    requires forall k :: 0 <= k < i || j <= k < |s| - 1 ==> IsSpace(s[1..][k])
    ensures s[1..][i..j] == s[i + 1..j + 1]
    ensures forall k :: 0 <= k < i + 1 || j + 1 <= k < |s| ==> IsSpace(s[k])
  {
    forall k | 0 <= k < i + 1 || j + 1 <= k < |s|
      ensures IsSpace(s[k])
    {
      if k > 0 {
        assert s[k] == s[1..][k - 1];
      }
    }
  }

  lemma {:induction false} Trimmed(s: string) returns (i: nat, j: nat)
    ensures i <= j <= |s| && TrimSpace(s) == s[i..j]
    ensures forall k :: 0 <= k < i || j <= k < |s| ==> IsSpace(s[k])
    ensures i < j ==> !IsSpace(s[i]) && !IsSpace(s[j - 1])
  {
    if s != [] && IsSpace(s[0]) {
      i, j := Trimmed(s[1..]);
      LeadingSpace(s, i, j);
      i, j := i + 1, j + 1;
    } else if s != [] && IsSpace(s[|s|-1]) {
      i, j := Trimmed(s[..|s|-1]);
      assert s[..|s|-1][i..j] == s[i..j];
    } else {
      i, j := 0, |s|;
    }
  }

  /** What the wait for the token meets first. */
  datatype Reply = Message(body: string) | ErrorFrame(cause: string) | ChannelClosed | ContextDone

  /** The answers of the network, the broker and the scheduler: whether each call succeeds, what the wait
      meets, whether the context is done when the teardown starts, the teardown's schedule up to the return
      of fetchToken, and what the background goroutine and the context still do afterwards. */
  datatype World = World(
    dial1: bool, connect1: bool, nonce: bool, subscribe: bool, send: bool, reply: Reply,
    ctxDone: bool, schedule: seq<Teardown.Action>, later: seq<Teardown.Action>, dial2: bool, connect2: bool)

  /** Whether the credential connection got a subscription. */
  predicate HasSub(w: World) { w.nonce && w.subscribe }

  /** What the body of fetchToken ends with once connected. */
  function BodyOf(w: World): (b: Teardown.Body) {
    if !w.nonce then Teardown.BodyError(Teardown.NonceFailed)
    else if !w.subscribe then Teardown.BodyError(Teardown.SubscribeFailed)
    else if !w.send then Teardown.BodyError(Teardown.SendFailed)
    else match w.reply
      case Message(text) =>
        if TrimSpace(text) == "" then Teardown.BodyError(Teardown.BlankToken)
        else Teardown.Token(TrimSpace(text))
      case ErrorFrame(cause) => Teardown.BodyError(Teardown.ReplyError(cause))
      case ChannelClosed => Teardown.BodyError(Teardown.ClosedEarly)
      case ContextDone => Teardown.BodyError(Teardown.Cancelled)
  }

  function Start(w: World): (s: Teardown.State) { Teardown.Init(BodyOf(w), HasSub(w), w.ctxDone) }

  /** fetchToken returns when its deferred function has run; nothing is asked of the background goroutine
      at that time.  A wait cut short by the context leaves it done. */
  predicate Possible(w: World) {
    && w.schedule != [] && w.schedule[|w.schedule|-1].MainDefer?
    && Teardown.Legal(Start(w), w.schedule) && Teardown.Legal(Start(w), w.schedule + w.later)
    && (w.reply.ContextDone? ==> w.ctxDone)
  }

  /** The teardown at the moment fetchToken returns. */
  function AtReturn(w: World): (s: Teardown.State)
    requires Possible(w)
  {
    Teardown.Exec(Start(w), w.schedule)
  }

  /** The teardown after what still happens. */
  function AtEnd(w: World): (s: Teardown.State)
    requires Possible(w)
  {
    Teardown.Exec(Start(w), w.schedule + w.later)
  }

  /** The background goroutine has got through in the end. */
  predicate AllOver(w: World)
    requires Possible(w)
  {
    AtEnd(w).bg.at.Finished?
  }

  datatype Event =
    | Dial(leg: nat)
    | Connect(leg: nat, login: string, passcode: string)
    | Close(leg: nat)
    | TeardownReturned     // endCredentialConn and the deferred function are over

  datatype Fate = NotDialed | Closed | Disconnected | Owned | LeftOpen

  /** Where a dialed transport ends up: from the record of what was done to it, and for the first from where
      its teardown ended. */
  function FateOf(events: seq<Event>, leg: nat, owned: bool, teardown: Teardown.State): (f: Fate) {
    if Dial(leg) !in events then NotDialed
    else if Close(leg) in events then Closed
    else if owned then Owned
    else if leg == 1 && TeardownReturned in events && teardown.net.closed then Closed
    else if leg == 1 && TeardownReturned in events && Teardown.TransportEnded(teardown) then Disconnected
    else LeftOpen
  }

  /** A token is returned only when the background goroutine is through and both steps ran on a live
      context; the transport has ended by then, and stays ended. */
  lemma TokenMeansOver(w: World)
    requires Possible(w) && AtReturn(w).fg.result.Some? && AtReturn(w).fg.result.value.Got?
    ensures var s := AtReturn(w);
      && BodyOf(w) == Teardown.Token(s.fg.result.value.text)
      && s.bg.at.Finished? && !s.bg.ctxSeen && s.bg.ranDisc && s.bg.ranUnsub && Teardown.TransportEnded(s)
  {
    Teardown.TokenOnlyAfterTeardown(BodyOf(w), HasSub(w), w.ctxDone, w.schedule);
    Teardown.InvAlways(BodyOf(w), HasSub(w), w.ctxDone, w.schedule);
    DeferEnds(Start(w), w.schedule);
  }

  lemma DeferEnds(s0: Teardown.State, acts: seq<Teardown.Action>)
    requires Teardown.Legal(s0, acts) && acts != [] && acts[|acts|-1].MainDefer?
    ensures Teardown.Exec(s0, acts).fg.at.Ended? && Teardown.Exec(s0, acts).fg.result.Some?
  {
  }

  /** What happens after the return changes neither the result nor an ended transport. */
  lemma {:induction false} LaterKeeps(s0: Teardown.State, acts: seq<Teardown.Action>, later: seq<Teardown.Action>)
    requires Teardown.Legal(s0, acts) && Teardown.Legal(s0, acts + later) && Teardown.Exec(s0, acts).fg.at.Ended?
    ensures var s, e := Teardown.Exec(s0, acts), Teardown.Exec(s0, acts + later);
      && e.fg == s.fg
      && (s.bg.at.Finished? ==> e.bg == s.bg)
      && (s.net.closed ==> e.net.closed)
  {
    if later == [] {
      assert acts + later == acts;
    } else {
      var n := |later| - 1;
      assert (acts + later)[..|acts| + n] == acts + later[..n];
      LaterKeeps(s0, acts, later[..n]);
    }
  }

  /** Where the first transport ends up, once everything is over. */
  lemma EndedExactly(w: World)
    requires Possible(w) && AllOver(w)
    ensures Teardown.TransportEnded(AtEnd(w)) <==> !Raced(w)
  {
    DeferEnds(Start(w), w.schedule);
    LaterKeeps(Start(w), w.schedule, w.later);
    Teardown.TransportEndedExactly(BodyOf(w), HasSub(w), w.ctxDone, w.schedule + w.later);
  }

  /** The late race of the teardown: the caller gave up, the context became done behind stop(), and
      Disconnect had failed. */
  predicate Raced(w: World)
    requires Possible(w)
  {
    AtEnd(w).fg.gaveUp && AtEnd(w).net.late && AtEnd(w).bg.steps.derr.Some?
  }

  lemma FirstFate(user: string, pass: string, t: Teardown.State)
    ensures var f := FateOf([Dial(1), Connect(1, user, pass)] + [TeardownReturned], 1, false, t);
      && f != NotDialed && f != Owned
      && (f == LeftOpen <==> !Teardown.TransportEnded(t))
  {
    var events := [Dial(1), Connect(1, user, pass)] + [TeardownReturned];
    assert events[0] == Dial(1) && events[2] == TeardownReturned;
  }

  /** Not all of the text is space. */
  predicate NotBlank(text: string) { exists i :: 0 <= i < |text| && text[i] as int !in SPACES }

  lemma {:induction false} NotBlankIs(text: string)
    ensures TrimSpace(text) != "" <==> NotBlank(text)
  {
    var i, j := TrimIs(text);
    if i < j {
      assert text[i] as int !in SPACES;
    }
  }

  /** A token arrived: every call of the first leg succeeded, and the reply is a message that is not blank. */
  predicate TokenArrived(w: World) {
    w.dial1 && w.connect1 && w.nonce && w.subscribe && w.send && w.reply.Message? && NotBlank(w.reply.body)
  }

  /** The caller waited for the teardown, and the context was live when it recorded its results. */
  predicate TornDownLive(w: World)
    requires Possible(w)
  {
    Teardown.MainInnerDefault !in w.schedule && !Teardown.RecordedDone(Start(w), w.schedule)
  }

  datatype Fetched = Token(text: string) | DialFailed | ConnectFailed | BodyFailed(why: Teardown.Why) | TeardownCut

  /** fetchToken.  A token that arrived is returned if and only if the teardown ended on a live context, whether or
      not one of its steps failed; every other path has its own error. */
  method FetchToken(w: World, user: string, pass: string) returns (r: Fetched, events: seq<Event>)
    requires Possible(w)
    ensures r.Token? <==> TokenArrived(w) && TornDownLive(w)
    ensures r.Token? ==> r.text == TrimSpace(w.reply.body) && r.text != ""
    ensures r == TeardownCut <==> TokenArrived(w) && !TornDownLive(w)
    ensures r == DialFailed <==> !w.dial1
    ensures r == ConnectFailed <==> w.dial1 && !w.connect1
    ensures w.dial1 && w.connect1 ==>
      && (r == BodyFailed(Teardown.NonceFailed) <==> !w.nonce)
      && (r == BodyFailed(Teardown.SubscribeFailed) <==> w.nonce && !w.subscribe)
      && (r == BodyFailed(Teardown.SendFailed) <==> w.nonce && w.subscribe && !w.send)
    ensures w.dial1 && w.connect1 && w.nonce && w.subscribe && w.send ==>
      && (r == BodyFailed(Teardown.BlankToken) <==> w.reply.Message? && !NotBlank(w.reply.body))
      && (w.reply.ErrorFrame? ==> r == BodyFailed(Teardown.ReplyError(w.reply.cause)))
      && (r == BodyFailed(Teardown.ClosedEarly) <==> w.reply.ChannelClosed?)
      && (r == BodyFailed(Teardown.Cancelled) <==> w.reply.ContextDone?)
    ensures r.Token? ==>
      var s := AtReturn(w);
      s.bg.at.Finished? && s.bg.ranUnsub && s.bg.ranDisc && !s.bg.ctxSeen && Teardown.TransportEnded(s)
    ensures w.connect1 && w.dial1 ==> events == [Dial(1), Connect(1, user, pass), TeardownReturned]
    ensures FateOf(events, 1, false, AtEnd(w)) == NotDialed <==> !w.dial1
    ensures AllOver(w) ==> (FateOf(events, 1, false, AtEnd(w)) == LeftOpen <==> w.dial1 && w.connect1 && Raced(w))
    ensures FateOf(events, 1, false, AtEnd(w)) != Owned
    ensures FirstOnly(events)
  {
    events := [];
    if !w.dial1 {
      return DialFailed, events;
    }
    events := events + [Dial(1), Connect(1, user, pass)];
    if !w.connect1 {
      events := events + [Close(1)];
      assert events[0] == Dial(1) && events[2] == Close(1);
      return ConnectFailed, events;
    }
    events := events + [TeardownReturned];
    FirstFate(user, pass, AtEnd(w));
    if AllOver(w) {
      EndedExactly(w);
    }
    r := AnswerOf(w);
  }

  /** What fetchToken answers once connected: the result that its deferred function left. */
  method AnswerOf(w: World) returns (r: Fetched)
    requires Possible(w)
    ensures r.Token? <==> BodyOf(w).Token? && TornDownLive(w)
    ensures r.Token? ==>
      && BodyOf(w) == Teardown.Token(r.text)
      && var s := AtReturn(w);
         s.bg.at.Finished? && s.bg.ranUnsub && s.bg.ranDisc && !s.bg.ctxSeen && Teardown.TransportEnded(s)
    ensures r == TeardownCut <==> BodyOf(w).Token? && !TornDownLive(w)
    ensures forall why :: r == BodyFailed(why) <==> BodyOf(w) == Teardown.BodyError(why)
    ensures r != DialFailed && r != ConnectFailed
    ensures BodyOf(w).Token? <==> w.nonce && w.subscribe && w.send && w.reply.Message? && NotBlank(w.reply.body)
  {
    DeferEnds(Start(w), w.schedule);
    Teardown.ResultExactly(BodyOf(w), HasSub(w), w.ctxDone, w.schedule);
    if w.reply.Message? {
      NotBlankIs(w.reply.body);
    }
    match AtReturn(w).fg.result.value {
      case Got(text) =>
        TokenMeansOver(w);
        r := Token(text);
      case Failed(why) => r := BodyFailed(why);
      case TeardownFailed(_) => r := TeardownCut;
    }
  }

  /** What the second leg does to its transport. */
  function SecondEvents(token: string, connected: bool): (events: seq<Event>) {
    [Dial(2), Connect(2, token, "")] + (if connected then [] else [Close(2)])
  }

  /** The second leg: the token as login, and the transport closed again when the handshake fails. */
  method SecondDial(w: World, token: string) returns (conn: bool, events: seq<Event>)
    requires w.dial2
    ensures conn == w.connect2 && events == SecondEvents(token, conn)
  {
    events := [Dial(2), Connect(2, token, "")];
    conn := w.connect2;
    if !conn {
      events := events + [Close(2)];
    }
  }

  /** All events are of the first leg. */
  predicate FirstOnly(events: seq<Event>) {
    forall i :: 0 <= i < |events| && !events[i].TeardownReturned? ==> events[i].leg == 1
  }

  lemma NoSecondLeg(first: seq<Event>, t: Teardown.State)
    requires FirstOnly(first)
    ensures Dial(2) !in first && FateOf(first, 2, false, t) == NotDialed
  {
  }

  /** The second leg decides its own fate and leaves that of the first. */
  lemma SecondLeg(first: seq<Event>, token: string, connected: bool, t: Teardown.State)
    requires FirstOnly(first)
    ensures var all := first + SecondEvents(token, connected);
      && FateOf(all, 1, false, t) == FateOf(first, 1, false, t)
      && FateOf(all, 2, connected, t) == (if connected then Owned else Closed)
      && |all| > |first| + 1 && all[..|first|] == first && TeardownReturned !in all[|first|..]
      && Dial(2) in all && all[|first| + 1] == Connect(2, token, "")
      && (forall i :: 0 <= i < |all| && all[i].Connect? && all[i].leg == 2 ==> all[i] == Connect(2, token, ""))
  {
    var second := SecondEvents(token, connected);
    assert second[0] == Dial(2) && (!connected ==> second[2] == Close(2));
    assert forall e :: e in first + second <==> e in first || e in second;
    assert Close(2) in second <==> !connected;
    assert (first + second)[|first|..] == second;
  }

  /** How an exchange ends. */
  datatype Outcome = Connected | FirstLeg(f: Fetched) | SecondDialFailed | SecondConnectFailed

  /** The whole exchange.  It returns a connection if and only if a token arrived, the first leg's teardown ended on
      a live context, and the second leg was dialed and connected.  Each leg's transport is closed, gracefully
      disconnected or owned by the returned connection, but for the teardown race on the first.  The second
      leg is dialed only with a non-empty token, and at that moment the first leg's teardown is over: it was
      unsubscribed and disconnected on a live context, its background goroutine is through, and its transport
      has ended. */
  method Exchange(w: World, user: string, pass: string) returns (r: Outcome, events: seq<Event>)
    requires Possible(w)
    ensures r == Connected <==> TokenArrived(w) && TornDownLive(w) && w.dial2 && w.connect2
    ensures r == SecondDialFailed <==> TokenArrived(w) && TornDownLive(w) && !w.dial2
    ensures r == SecondConnectFailed <==> TokenArrived(w) && TornDownLive(w) && w.dial2 && !w.connect2
    ensures r.FirstLeg? <==> !(TokenArrived(w) && TornDownLive(w))
    ensures r == FirstLeg(DialFailed) <==> !w.dial1
    ensures r == FirstLeg(ConnectFailed) <==> w.dial1 && !w.connect1
    ensures r == FirstLeg(TeardownCut) <==> TokenArrived(w) && !TornDownLive(w)
    ensures r.FirstLeg? ==> !r.f.Token?
    ensures AllOver(w) ==> (FateOf(events, 1, false, AtEnd(w)) == LeftOpen <==> w.dial1 && w.connect1 && Raced(w))
    ensures r == Connected <==> FateOf(events, 2, r == Connected, AtEnd(w)) == Owned
    ensures r == SecondConnectFailed <==> FateOf(events, 2, r == Connected, AtEnd(w)) == Closed
    ensures !r.Connected? && !r.SecondConnectFailed? ==> FateOf(events, 2, false, AtEnd(w)) == NotDialed
    ensures Dial(2) in events <==> r == Connected || r == SecondConnectFailed
    ensures Dial(2) in events ==>
      && |events| > 4 && events[..3] == [Dial(1), Connect(1, user, pass), TeardownReturned]
      && Dial(2) !in events[..3] && TeardownReturned !in events[3..]
      && w.reply.Message? && events[4] == Connect(2, TrimSpace(w.reply.body), "") && TrimSpace(w.reply.body) != ""
      && var s := AtReturn(w);
         s.bg.at.Finished? && s.bg.ranUnsub && s.bg.ranDisc && !s.bg.ctxSeen && Teardown.TransportEnded(s)
  {
    var f: Fetched;
    f, events := FetchToken(w, user, pass);
    if !f.Token? {
      NoSecondLeg(events, AtEnd(w));
      return FirstLeg(f), events;
    }
    if !w.dial2 {
      NoSecondLeg(events, AtEnd(w));
      return SecondDialFailed, events;
    }
    SecondLeg(events, f.text, w.connect2, AtEnd(w));
    var conn, second := SecondDial(w, f.text);
    events := events + second;
    r := if conn then Connected else SecondConnectFailed;
  }
}
