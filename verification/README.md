# Verified model of the GridAPPS-D Go client's message bus

The client talks to a GOSS/STOMP broker. What is hard about it is lifecycle under concurrency: readers,
subscriptions, teardown and cancellation race each other. This project models those parts in Dafny and
proves what they keep in every interleaving.

How to read it:

- **Step systems.** Each concurrent package is a set of actions with a guard (`Enabled`) and an effect
  (`Step`). A run is any sequence of actions each enabled where it happens (`Legal`), and `Exec` is the state
  it leads to. One lock-held section is one action; each channel operation, `close(done)`, and each call into
  the transport or go-stomp is an action of its own. The broker, go-stomp, the context and the scheduler act
  at any time. A theorem about all `Legal` runs is a theorem about all interleavings. A lock section is one
  step although `done` is closed without the lock: each section reads a state's `done` once, and a close that
  falls behind that read can as well come behind the section.
- **Records of the past.** Fields such as `seen`, `calls`, `delivered` or `taken` record what happened and
  steer nothing. `owed` and `unsubs` stand for program positions the code keeps on its stacks: the transport
  Unsubscribe calls still to be made, and those made, which Close awaits before it waits for the readers.
- **Methods and classes.** Loops and lock sections are also written as methods on the fields the code has,
  proved against the step systems or against a direct specification. A `*destState` pointer is an index into
  `Router.states`.

Modules: `RouterModel`, `RouterSafety`, `RouterReports`, `RouterDispatch`, `RouterStopping`,
`RouterQuiescence`, `RouterImpl`, `ErrorQueue` and `Observability` (internal/router); `DisconnectGate` and `Bridge` (internal/stomp); `EndToEnd` and
`EndToEndClose` (router on top of bridges); `Utf8`, `Tokens`, `Escape`, `EscapeForms`, `Teardown` and `Exchange` (internal/auth); `ReqResp`
(internal/reqresp); `FieldBus`, `BusSessions` and `BusStaleToken` (fieldbus).

Six results are negative. Each says exactly when the code does what its comments promise, and gives a run
in which it does not:

- The router's contract says a reader that stops for any reason other than a teardown the router performed
  publishes the cause. It does, except in two windows, both open only when the channel closed without an error:
  after the reader has stopped and before it takes the lock, a Subscribe replaces its state, or a late
  Unsubscribe or Close takes it out (`RouterReports.FailureObservableExactly`, with the runs in
  `RouterReports.UnreportedClose` and `RouterReports.LateTeardown`).
- The same contract says a registered destination has a live reader, and that no Token is bound to a reader
  that has already exited. A reader stays registered, and with its `done` channel open it is still attached to,
  after it has read its last message. A returned token's reader has left its loop exactly when the call attached
  in that window (`RouterSafety.HealthContract`, `RouterSafety.TokenBoundToRegisteredReader`,
  `RouterReports.ReplacementWindow`). Such a token is never called, and its caller learns of it as every other
  caller of that reader does (`RouterStopping.LateTokenNeverCalled`, `LateTokenFate`); in the run of
  `RouterStopping.SilentToken` not at all.
- Close is documented to leave no goroutine that outlives the router. From its return on, that lasts exactly as
  long as no Subscribe creates a subscription (`RouterQuiescence.StaysClosedDownExactly`, with the run in
  `RouterQuiescence.SubscribeOutlivesClose`).
- The bus promises a distinct token for each Subscribe, and that an unknown token is a no-op. Each session's
  router numbers its tokens from one, so a token that outlived its session removes another caller's handler
  exactly when a later session issued the same number for the same destination and that handler is still
  registered (`BusSessions.StaleTokenExactly`, with the run in `BusStaleToken.StaleTokenRemovesOther`).
- The credential connection is documented as always ended. It is, except when Disconnect failed and the
  context became done between `stop()` and `close(done)` of the background goroutine with the caller leaving
  before the latter; then nothing closes the transport and the failure is not logged
  (`Teardown.TransportEndedExactly`, with the run in `Teardown.TransportLeftOpen`).
- GetResponse is documented to return the context's error when the context expires. Its reply subscription runs
  on the same context, so the bridge may close the reply channel first and the call may report a closed
  subscription. It may exactly once the bridge has closed its output with nothing passed on
  (`ReqResp.ExpiryReportedExactly`, with two runs in `ReqResp.ExpiryReportedAsClosed`).

## Model

| member | source | states |
|---|---|---|
| RouterSafety.InvAlways | internal/router/router.go:167-315 | every reachable state of router, callers and readers satisfies the registry, reader and token invariants |
| RouterSafety.HealthContract | internal/router/router.go:32-42 | in every interleaving a registered destination has a handler and a reader that has not deregistered; that reader is in its loop exactly until the run has it read an error or the end of its closed channel, and after that its next step towards deregistering is enabled |
| RouterSafety.LoopHistory | internal/router/router.go:274-306 | whether a reader has left its loop, and whether its done channel is closed, read off the run in both directions |
| RouterSafety.TokenBoundToRegisteredReader | internal/router/router.go:173-199 | a returned token is bound to the registered reader of its destination, whose done channel is open, and to no other; that reader has already left its loop if and only if the call attached to it after its last receive |
| RouterSafety.NeverReregistered | internal/router/router.go:303-316 | a reader out of the registry never comes back to it, for the rest of any run |
| RouterSafety.DeregisteredIsOut | internal/router/router.go:308-316 | past its last lock section a reader is not registered |
| RouterSafety.StaleTokenNoOp | internal/router/router.go:202-218 | Unsubscribe with a stale, unknown or misdirected token changes nothing at all, also after a replacement |
| RouterSafety.UnsubscribeRemovesOne | internal/router/router.go:206-231 | Unsubscribe removes the one registration of its token, the destination exactly when it was the last, and then owes one transport Unsubscribe exactly when the reader lives |
| RouterSafety.OnlyOwnTokenRemoves | internal/router/router.go:24-27 | no action other than Unsubscribe with its own token and destination ends a registration |
| RouterSafety.UnsubscribedAtMostOnce | internal/router/router.go:222-235 | over a whole run the router unsubscribes a transport subscription at most once, and only after the last handler left or Close ran |
| RouterSafety.WaitGroupCounts | internal/router/router.go:196-271 | in every run the WaitGroup is the number of readers started and not exited, so never negative, and zero exactly when all have exited |
| RouterSafety.CloseLeavesNothing | internal/router/router.go:241-263 | Close returns only with its WaitGroup at zero; then every reader has exited, the registry is empty, and every subscription it collected has been unsubscribed once |
| RouterReports.RemovalHistory | internal/router/router.go:173-263 | which actions of the run took a reader out of the registry, both directions |
| RouterReports.ExactReport | internal/router/router.go:303-323 | a finished reader published exactly its broker error, else its closed subscription unless torn down or replaced first, and at most one report |
| RouterReports.OwnTeardownSilent | internal/router/router.go:141-144 | a teardown the router performed is never reported as a closed subscription |
| RouterReports.ReplacementWindow | internal/router/router.go:82-87 | while a destination has a registered reader, Subscribe creates a fresh subscription if and only if that reader has closed its done channel, and otherwise attaches, also when the reader has left its loop |
| RouterReports.FailureObservableExactly | internal/router/router.go:32-39 | a finished reader that stopped before the router tore anything down has published the cause if and only if it had read an error or its state was neither replaced nor torn down before it took the lock |
| RouterReports.UnreportedClose | internal/router/router.go:179-196 | for any destination, a run in which a plain close is published nowhere although the router tore nothing down |
| RouterReports.LateTeardown | internal/router/router.go:220-231 | for any destination, a run in which a reader stopped on a plain close, its last handler is unsubscribed before it takes the lock, nothing is asked of the transport, and nothing is published |
| RouterDispatch.DispatchWindow | internal/router/router.go:274-301 | a registration's calls are, once each and in order, the bodies snapshotted between its insertion and removal, all of its own reader and before its first error; no other reader calls it |
| RouterDispatch.StoppedReaderDispatchedAll | internal/router/router.go:274-301 | in every interleaving a stopped reader dispatched exactly the bodies before the first error of its channel, and that error ended it |
| RouterStopping.LateTokenNeverCalled | internal/router/router.go:38-42 | a token attached to a reader that has left its loop is never called, by that reader or any other, for the rest of any run |
| RouterStopping.LateTokenFate | internal/router/router.go:303-323 | what is published once that reader has exited, in every case; nothing exactly when its channel closed without an error and its state was torn down or replaced |
| RouterStopping.LateAttach | internal/router/router.go:173-177 | for any destination, a run in which Subscribe attaches to a reader that has left its loop |
| RouterStopping.SilentToken | internal/router/router.go:179-184 | a run in which such a token's reader has exited, nothing was called, and nothing was published although the router tore nothing down |
| RouterQuiescence.CloseTerminates | internal/router/router.go:241-263 | once Close has emptied the registry, and while no Subscribe creates a subscription, the steps of readers, owed Unsubscribe calls and channel closes are bounded by the work there was plus a bound for every message still delivered, whatever else callers do |
| RouterQuiescence.UnfinishedMoves | internal/router/router.go:256-262 | while a reader has not exited some step must come: its own, an owed Unsubscribe, or the transport's close of an unsubscribed channel |
| RouterQuiescence.QuiescentMeansClosed | internal/router/router.go:256-263 | when nothing more must come all readers have exited and every pending Close returns |
| RouterQuiescence.StaysClosedDownExactly | internal/router/router.go:260-263 | from the return of Close on, the registry stays empty and all readers exited at every later point if and only if no Subscribe creates a subscription |
| RouterQuiescence.SubscribeOutlivesClose | internal/router/router.go:167-200 | for any destination, a run in which a Subscribe registers a live destination after Close returned |
| RouterQuiescence.CloseDoesNotBarSubscribe | internal/router/router.go:167-200 | wherever Close can return, a Subscribe already under way registers a live destination on the closed router |
| RouterImpl.Router.DrawToken | internal/router/router.go:168-168 | the drawn token is in flight and was never registered |
| RouterImpl.Router.SubscribeLocked | internal/router/router.go:170-199 | Subscribe's lock section performs exactly Attach, Create or SubscribeFails; the handler is bound to its token in the live state or in a new one, and everything else stays |
| RouterImpl.Router.UnsubscribeLocked | internal/router/router.go:207-231 | Unsubscribe's lock section performs exactly the Unsubscribe action, takes the token's binding and no other out of the destination's handler map, leaves every other state, and hands out the state to cancel exactly when its last handler left and its reader lives |
| RouterImpl.Router.BoundAsGiven | internal/router/router.go:167-200 | in every reachable router a registered token is bound to the handler its own Subscribe was given |
| RouterImpl.Router.CollectLive | internal/router/router.go:246-252 | Close's loop collects exactly the registered live subscriptions |
| RouterImpl.Router.CloseLocked | internal/router/router.go:245-254 | Close's lock section performs exactly CloseLock, clears the registry, and collects the registered states whose reader lives, and no others |
| RouterImpl.Router.DeregisterLocked | internal/router/router.go:308-316 | readLoop's last lock section performs exactly Deregister and removes the destination exactly when the state is the registered one |
| RouterImpl.CallEach | internal/router/router.go:286-300 | the dispatch loop calls each handler of the snapshot exactly once, with the body |
| RouterImpl.ReadLoop | internal/router/router.go:270-323 | for every channel content and every interference between its lock sections: which token's handler is called with which bodies, and what is published |
| RouterImpl.PickedCallsGiven | internal/router/router.go:279-300 | with the bindings of the lock sections, a token is always handed to the handler it was registered with |
| RouterImpl.ReaderFollowsLoop | internal/router/router.go:270-323 | every reader of every run called and published what ReadLoop does on the messages, handler maps and registration that reader met in the run |
| ErrorQueue.DropsOldest | internal/router/router.go:146-150 | with any number of publishers and consumers, what left the channel is the oldest part of what entered it, in order |
| ErrorQueue.LossNeedsBurst | internal/router/router.go:325-342 | a publishErr call loses its own error only if at least 16 other sends succeeded while it ran, whatever the capacity |
| ErrorQueue.BoundedRounds | internal/router/router.go:328-331 | every call makes at most 17 attempts in any schedule |
| ErrorQueue.NothingLostUndrained | internal/router/router.go:56-59 | over the whole life of a channel, as long as at no one time more failures are undrained than it holds, none is discarded and none lost |
| ErrorQueue.NothingLostUpToCapacity | internal/router/router.go:56-59 | the special case of the first failures of a channel, as many as it holds |
| ErrorQueue.ErrChan.PublishErr | internal/router/router.go:330-342 | the loop against arbitrary interference: bounded rounds, loss only under a burst; undisturbed it always queues, at the price of the oldest when full |
| Observability.StaysCoupled | internal/router/router.go:318-342 | readers and error channel together: every joint move keeps both in legal runs, one publishErr call to a reader, made before it counts as having published |
| Observability.ReportOnChannel | internal/router/router.go:146-150 | for every report of every reader, however many routers share the channel: it entered the channel, and is queued or was taken out, or at least 16 other errors entered during its call |
| Observability.FailureReadable | internal/router/router.go:32-39 | as long as at no one time more failures are undrained than the channel holds, by all routers on it and over any number of failures, the cause of an exited reader is on the channel or was read there if and only if it read an error or its state was neither replaced nor torn down before it took the lock |
| DisconnectGate.InvAlways | internal/stomp/stomp.go:183-240 | the pending count is the number of unsubscribes between gate and end; a Disconnect past its wait means none |
| DisconnectGate.NoOverlap | internal/stomp/stomp.go:125-127 | while a Disconnect call is past its wait no go-stomp Unsubscribe is in progress or about to start |
| DisconnectGate.NoneStartsAfter | internal/stomp/stomp.go:183-240 | and none starts for the rest of the run |
| DisconnectGate.GoUnsubscribeAtMostOnce | internal/stomp/stomp.go:292-321 | go-stomp's Unsubscribe runs at most once per subscription, never for a refused one |
| DisconnectGate.SameResult | internal/stomp/stomp.go:292-299 | every Unsubscribe call that returns gets the one attempt's result, panics included |
| DisconnectGate.ResultExactly | internal/stomp/stomp.go:301-321 | over the whole run, a call returns go-stomp's error, a recovered panic, the refusal or nil exactly when its subscription's one attempt ended that way |
| DisconnectGate.GracefulOnlyWhileLive | internal/stomp/stomp.go:188-196 | a graceful disconnect is chosen exactly when no end of the connection was reported before |
| DisconnectGate.WaitEnds | internal/stomp/stomp.go:184-187 | Disconnect's wait ends: the pending unsubscribes can move, finitely often, and none is added |
| DisconnectGate.Conn.BeginUnsubscribe | internal/stomp/stomp.go:228-238 | performs exactly Begin: refuses once closing, otherwise counts the unsubscribe |
| DisconnectGate.Conn.Unsubscribe | internal/stomp/stomp.go:301-321 | interleaved with any steps of others, performs exactly one attempt of the step system: refused once closing; otherwise it ends uncounted, and go-stomp's nil, error and runtime panic give nil, that failure and the recovered panic, while any other panic goes on to the caller |
| DisconnectGate.Conn.Disconnect | internal/stomp/stomp.go:183-221 | interleaved with any steps of others, performs exactly one Disconnect of the step system: go-stomp is called with the gate closed and nothing pending, gracefully exactly when no end was reported by the choice, and its failure is returned |
| Bridge.DeliversPrefix | internal/stomp/stomp.go:323-380 | for every source and schedule the delivered sequence is a beginning of the source, each message with its own body and destination, each error with its cause, nothing after the first error; all of it when neither signal fired |
| Bridge.CutIs | internal/stomp/stomp.go:353-368 | the cut is the source up to and including its first error: bodies and destinations of the messages, the cause of the error |
| Bridge.ChannelDiscipline | internal/stomp/stomp.go:326-380 | output closed at most once and never sent on when closed; on return closed, source consumed, connection end reported exactly if an ERROR frame was in it; one Unsubscribe launched exactly if a select took its context case |
| Bridge.KeepsDraining | internal/stomp/stomp.go:256-260 | after closing, the bridge never blocks while its source has something |
| Bridge.StopCloses | internal/stomp/stomp.go:293-299 | once Unsubscribe began, closing the output is enabled whatever go-stomp does, and any other bridge step uses up a queued message |
| Bridge.ContextCloses | internal/stomp/stomp.go:335-342 | once the context is done, closing the output and launching the Unsubscribe is enabled |
| Bridge.Run | internal/stomp/stomp.go:326-380 | the nested-select loop under any choice of ready cases: one close, a beginning of the source in its own bodies, destinations and causes, all of it when neither signal fired, one launch when the context cut it short |
| EndToEnd.StaysCoupled | internal/stomp/stomp.go:326-380 | bridges refine the router's assumptions about its channels, step by step |
| EndToEnd.CloseChanDischarged | internal/router/router.go:232-233 | the close of the channel that Router.Close waits for is a step its bridge can take at once |
| EndToEnd.DispatchedFromSource | internal/router/router.go:270-301 | what a stopped reader dispatched are the bodies of go-stomp's first messages, none behind its first error, which is the error that ended the reader; all of them if the router did not unsubscribe |
| EndToEnd.HandlerGetsAll | internal/router/router.go:153-158 | a handler registered throughout is called with the body of every message go-stomp delivered before its first error, once, in order |
| EndToEndClose.CloseTerminates | internal/router/router.go:241-263 | router and bridges together: once Close has emptied the registry, and while no Subscribe creates a subscription, all steps of readers, owed Unsubscribe calls and bridges are bounded by the work there is plus a bound for every message go-stomp still feeds |
| EndToEndClose.UnfinishedMoves | internal/router/router.go:256-262 | and while a reader has not exited one of those steps is possible, whatever go-stomp does |
| Utf8.DecodeReadsEncoding | internal/auth/auth.go:222-223 | decoding reads exactly the encoding of the rune it returns (sections 3 and 4 of RFC 3629) |
| Utf8.EncodeDecodes | internal/auth/auth.go:222-223 | an encoded scalar value is read back as itself, whatever follows |
| Utf8.DecodeLocal | internal/auth/auth.go:225-226 | a rune depends on its own bytes only, and an invalid byte stays invalid when the text is cut |
| Escape.TokenUnescapes | internal/auth/auth.go:224-239 | every kind of token is read back as its own bytes, whatever follows it |
| Escape.RoundTrip | internal/auth/auth.go:209-217 | unescaping the escaped text gives back the text, for every byte string |
| Escape.Injective | internal/auth/auth.go:212-217 | different texts have different escaped forms |
| Escape.FormatIs | internal/auth/auth.go:249-263 | the format characters are the bidirectional controls, the zero-width characters and the tags |
| EscapeForms.RuneWritten | internal/auth/auth.go:219-246 | the written form of every rune, byte for byte and wherever it stands: itself, `\\`, `\xNN`, `\uNNNN` or `\UNNNNNNNN` in lower-case digits |
| EscapeForms.InvalidWritten | internal/auth/auth.go:222-225 | each byte of invalid UTF-8 is written as `\xNN` |
| EscapeForms.KeptExactly | internal/auth/auth.go:209-217 | a text is left as it is if and only if it is valid, printable and without a backslash |
| Escape.BoundedText | internal/auth/auth.go:209-217 | for every text and limit: within the limit, well-formed, printable, read back as a prefix, all of it exactly when the whole escaped text fits, stopping before the first token that does not fit |
| Escape.MonotoneInLimit | internal/auth/auth.go:210-212 | a larger limit only extends the output |
| Tokens.WriteTokens | internal/auth/auth.go:219-246 | the loop writes the longest run of whole tokens that fits and reports whether one was left |
| EscapeForms.EscapeBounded | internal/auth/auth.go:218-247 | short, printable, the longest beginning of the escaped text in whole tokens, read back as a prefix, truncated exactly when not read back as the whole text; ordinary text that fits is unchanged |
| Escape.TextBound | internal/auth/auth.go:194-207 | a step error's text is one printable line of at most 512 + 23 bytes plus the digits of the length |
| Escape.JoinedBound | internal/auth/auth.go:179-192 | the joined text of both steps is one printable line with an explicit byte bound |
| EscapeForms.ErrorTextIs | internal/auth/auth.go:194-207 | the text of a step error: the whole escaped text up to 512 bytes, otherwise its longest beginning and the note with the length of the error |
| EscapeForms.DecimalIs | internal/auth/auth.go:206-206 | that length is written in decimal without leading zeros |
| EscapeForms.JoinedIs | internal/auth/auth.go:184-192 | the joined text is the first error, `; ` and the second; either alone as it is |
| Teardown.InvAlways | internal/auth/auth.go:139-177 | every reachable state of teardown goroutine, caller, context and transport |
| Teardown.TokenOnlyAfterTeardown | internal/auth/auth.go:292-298 | a token is returned only if the context was live after the last step, so Unsubscribe and Disconnect both ran |
| Teardown.ResultExactly | internal/auth/auth.go:292-298 | for every schedule: a token that arrived is returned if and only if the caller did not leave early and the context was live when the results were recorded, whether or not a step failed; otherwise a teardown error; a failed body keeps its own |
| Teardown.StepsNeedLiveContext | internal/auth/auth.go:155-161 | Unsubscribe and Disconnect are entered exactly when the context is live at their check, Unsubscribe only with a subscription |
| Teardown.StepHistory | internal/auth/auth.go:154-162 | the recorded errors are those the two steps returned, each in its own place |
| Teardown.UnsubscribeFirst | internal/auth/auth.go:155-161 | Disconnect is entered only after the Unsubscribe step |
| Teardown.BodyErrorKept | internal/auth/auth.go:297-298 | an error of the body is never overwritten |
| Teardown.StepErrorReportedOnce | internal/auth/auth.go:328-348 | a returned step error is logged or wrapped, exactly one of both |
| Teardown.StepErrorsReported | internal/auth/auth.go:328-348 | over the whole run, an error is logged or wrapped, never both, if and only if a teardown step returned it and the caller did not leave early; at most one line is logged |
| Teardown.TransportEndedExactly | internal/auth/auth.go:149-177 | the credential transport ends closed or disconnected if and only if the late race did not happen |
| Teardown.RaceIs | internal/auth/auth.go:167-175 | the two conditions of that race, read off the run: the context done between stop and close of done, and the caller's default branch |
| Teardown.TransportLeftOpen | internal/auth/auth.go:152-175 | the run of that race |
| Teardown.EveryScheduleEnds | internal/auth/auth.go:152-177 | every schedule has at most eleven steps |
| Teardown.SomethingMoves | internal/auth/auth.go:167-175 | no schedule gets stuck before caller and background goroutine are through |
| Exchange.TrimIs | internal/auth/auth.go:392-392 | trimming keeps one stretch of the text, everything outside it is Unicode white space, and it neither begins nor ends with it |
| Exchange.FetchToken | internal/auth/auth.go:299-400 | a token if and only if every call succeeded, the reply is a message that is not blank, and the teardown ended on a live context; its text is the trimmed reply; every other path has its own error; where the first transport ends up |
| Exchange.Exchange | internal/auth/auth.go:90-124 | a connection if and only if fetchToken gave a token and the second leg was dialed and connected; ledger of both transports; at the second dial the first leg was unsubscribed and disconnected, its background goroutine is through and its transport has ended |
| ReqResp.HexNameInjective | internal/reqresp/reqresp.go:52-52 | hex naming of nonces is injective |
| ReqResp.HexNameIs | internal/reqresp/reqresp.go:52-52 | two lower-case hexadecimal digits for each byte, the high one first |
| ReqResp.ReplyDestInjective | internal/reqresp/reqresp.go:48-53 | different nonces name different reply destinations |
| ReqResp.AnswersOwnRequest | internal/reqresp/reqresp.go:13-15 | among any number of concurrent calls, a call returns only a reply to its own request |
| ReqResp.ReturnsFirstReply | internal/reqresp/reqresp.go:78-86 | a call whose select takes a reply returns the first one that came for it, whatever the other calls and the broker do |
| ReqResp.OutcomeHistory | internal/reqresp/reqresp.go:55-90 | how a call ends, read off the run: a reply exactly when its select took one, each failure exactly when it happened |
| ReqResp.NoReplyTooEarly | internal/reqresp/reqresp.go:55-61 | a reply reaches the call that sent the request and no other, and its subscription already exists |
| ReqResp.UnsubscribedOnce | internal/reqresp/reqresp.go:60-61 | a call that returned unsubscribed the reply subscription it made exactly once |
| ReqResp.MergeHeaders | internal/reqresp/reqresp.go:63-69 | the caller's headers with reply-to overridden |
| ReqResp.NormalizeDestination | topics/topics.go:33-40 | a name with one of the three prefixes is unchanged, any other goes behind `/queue/` |
| ReqResp.GetResponse | internal/reqresp/reqresp.go:39-90 | the effects of a call in order on every path, subscribe, send with the bare name, unsubscribe last, and which error each failure returns |
| ReqResp.ExpiryReportedExactly | internal/reqresp/reqresp.go:36-38 | with the context done, the call certainly returns the context's error if and only if the bridge has neither passed anything on nor closed its output, and may report a closed subscription if and only if it closed its output with nothing passed on |
| ReqResp.ClosedMeansEnded | internal/reqresp/reqresp.go:37-38 | with the context live, a closed reply channel means go-stomp ended the subscription without a reply or an error |
| ReqResp.ExpiryReportedAsClosed | internal/stomp/stomp.go:335-342 | the exception on an idle subscription, and with a reply in the bridge's hand that is dropped |
| FieldBus.FlagsAgree | fieldbus/fieldbus.go:128-131 | after every step connected flag, connection and router agree |
| FieldBus.DisconnectedOnceAfterClose | fieldbus/fieldbus.go:192-210 | a connection is disconnected at most once, by the one call that took it, after its own router was closed |
| FieldBus.NoSessionLost | fieldbus/fieldbus.go:167-199 | a session is the bus's or taken by a Disconnect call, never neither; Connect on a connected bus and Connect that cannot dial change nothing, any other establishes one session |
| FieldBus.CloseComesFirst | fieldbus/fieldbus.go:201-205 | a Disconnect call enters its connection's Disconnect only after its router's Close step; BusSessions.ConnectionAfterRouter says what that Close has done |
| FieldBus.OneErrorChannel | fieldbus/fieldbus.go:138-151 | all sessions publish on the channel the bus was created with |
| BusSessions.StaysCoupled | fieldbus/fieldbus.go:192-243 | bus and routers together, with any number of Subscribe, Unsubscribe and Disconnect calls: every session's router stays in a legal run of its own, and its registrations are those of the bus's Subscribe calls |
| BusSessions.SubscribeReturns | fieldbus/fieldbus.go:219-230 | a bus Subscribe returns a token if and only if the destination has a live reader or the dial succeeds, and its handler is then registered for the normalized destination |
| BusSessions.DrawNumber | internal/router/router.go:168-168 | the n-th token of every session is n |
| BusSessions.DistinctWithinSession | fieldbus/fieldbus.go:74-79 | two Subscribe calls that return the same token belong to different sessions |
| BusSessions.UnknownTokenExactly | fieldbus/fieldbus.go:81-85 | Unsubscribe changes nothing if and only if the session it reaches has no handler under that number for the destination, and afterwards it has none |
| BusSessions.StaleTokenExactly | fieldbus/fieldbus.go:232-243 | a token of one session removes another call's handler in a later one if and only if that session issued the same number for the same destination and the handler is still registered |
| BusStaleToken.StaleTokenRemovesOther | fieldbus/fieldbus.go:232-243 | for any destination, a run over two whole sessions in which a stale token removes another call's only handler and its subscription |
| BusSessions.ConnectionAfterRouter | fieldbus/fieldbus.go:192-210 | when a Disconnect call disconnects its connection, its router's Close has returned with an empty registry and all readers exited, which has lasted exactly if no Subscribe created a subscription since, and no new call reaches that router |
| FieldBus.MessageBus.Connect | fieldbus/fieldbus.go:167-188 | idempotent; establishes a session exactly on a successful dial of an unconnected bus |
| FieldBus.MessageBus.DisconnectLocked | fieldbus/fieldbus.go:192-199 | takes connection and router off the bus together |

## Left out

- Wrap-around of the 64-bit token counter after 2^64 Subscribe calls: tokens are unbounded naturals.
- go-stomp, the broker and TLS: they are the environment, which may return, fail, panic, deliver and close in any order.
- Wall-clock behaviour (disconnect bound, `closeAfter`, receipt timeouts): a go-stomp call returns at some point; its error texts are not modelled.
- The test hook `readyForSend`, heart-beat resolution and the dialing code of gridappsd/client.go.
- Nonce quality, base64 payload and slog formatting: by assumption a nonce differs from those of all earlier calls, returned ones included, since a late answer may still come for them; logging is a list.
- The message destination header that the bridge passes on is not used by the router and not carried into its model.
- RouterImpl.ReadLoop: interference is given as what each lock section finds; RouterImpl.ReaderFollowsLoop relates it to the interleavings of the step system.
- RouterImpl.Router.SubscribeLocked: a destination state is a value at an index of a sequence, so aliasing of pointers is not captured.
- Exchange.FetchToken: the start of the close on a done context and the context's becoming done are one step.
- Teardown.TransportEndedExactly: a failed Disconnect counts as not having closed the transport, as the code itself assumes.
- A panic of go-stomp that is not a runtime error is in the gate only; under the token exchange it ends the process.
- Handlers that call back into the router, a Close from a handler above all, are not modelled: a handler call returns.
- fieldbus Send and GetResponse, which read the session under the lock and pass it on.
- The router's WaitGroup is a field of the step system; RouterImpl.Router holds the fields its lock sections use.
- The wording of Disconnect's error, which depends on the timers above: DisconnectGate has only whether it fails.
- Fairness: the bound on the steps after Close is over finite runs; that the scheduler lets every enabled step happen at some point is not modelled.
