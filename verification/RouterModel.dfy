/** The router as a step system.  One lock-held section, one channel operation and one
    call into the transport is one action; the broker and the transport act at any time. */
module RouterModel {
  import opened Prelude

  type Token = nat

  /** What a reader publishes when it stops. */
  datatype Report = BrokerError(dest: Dest, cause: string) | SubscriptionClosed(dest: Dest)

  /** How a destination's state left the registry. */
  datatype Removal = Registered | LastHandlerLeft | RouterClosed | Replaced | ReaderExit

  /** Where a reader goroutine stands. */
  datatype Phase =
    | Receiving
    | Holding(body: string)                            // message taken, handlers not yet snapshotted
    | Dispatching(body: string, pending: set<Token>)   // snapshot taken, calls outstanding
    | Stopping                                         // loop left, done still open
    | Marked                                           // done closed, lock not yet taken
    | Publishing(report: Report)                       // deregistered, error still to publish
    | Finished

  datatype Call = Call(token: Token, body: string)

  /** A destination state and its reader.  The code has no such fields as `owed`, which counts the
      transport Unsubscribe calls that callers past their lock section still have to make, and `unsubs`,
      `input`, `seen`, `from`, `upto`, `calls` and `reports`, which record the past. */
  datatype Reader = Reader(
    dest: Dest,
    handlers: set<Token>,
    phase: Phase,
    term: Option<string>,
    queue: seq<Msg>,
    closed: bool,
    removal: Removal,
    owed: nat,                // transport Unsubscribe calls a router call is committed to
    unsubs: nat,              // transport Unsubscribe calls made
    input: seq<Msg>,          // everything the transport put on the channel
    seen: seq<string>,        // bodies snapshotted, in order
    from: map<Token, nat>,    // |seen| when the token was registered
    upto: map<Token, nat>,    // |seen| when the token was removed
    calls: seq<Call>,
    reports: seq<Report>)
  {
    /** The reader has closed its done channel. */
    predicate Dead() { phase.Marked? || phase.Publishing? || phase.Finished? }

    /** The reader has left its loop: it dispatches nothing more. */
    predicate LeftLoop() { phase.Stopping? || Dead() }

    /** The reader has passed its deregistration step. */
    predicate Deregistered() { phase.Publishing? || phase.Finished? }
  }

  /** A Close call past its lock section: the subscriptions it must unsubscribe. */
  datatype Closer = Closer(subs: set<nat>, returned: bool)

  datatype State = State(
    dests: map<Dest, nat>,
    readers: seq<Reader>,
    nextToken: nat,
    inFlight: set<Token>,     // tokens drawn by Subscribe calls that do not hold the lock yet
    closers: seq<Closer>,
    wg: int)                  // the WaitGroup: readers started less readers exited

  datatype Action =
    // callers
    | DrawToken
    | Attach(tok: Token, dest: Dest)
    | Create(tok: Token, dest: Dest)
    | SubscribeFails(tok: Token, dest: Dest)
    | Unsubscribe(dest: Dest, tok: Token)
    | CallUnsub(k: nat)
    | CloseLock
    | CloseReturn(c: nat)
    // environment
    | Deliver(k: nat, msg: Msg)
    | CloseChan(k: nat)
    // readers
    | Receive(k: nat)
    | ReceiveEnd(k: nat)
    | Snapshot(k: nat)
    | Invoke(k: nat, tok: Token)
    | EndDispatch(k: nat)
    | MarkDone(k: nat)
    | Deregister(k: nat)
    | Publish(k: nat)

  const INIT := State(map[], [], 0, {}, [], 0)

  /** Reader k is the registered state of destination d. */
  predicate At(s: State, d: Dest, k: nat) { k < |s.readers| && d in s.dests && s.dests[d] == k }

  predicate IsRegistered(s: State, k: nat) { k < |s.readers| && At(s, s.readers[k].dest, k) }

  predicate HasLive(s: State, d: Dest) {
    d in s.dests && s.dests[d] < |s.readers| && !s.readers[s.dests[d]].Dead()
  }

  /** Actions that read and write the state of a single reader. */
  predicate Local(a: Action) {
    a.CallUnsub? || a.Deliver? || a.CloseChan? || a.Receive? || a.ReceiveEnd? || a.Snapshot? || a.Invoke?
    || a.EndDispatch? || a.MarkDone? || a.Publish?
  }

  predicate Ready(r: Reader, a: Action)
    requires Local(a)
  {
    match a
    case CallUnsub(_) => r.owed > 0
    case Deliver(_, _) => !r.closed
    case CloseChan(_) => !r.closed
    case Receive(_) => r.phase.Receiving? && r.queue != []
    case ReceiveEnd(_) => r.phase.Receiving? && r.queue == [] && r.closed
    case Snapshot(_) => r.phase.Holding?
    case Invoke(_, tok) => r.phase.Dispatching? && tok in r.phase.pending
    case EndDispatch(_) => r.phase.Dispatching? && r.phase.pending == {}
    case MarkDone(_) => r.phase.Stopping?
    case Publish(_) => r.phase.Publishing?
  }

  function LocalStep(r: Reader, a: Action): (r': Reader)
    requires Local(a) && Ready(r, a)
  {
    match a
    case CallUnsub(_) => r.(owed := r.owed - 1, unsubs := r.unsubs + 1)
    case Deliver(_, m) => r.(queue := r.queue + [m], input := r.input + [m])
    case CloseChan(_) => r.(closed := true)
    case Receive(_) =>
      (match r.queue[0]
       case Data(b) => r.(queue := r.queue[1..], phase := Holding(b))
       case Fault(c) => r.(queue := r.queue[1..], phase := Stopping, term := Some(c)))
    case ReceiveEnd(_) => r.(phase := Stopping)
    case Snapshot(_) => r.(seen := r.seen + [r.phase.body], phase := Dispatching(r.phase.body, r.handlers))
    case Invoke(_, t) =>
      r.(calls := r.calls + [Call(t, r.phase.body)], phase := Dispatching(r.phase.body, r.phase.pending - {t}))
    case EndDispatch(_) => r.(phase := Receiving)
    case MarkDone(_) => r.(phase := Marked)
    case Publish(_) => r.(reports := r.reports + [r.phase.report], phase := Finished)
  }

  function FreshReader(d: Dest, tok: Token): (r: Reader) {
    Reader(d, {tok}, Receiving, None, [], false, Registered, 0, 0, [], [], map[tok := 0], map[], [], [])
  }

  function AddHandler(r: Reader, tok: Token): (r': Reader) {
    r.(handlers := r.handlers + {tok}, from := r.from[tok := |r.seen|])
  }

  function DropHandler(r: Reader, tok: Token): (r': Reader) {
    if tok in r.handlers then r.(handlers := r.handlers - {tok}, upto := r.upto[tok := |r.seen|]) else r
  }

  /** The state leaves the registry by the router's own doing; a live one is to be unsubscribed. */
  function TearDown(r: Reader, why: Removal): (r': Reader) {
    if r.Dead() then r.(removal := why) else r.(removal := why, owed := r.owed + 1)
  }

  function RemoveToken(r: Reader, tok: Token): (r': Reader) {
    var r1 := DropHandler(r, tok);
    if r1.handlers != {} then r1 else TearDown(r1, LastHandlerLeft)
  }

  /** The report due after deregistration: a broker error always, a plain close when the state
      was still the registered one. */
  function ReportFor(r: Reader, unexpected: bool): (o: Option<Report>) {
    match r.term
    case Some(cause) => Some(BrokerError(r.dest, cause))
    case None => if unexpected then Some(SubscriptionClosed(r.dest)) else None
  }

  function Leave(r: Reader, unexpected: bool): (r': Reader) {
    r.(removal := if unexpected then ReaderExit else r.removal,
       phase := match ReportFor(r, unexpected) case Some(e) => Publishing(e) case None => Finished)
  }

  predicate Enabled(s: State, a: Action) {
    match a
    case DrawToken => true
    case Attach(tok, d) => tok in s.inFlight && HasLive(s, d)
    case Create(tok, d) => tok in s.inFlight && !HasLive(s, d)
    case SubscribeFails(tok, d) => tok in s.inFlight && !HasLive(s, d)
    case Unsubscribe(d, tok) => true
    case CloseLock => true
    case CloseReturn(c) =>
      && c < |s.closers| && !s.closers[c].returned
      && (forall k :: k in s.closers[c].subs && k < |s.readers| ==> s.readers[k].unsubs > 0)
      && s.wg == 0
    case Deregister(k) => k < |s.readers| && s.readers[k].phase.Marked?
    case _ => a.k < |s.readers| && Ready(s.readers[a.k], a)
  }

  /** Reader k after the action. */
  function NextReader(s: State, a: Action, k: nat): (r: Reader)
    requires Enabled(s, a) && k < |s.readers|
  {
    var r := s.readers[k];
    match a
    case DrawToken => r
    case SubscribeFails(_, _) => r
    case CloseReturn(_) => r
    case Attach(tok, d) => if At(s, d, k) then AddHandler(r, tok) else r
    case Create(_, d) => if At(s, d, k) then r.(removal := Replaced) else r
    case Unsubscribe(d, tok) => if At(s, d, k) then RemoveToken(r, tok) else r
    case CloseLock => if IsRegistered(s, k) then TearDown(r, RouterClosed) else r
    case Deregister(j) => if j == k then Leave(r, IsRegistered(s, k)) else r
    case _ => if a.k == k then LocalStep(r, a) else r
  }

  /** The registry after the action. */
  function NextDests(s: State, a: Action): (m: map<Dest, nat>)
    requires Enabled(s, a)
  {
    match a
    case Create(_, d) => s.dests[d := |s.readers|]
    case Unsubscribe(d, tok) =>
      if d in s.dests && s.dests[d] < |s.readers| && DropHandler(s.readers[s.dests[d]], tok).handlers == {}
      then s.dests - {d} else s.dests
    case CloseLock => map[]
    case Deregister(k) => if IsRegistered(s, k) then s.dests - {s.readers[k].dest} else s.dests
    case _ => s.dests
  }

  /** The WaitGroup after the action: a reader is added when it is started and done when it exits, which
      is after its report, or at once when there is none. */
  function NextWg(s: State, a: Action): (n: int)
    requires Enabled(s, a)
  {
    match a
    case Create(_, _) => s.wg + 1
    case Publish(_) => s.wg - 1
    case Deregister(k) => if ReportFor(s.readers[k], IsRegistered(s, k)).None? then s.wg - 1 else s.wg
    case _ => s.wg
  }

  /** The subscriptions a Close call collects under the lock. */
  function Collected(s: State): (subs: set<nat>) {
    set k: nat | k < |s.readers| && IsRegistered(s, k) && !s.readers[k].Dead()
  }

  function Step(s: State, a: Action): (t: State)
    requires Enabled(s, a)
  {
    State(
      NextDests(s, a),
      seq(|s.readers|, k requires 0 <= k < |s.readers| => NextReader(s, a, k))
        + (if a.Create? then [FreshReader(a.dest, a.tok)] else []),
      if a.DrawToken? then s.nextToken + 1 else s.nextToken,
      if a.DrawToken? then s.inFlight + {s.nextToken + 1}
      else if a.Attach? || a.Create? || a.SubscribeFails? then s.inFlight - {a.tok}
      else s.inFlight,
      if a.CloseLock? then s.closers + [Closer(Collected(s), false)]
      else if a.CloseReturn? then s.closers[a.c := s.closers[a.c].(returned := true)]
      else s.closers,
      NextWg(s, a))
  }

  /** A local action rewrites its own reader and, at its exit, the WaitGroup. */
  lemma LocalStepIs(s: State, a: Action)
    requires Enabled(s, a) && Local(a)
    ensures Step(s, a) == s.(readers := s.readers[a.k := LocalStep(s.readers[a.k], a)], wg := NextWg(s, a))
  {
    assert Step(s, a).readers == s.readers[a.k := LocalStep(s.readers[a.k], a)];
  }

  /** Subscribe that creates a state: the previous state of the destination, if any, is replaced. */
  lemma CreateStepIs(s: State, tok: Token, d: Dest)
    requires Enabled(s, Create(tok, d))
    ensures Step(s, Create(tok, d)) == s.(
      dests := s.dests[d := |s.readers|],
      inFlight := s.inFlight - {tok},
      wg := s.wg + 1,
      readers := (if d in s.dests && s.dests[d] < |s.readers|
                  then s.readers[s.dests[d] := s.readers[s.dests[d]].(removal := Replaced)] else s.readers)
                 + [FreshReader(d, tok)])
  {
    var before := if d in s.dests && s.dests[d] < |s.readers|
                  then s.readers[s.dests[d] := s.readers[s.dests[d]].(removal := Replaced)] else s.readers;
    assert Step(s, Create(tok, d)).readers == before + [FreshReader(d, tok)];
  }

  lemma DrawTokenStepIs(s: State)
    ensures Step(s, DrawToken) == s.(nextToken := s.nextToken + 1, inFlight := s.inFlight + {s.nextToken + 1})
  {
    assert Step(s, DrawToken).readers == s.readers;
  }

  lemma DeregisterStepIs(s: State, k: nat)
    requires Enabled(s, Deregister(k))
    ensures Step(s, Deregister(k)) == s.(
      dests := if IsRegistered(s, k) then s.dests - {s.readers[k].dest} else s.dests,
      wg := NextWg(s, Deregister(k)),
      readers := s.readers[k := Leave(s.readers[k], IsRegistered(s, k))])
  {
    assert Step(s, Deregister(k)).readers == s.readers[k := Leave(s.readers[k], IsRegistered(s, k))];
  }

  /** A run is a sequence of actions, each enabled where it happens. */
  predicate Legal(acts: seq<Action>)
    decreases |acts|, 0
  {
    acts == [] ||
    (Legal(acts[..|acts|-1]) && Enabled(Exec(acts[..|acts|-1]), acts[|acts|-1]))
  }

  /** The state a run leads to. */
  function Exec(acts: seq<Action>): (s: State)
    requires Legal(acts)
    decreases |acts|, 1
  {
    if acts == [] then INIT else Step(Exec(acts[..|acts|-1]), acts[|acts|-1])
  }

  lemma {:induction false} Extend(acts: seq<Action>, a: Action)
    requires Legal(acts) && Enabled(Exec(acts), a)
    ensures Legal(acts + [a]) && Exec(acts + [a]) == Step(Exec(acts), a)
  {
    var more := acts + [a];
    assert more[..|more| - 1] == acts && more[|more| - 1] == a;
  }

  /** Every beginning of a run is a run. */
  lemma {:induction false} PrefixLegal(acts: seq<Action>, n: nat)
    requires Legal(acts) && n <= |acts|
    ensures Legal(acts[..n])
    ensures n < |acts| ==>
      && Enabled(Exec(acts[..n]), acts[n]) && Legal(acts[..n + 1])
      && Exec(acts[..n + 1]) == Step(Exec(acts[..n]), acts[n])
    decreases |acts|
  {
    if n == |acts| {
      assert acts[..n] == acts;
    } else {
      var m := |acts| - 1;
      PrefixLegal(acts[..m], n);
      assert acts[..m][..n] == acts[..n];
      if n < m {
        assert acts[..m][..n + 1] == acts[..n + 1];
      } else {
        assert acts[..n + 1] == acts;
      }
    }
  }
}
