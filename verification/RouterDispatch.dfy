/** Which messages a registration receives. */
module RouterDispatch {
  import opened Prelude
  import opened RouterModel
  import opened RouterSafety

  /** The bodies handler t was called with, in order. */
  function Delivered(calls: seq<Call>, t: Token): (bodies: seq<string>) {
    if calls == [] then []
    else
      var n := |calls| - 1;
      Delivered(calls[..n], t) + (if calls[n].token == t then [calls[n].body] else [])
  }

  /** One past the last snapshot taken while t was registered. */
  function End(r: Reader, t: Token): (n: nat) { if t in r.upto then r.upto[t] else |r.seen| }

  /** The bodies snapshotted between the insertion of t and its removal. */
  function Window(r: Reader, t: Token): (bodies: seq<string>)
    requires t in r.from ==> r.from[t] <= End(r, t) <= |r.seen|
  {
    if t in r.from then r.seen[r.from[t]..End(r, t)] else []
  }

  /** The call of t that is still outstanding for the message being dispatched. */
  function Outstanding(r: Reader, t: Token): (bodies: seq<string>) {
    if r.phase.Dispatching? && t in r.phase.pending then [r.phase.body] else []
  }

  function AsData(bodies: seq<string>): (msgs: seq<Msg>) {
    seq(|bodies|, i requires 0 <= i < |bodies| => Data(bodies[i]))
  }

  /** Everything taken from the channel: the snapshotted bodies, the one in hand, the final error. */
  function Taken(r: Reader): (msgs: seq<Msg>) {
    AsData(r.seen) + (if r.phase.Holding? then [Data(r.phase.body)] else [])
      + (match r.term case Some(c) => [Fault(c)] case None => [])
  }

  /** The bodies a reader dispatches: those before the first error. */
  function Bodies(q: seq<Msg>): (bodies: seq<string>) {
    if q == [] || q[0].Fault? then [] else [q[0].body] + Bodies(q[1..])
  }

  /** The error that ends the reader, if any. */
  function FirstFault(q: seq<Msg>): (cause: Option<string>) {
    if q == [] then None else if q[0].Fault? then Some(q[0].cause) else FirstFault(q[1..])
  }

  ghost predicate BoundsOk(r: Reader) {
    && (forall t :: t in r.from ==> r.from[t] <= End(r, t) <= |r.seen|)
    && (r.phase.Dispatching? ==>
          && r.seen != [] && r.seen[|r.seen| - 1] == r.phase.body
          && (forall t :: t in r.phase.pending ==> t in r.from && r.from[t] < |r.seen| == End(r, t)))
  }

  ghost predicate CallsOk(r: Reader)
    requires BoundsOk(r)
  {
    forall t :: Delivered(r.calls, t) + Outstanding(r, t) == Window(r, t)
  }

  ghost predicate LogOk(r: Reader) {
    BoundsOk(r) && CallsOk(r) && r.input == Taken(r) + r.queue
  }

  /** No dispatch is open in r. */
  predicate Quiet(r: Reader) { !r.phase.Dispatching? || r.phase.pending == {} }

  /** An action that leaves calls, snapshots and windows alone keeps the log. */
  lemma SameLog(r: Reader, r': Reader)
    requires BoundsOk(r) && CallsOk(r)
    requires r'.calls == r.calls && r'.seen == r.seen && r'.from == r.from && r'.upto == r.upto
    requires r'.phase == r.phase || (Quiet(r) && !r'.phase.Dispatching?)
    ensures BoundsOk(r') && CallsOk(r')
  {
    assert forall t :: End(r', t) == End(r, t);
    forall t
      ensures Delivered(r'.calls, t) + Outstanding(r', t) == Window(r', t)
    {
      assert Delivered(r.calls, t) + Outstanding(r, t) == Window(r, t);
    }
  }

  /** A snapshot adds its body to the windows of the handlers in it, and to no other. */
  lemma SnapshotWindow(r: Reader, k: nat, t: Token)
    requires ReaderOk(r) && BoundsOk(r) && Ready(r, Snapshot(k))
    ensures var r' := LocalStep(r, Snapshot(k));
      && (t in r.from ==> r.from[t] <= End(r', t) <= |r'.seen|)
      && Window(r', t) == Window(r, t) + (if t in r.handlers then [r.phase.body] else [])
  {
    var r' := LocalStep(r, Snapshot(k));
    assert t in r.handlers <==> t in r.from && t !in r.upto;
    if t in r.from {
      assert r'.seen[..|r.seen|] == r.seen;
      if t in r.upto {
        assert r'.seen[r.from[t]..r.upto[t]] == r.seen[r.from[t]..r.upto[t]];
      } else {
        assert r'.seen[r.from[t]..] == r.seen[r.from[t]..] + [r.phase.body];
      }
    }
  }

  lemma SnapshotLog(r: Reader, k: nat)
    requires ReaderOk(r) && LogOk(r) && Ready(r, Snapshot(k))
    ensures LogOk(LocalStep(r, Snapshot(k)))
  {
    var r' := LocalStep(r, Snapshot(k));
    assert r'.seen[..|r.seen|] == r.seen;
    forall t
      ensures Delivered(r'.calls, t) + Outstanding(r', t) == Window(r', t)
    {
      SnapshotWindow(r, k, t);
      assert Delivered(r.calls, t) + Outstanding(r, t) == Window(r, t);
    }
    assert AsData(r'.seen) == AsData(r.seen) + [Data(r.phase.body)];
  }

  /** A call moves its body from what is outstanding to what was delivered. */
  lemma InvokeDelivers(r: Reader, k: nat, tok: Token, t: Token)
    requires Ready(r, Invoke(k, tok))
    ensures var r' := LocalStep(r, Invoke(k, tok));
      Delivered(r'.calls, t) + Outstanding(r', t) == Delivered(r.calls, t) + Outstanding(r, t)
  {
    var r' := LocalStep(r, Invoke(k, tok));
    assert r'.calls[..|r.calls|] == r.calls;
    assert Delivered(r'.calls, t) == Delivered(r.calls, t) + (if t == tok then [r.phase.body] else []);
  }

  lemma InvokeLog(r: Reader, k: nat, tok: Token)
    requires LogOk(r) && Ready(r, Invoke(k, tok))
    ensures LogOk(LocalStep(r, Invoke(k, tok)))
  {
    var r' := LocalStep(r, Invoke(k, tok));
    assert Taken(r') == Taken(r);
    forall t
      ensures Delivered(r'.calls, t) + Outstanding(r', t) == Window(r', t)
    {
      InvokeDelivers(r, k, tok, t);
      assert Delivered(r.calls, t) + Outstanding(r, t) == Window(r, t);
    }
  }

  lemma LocalLog(r: Reader, a: Action)
    requires ReaderOk(r) && LogOk(r) && Local(a) && Ready(r, a)
    ensures LogOk(LocalStep(r, a))
  {
    if a.Snapshot? {
      SnapshotLog(r, a.k);
    } else if a.Invoke? {
      InvokeLog(r, a.k, a.tok);
    } else {
      SameLog(r, LocalStep(r, a));
      TakenStep(r, a);
    }
  }

  lemma TakenStep(r: Reader, a: Action)
    requires r.input == Taken(r) + r.queue && (r.phase.Receiving? ==> r.term.None?)
    requires Local(a) && Ready(r, a) && !a.Snapshot? && !a.Invoke?
    ensures LocalStep(r, a).input == Taken(LocalStep(r, a)) + LocalStep(r, a).queue
  {
    if a.Deliver? {
      assert r.input + [a.msg] == Taken(r) + (r.queue + [a.msg]);
    } else if a.Receive? {
      TakenReceive(r, a);
    } else {
      assert Taken(LocalStep(r, a)) == Taken(r);
    }
  }

  /** A receive moves the head of the queue to what was taken. */
  lemma TakenReceive(r: Reader, a: Action)
    requires a.Receive? && Ready(r, a) && r.term.None?
    ensures Taken(LocalStep(r, a)) + LocalStep(r, a).queue == Taken(r) + r.queue
  {
    var r', m := LocalStep(r, a), r.queue[0];
    assert Taken(r) == AsData(r.seen);
    assert Taken(r') == AsData(r.seen) + [m];
    assert r.queue == [m] + r'.queue;
  }

  lemma AddHandlerLog(r: Reader, tok: Token)
    requires ReaderOk(r) && LogOk(r) && tok !in r.from
    ensures LogOk(AddHandler(r, tok))
  {
    var r' := AddHandler(r, tok);
    forall t
      ensures Delivered(r'.calls, t) + Outstanding(r', t) == Window(r', t)
    {
      assert Delivered(r.calls, t) + Outstanding(r, t) == Window(r, t);
    }
  }

  lemma DropHandlerLog(r: Reader, tok: Token)
    requires ReaderOk(r) && LogOk(r)
    ensures LogOk(DropHandler(r, tok))
  {
    var r' := DropHandler(r, tok);
    assert forall t :: End(r', t) == End(r, t);
    forall t
      ensures Delivered(r'.calls, t) + Outstanding(r', t) == Window(r', t)
    {
      assert Delivered(r.calls, t) + Outstanding(r, t) == Window(r, t);
    }
  }

  lemma TearDownFrame(r: Reader)
    ensures TearDown(r, LastHandlerLeft)
         == r.(removal := LastHandlerLeft, owed := TearDown(r, LastHandlerLeft).owed)
  {
  }

  lemma RemoveTokenLog(r: Reader, tok: Token)
    requires ReaderOk(r) && LogOk(r)
    ensures LogOk(RemoveToken(r, tok))
  {
    DropHandlerLog(r, tok);
    TearDownFrame(DropHandler(r, tok));
    SameLog(DropHandler(r, tok), RemoveToken(r, tok));
  }

  /** The remaining actions change at most a reader's phase, removal and owed calls. */
  lemma RemovalLog(s: State, a: Action, k: nat)
    requires Enabled(s, a) && k < |s.readers| && LogOk(s.readers[k])
    requires !Local(a) && !a.Attach? && !a.Unsubscribe?
    ensures LogOk(NextReader(s, a, k))
  {
    SameLog(s.readers[k], NextReader(s, a, k));
  }

  lemma LogStep(s: State, a: Action, k: nat)
    requires Inv(s) && Enabled(s, a) && k < |s.readers| && LogOk(s.readers[k])
    ensures LogOk(NextReader(s, a, k))
  {
    var r := s.readers[k];
    if Local(a) {
      if a.k == k { LocalLog(r, a); }
    } else if a.Attach? {
      if At(s, a.dest, k) {
        assert !Owns(s, k, a.tok);
        AddHandlerLog(r, a.tok);
      }
    } else if a.Unsubscribe? {
      if At(s, a.dest, k) {
        RemoveTokenLog(r, a.tok);
      }
    } else {
      RemovalLog(s, a, k);
    }
  }

  lemma {:induction false} LogAlways(acts: seq<Action>, k: nat)
    requires Legal(acts) && k < |Exec(acts).readers|
    ensures LogOk(Exec(acts).readers[k])
  {
    var n := |acts| - 1;
    var s := Exec(acts[..n]);
    if k < |s.readers| {
      LogAlways(acts[..n], k);
      InvAlways(acts[..n]);
      LogStep(s, acts[n], k);
    }
  }

  /** The dispatch window: between two messages of its reader, a registration has been called
      exactly once, in order, with each body the reader snapshotted between its insertion and its
      removal, and with nothing else; those are consecutive messages of the reader's own channel,
      all before its first error; no other reader ever calls it. */
  lemma {:induction false} DispatchWindow(acts: seq<Action>, k: nat, t: Token)
    requires Legal(acts) && k < |Exec(acts).readers| && t in Exec(acts).readers[k].from
    ensures var s := Exec(acts); var r := s.readers[k];
      && r.from[t] <= End(r, t) <= |r.seen|
      && (!(r.phase.Dispatching? && t in r.phase.pending) ==> Delivered(r.calls, t) == r.seen[r.from[t]..End(r, t)])
      && (r.phase.Dispatching? && t in r.phase.pending ==>
            Delivered(r.calls, t) + [r.phase.body] == r.seen[r.from[t]..End(r, t)])
      && AsData(r.seen) <= r.input
      && (forall j: nat :: j < |s.readers| && j != k ==> Delivered(s.readers[j].calls, t) == [])
  {
    InvAlways(acts);
    LogAlways(acts, k);
    var s := Exec(acts);
    var r := s.readers[k];
    assert Delivered(r.calls, t) + Outstanding(r, t) == Window(r, t);
    forall j: nat | j < |s.readers| && j != k
      ensures Delivered(s.readers[j].calls, t) == []
    {
      LogAlways(acts, j);
      assert Owns(s, k, t) && !Owns(s, j, t);
      assert Delivered(s.readers[j].calls, t) + Outstanding(s.readers[j], t) == Window(s.readers[j], t);
    }
  }

  lemma {:induction false} DataThenRest(bodies: seq<string>, rest: seq<Msg>)
    ensures Bodies(AsData(bodies) + rest) == bodies + Bodies(rest)
    ensures FirstFault(AsData(bodies) + rest) == FirstFault(rest)
  {
    if bodies == [] {
      assert AsData(bodies) + rest == rest;
    } else {
      DataThenRest(bodies[1..], rest);
      assert (AsData(bodies) + rest)[1..] == AsData(bodies[1..]) + rest;
    }
  }

  /** In every interleaving, a reader that has stopped has dispatched exactly the bodies its channel
      carried before the first error, all of them if there was none, and that error ended it. */
  lemma {:induction false} StoppedReaderDispatchedAll(acts: seq<Action>, k: nat)
    requires Legal(acts) && k < |Exec(acts).readers| && Exec(acts).readers[k].Dead()
    ensures var r := Exec(acts).readers[k]; r.seen == Bodies(r.input) && r.term == FirstFault(r.input)
  {
    InvAlways(acts);
    LogAlways(acts, k);
    var r := Exec(acts).readers[k];
    var fault := match r.term case Some(c) => [Fault(c)] case None => [];
    assert r.input == AsData(r.seen) + (fault + r.queue);
    DataThenRest(r.seen, fault + r.queue);
    assert r.term.None? ==> fault + r.queue == [];
  }
}
