/** What each step of a client's calls does: of asyncio_allocate_tx_token and asyncio_send_buffer, made by the control
    thread between its calls or by a callback on a worker, and of rx_f's read. */
module AsyncioCalls {
  import opened Basics
  import opened AsyncioModel
  import opened AsyncioInvariant
  import opened AsyncioFrames
  import opened Asyncio

  /** Threads 0 and 1 are the workers, thread 2 is the control thread. */
  function Act(thread: nat, op: ClientOp): Action {
    if thread == 2 then ControlClient(op) else Work(thread, Client(op))
  }

  function CallIn(s: State, thread: nat): Call {
    if thread == 2 then s.call else Wk(s, thread).call
  }

  function WithCall(s: State, thread: nat, call: Call): State {
    s.(call := if thread == 2 then call else s.call,
       w0 := s.w0.(call := if thread == 0 then call else s.w0.call),
       w1 := s.w1.(call := if thread == 1 then call else s.w1.call))
  }

  /** A client of the stream is running on the thread. */
  predicate ClientRuns(s: State, thread: nat) {
    if thread == 2 then Between(s)
    else
      var pc := Wk(s, thread).pc;
      thread < 2 && ((pc.RunRx? && pc.rst.RxCallback?) || (pc.RunTx? && pc.tst.TxCallback?))
  }

  /** A thread that is inside a call is running a client. */
  lemma CallerRuns(c: Config, run: seq<Action>, s: State, thread: nat)
    requires After(c, run) == Some(s) && thread < 3 && !CallIn(s, thread).NoCall?
    ensures ClientRuns(s, thread)
  {
    hide After, RecordsOk, ChannelsOk, DeliveryOk;
    InvHoldsInEveryRun(c, run);
  }

  /** The step of the thread, by that of its call. */
  lemma ActIs(c: Config, s: State, thread: nat, op: ClientOp)
    requires thread < 3 && ClientRuns(s, thread)
    ensures
      Step(c, s, Act(thread, op)) ==
      match ClientStep(c, s, thread, CallIn(s, thread), op)
      case None => None
      case Some((s1, call)) => Some(WithCall(s1, thread, call))
  {
    hide ClientStep;
  }

  lemma WithSameCall(s: State, thread: nat)
    requires thread < 3
    ensures WithCall(s, thread, CallIn(s, thread)) == s
  {
  }

  // ---------------------------------------------------------------- allocating a token

  /** asyncio_allocate_tx_token goes on iff it finds tx Initialized. */
  lemma AllocationGoesOnIff(c: Config, s: State, thread: nat)
    requires thread < 3 && ClientRuns(s, thread) && CallIn(s, thread).NoCall?
    ensures Step(c, s, Act(thread, AllocLoad)) == Some(if s.tx.Initialized? then WithCall(s, thread, Allocating) else s)
  {
    ActIs(c, s, thread, AllocLoad);
    WithSameCall(s, thread);
    hide Step, WithCall, CallIn;
    assert s.(rec := s.rec) == s;
  }

  /** It then takes any block that is free, which becomes a token that the client owns, and it gets none otherwise. */
  lemma AllocationTakes(c: Config, s: State, thread: nat, tok: nat)
    requires thread < 3 && ClientRuns(s, thread) && CallIn(s, thread).Allocating?
    ensures Step(c, s, Act(thread, AllocTake(tok))) ==
      if s.txPool && tok !in s.rec.out then
        Some(WithCall(s.(rec := s.rec.(out := s.rec.out[tok := Owned], held := s.rec.held + {tok})), thread, NoCall))
      else None
    ensures Step(c, s, Act(thread, AllocEmpty)) == Some(WithCall(s, thread, NoCall))
  {
    ActIs(c, s, thread, AllocTake(tok));
    ActIs(c, s, thread, AllocEmpty);
    hide Step, WithCall, CallIn;
    assert s.(rec := s.rec) == s;
  }

  // ---------------------------------------------------------------- sending a token

  /** asyncio_send_buffer refuses any token while the stream is stopped, and otherwise takes one the client owns. */
  lemma SendOpens(c: Config, s: State, thread: nat, tok: nat)
    requires thread < 3 && ClientRuns(s, thread) && CallIn(s, thread).NoCall?
    ensures Step(c, s, Act(thread, SendOpen(tok))) ==
      if s.stopped then Some(s)
      else if tok in s.rec.held then
        Some(WithCall(s.(rec := s.rec.(out := s.rec.out[tok := Caller(thread)], held := s.rec.held - {tok})), thread,
                      SendOpened(tok)))
      else None
  {
    ActIs(c, s, thread, SendOpen(tok));
    WithSameCall(s, thread);
    hide Step, WithCall, CallIn;
    assert s.(rec := s.rec) == s;
  }

  /** It hands the token back iff it does not find tx Initialized, and goes on with it otherwise. */
  lemma SendLoads(c: Config, s: State, thread: nat, tok: nat)
    requires thread < 3 && ClientRuns(s, thread) && CallIn(s, thread) == SendOpened(tok)
    ensures Step(c, s, Act(thread, SendLoad)) ==
      if s.tx.Initialized? then Some(WithCall(s, thread, SendChecked(tok)))
      else Some(WithCall(s.(rec := s.rec.(out := s.rec.out[tok := Owned], held := s.rec.held + {tok})), thread, NoCall))
  {
    ActIs(c, s, thread, SendLoad);
    hide Step, WithCall, CallIn;
    assert s.(rec := s.rec) == s;
  }

  lemma PostIsLast(c: Config, s: State, job: Job)
    ensures TxWk(c, Post(c, s, Tx, job)) == TxWk(c, s).(queue := TxWk(c, s).queue + [job])
    ensures Post(c, s, Tx, job).call == s.call && Post(c, s, Tx, job).rec == s.rec
  {
  }

  lemma WithCallFrame(c: Config, s: State, thread: nat, call: Call)
    requires thread < 3
    ensures
      var s' := WithCall(s, thread, call);
      s'.rec == s.rec && CallIn(s', thread) == call && TxWk(c, s').queue == TxWk(c, s).queue
  {
  }

  /** The last step accepts the token: it belongs to the acceptance with the next number, and tx_f for it is the last
      job of the tx worker. */
  lemma SendPosts(c: Config, s: State, thread: nat, tok: nat, hasFn: bool) returns (s': State)
    requires thread < 3 && ClientRuns(s, thread) && CallIn(s, thread) == SendChecked(tok)
    ensures Step(c, s, Act(thread, SendPost(hasFn))) == Some(s') && CallIn(s', thread).NoCall?
    ensures s'.rec == s.rec.(out := s.rec.out[tok := Accepted(s.rec.nextId)], nextId := s.rec.nextId + 1,
                             asked := if hasFn then s.rec.asked + {s.rec.nextId} else s.rec.asked)
    ensures TxWk(c, s').queue == TxWk(c, s).queue + [TxF(Request(tok, s.rec.nextId, hasFn))]
  {
    ActIs(c, s, thread, SendPost(hasFn));
    PostIsLast(c, s, TxF(Request(tok, s.rec.nextId, hasFn)));
    var (s1, call) := ClientStep(c, s, thread, CallIn(s, thread), SendPost(hasFn)).value;
    s' := WithCall(s1, thread, call);
    WithCallFrame(c, s1, thread, call);
    hide Step, WithCall, CallIn, Post;
  }

  /** If the post is refused the client has its token back. */
  lemma SendRejects(c: Config, s: State, thread: nat, tok: nat)
    requires thread < 3 && ClientRuns(s, thread) && CallIn(s, thread) == SendChecked(tok)
    ensures Step(c, s, Act(thread, SendReject)) ==
      Some(WithCall(s.(rec := s.rec.(out := s.rec.out[tok := Owned], held := s.rec.held + {tok})), thread, NoCall))
  {
    ActIs(c, s, thread, SendReject);
    hide Step, WithCall, CallIn;
  }

  // ---------------------------------------------------------------- whole calls

  /** The steps of a thread's call, nobody else making one in between. */
  function Acts(c: Config, s: State, thread: nat, ops: seq<ClientOp>): Option<State>
    decreases |ops|
  {
    if ops == [] then Some(s)
    else
      match Step(c, s, Act(thread, ops[0]))
      case None => None
      case Some(s1) => Acts(c, s1, thread, ops[1..])
  }

  lemma ActsOf3(c: Config, s: State, thread: nat, a: ClientOp, s1: State, b: ClientOp, s2: State,
                d: ClientOp, s3: State)
    requires Step(c, s, Act(thread, a)) == Some(s1) && Step(c, s1, Act(thread, b)) == Some(s2)
    requires Step(c, s2, Act(thread, d)) == Some(s3)
    ensures Acts(c, s, thread, [a, b, d]) == Some(s3)
  {
    ActsOf2(c, s1, thread, b, s2, d, s3);
    assert [a, b, d][1..] == [b, d];
    hide Step, Act;
  }

  lemma ActsOf2(c: Config, s: State, thread: nat, a: ClientOp, s1: State, b: ClientOp, s2: State)
    requires Step(c, s, Act(thread, a)) == Some(s1) && Step(c, s1, Act(thread, b)) == Some(s2)
    ensures Acts(c, s, thread, [a, b]) == Some(s2)
  {
    hide Step, Act;
    assert [a, b][1..] == [b] && [b][1..] == [];
    assert Acts(c, s2, thread, []) == Some(s2);
    assert Acts(c, s1, thread, [b]) == Some(s2);
  }

  lemma WithCallRuns(s: State, r: Records, thread: nat, call: Call)
    requires thread < 3 && ClientRuns(s, thread)
    ensures
      var s' := WithCall(s.(rec := r), thread, call);
      && ClientRuns(s', thread) && CallIn(s', thread) == call && s'.rec == r && s'.tx == s.tx && s'.txPool == s.txPool
      && s'.stopped == s.stopped
  {
  }

  /** A client that sends a token it owns while the stream is started and tx is Initialized has it accepted. */
  lemma SendAccepts(c: Config, run: seq<Action>, s: State, thread: nat, tok: nat, hasFn: bool) returns (s': State)
    requires After(c, run) == Some(s) && thread < 3 && ClientRuns(s, thread) && CallIn(s, thread).NoCall?
    requires !s.stopped && s.tx.Initialized? && tok in s.rec.held
    ensures Acts(c, s, thread, [SendOpen(tok), SendLoad, SendPost(hasFn)]) == Some(s') && CallIn(s', thread).NoCall?
    ensures s'.rec.nextId == s.rec.nextId + 1 && tok !in s'.rec.held
    ensures tok in s'.rec.out && s'.rec.out[tok] == Accepted(s.rec.nextId)
    ensures s.rec.nextId in s'.rec.asked <==> hasFn
    ensures TxWk(c, s').queue == TxWk(c, s).queue + [TxF(Request(tok, s.rec.nextId, hasFn))]
  {
    NotYetAsked(c, run, s);
    var r := s.rec.(out := s.rec.out[tok := Caller(thread)], held := s.rec.held - {tok});
    var s1, s2 := WithCall(s.(rec := r), thread, SendOpened(tok)), WithCall(s.(rec := r), thread, SendChecked(tok));
    WithCallRuns(s, r, thread, SendOpened(tok));
    WithCallRuns(s, r, thread, SendChecked(tok));
    WithCallFrame(c, s.(rec := r), thread, SendChecked(tok));
    SendOpens(c, s, thread, tok);
    SendLoads(c, s1, thread, tok);
    WithCallTwice(s.(rec := r), thread, SendOpened(tok), SendChecked(tok));
    s' := SendPosts(c, s2, thread, tok, hasFn);
    hide Step, WithCall, CallIn, ClientRuns, After;
    ActsOf3(c, s, thread, SendOpen(tok), s1, SendLoad, s2, SendPost(hasFn), s');
  }

  lemma WithCallTwice(s: State, thread: nat, a: Call, b: Call)
    requires thread < 3
    ensures WithCall(WithCall(s, thread, a), thread, b) == WithCall(s, thread, b)
  {
  }

  lemma NotYetAsked(c: Config, run: seq<Action>, s: State)
    requires After(c, run) == Some(s)
    ensures s.rec.nextId !in s.rec.asked
  {
    hide After, CycleOk, FiredOk, OwnersOk, DeliveryOk;
    InvHoldsInEveryRun(c, run);
  }

  /** So has any client between the return of asyncio_start and the next asyncio_stop. */
  lemma StartedStreamAccepts(c: Config, run: seq<Action>, s: State, tok: nat, hasFn: bool) returns (s': State)
    requires After(c, run) == Some(s) && s.mode.Up? && s.call.NoCall? && tok in s.rec.held
    ensures Acts(c, s, 2, [SendOpen(tok), SendLoad, SendPost(hasFn)]) == Some(s') && s'.call.NoCall?
    ensures s'.rec.nextId == s.rec.nextId + 1 && tok !in s'.rec.held
    ensures tok in s'.rec.out && s'.rec.out[tok] == Accepted(s.rec.nextId)
    ensures s.rec.nextId in s'.rec.asked <==> hasFn
    ensures TxWk(c, s').queue == TxWk(c, s).queue + [TxF(Request(tok, s.rec.nextId, hasFn))]
  {
    HeldMeansTx(c, run, s);
    StreamMatchesControl(c, run, s);
    hide After, Acts, Step;
    s' := SendAccepts(c, run, s, 2, tok, hasFn);
  }

  lemma HeldMeansTx(c: Config, run: seq<Action>, s: State)
    requires After(c, run) == Some(s) && s.rec.held != {}
    ensures c.txOn
  {
    hide After, RecordsOk, ChannelsOk, WorkerOk, DeliveryOk;
    InvHoldsInEveryRun(c, run);
  }

  /** And a client that asks for a token there gets any block that is free. */
  lemma StartedStreamAllocates(c: Config, run: seq<Action>, s: State, tok: nat) returns (s': State)
    requires After(c, run) == Some(s) && s.mode.Up? && s.call.NoCall? && c.txOn && tok !in s.rec.out
    ensures Acts(c, s, 2, [AllocLoad, AllocTake(tok)]) == Some(s') && s'.call.NoCall?
    ensures s'.rec == s.rec.(out := s.rec.out[tok := Owned], held := s.rec.held + {tok})
  {
    StreamMatchesControl(c, run, s);
    var s1 := WithCall(s, 2, Allocating);
    AllocationGoesOnIff(c, s, 2);
    AllocationTakes(c, s1, 2, tok);
    var r := s.rec.(out := s.rec.out[tok := Owned], held := s.rec.held + {tok});
    s' := WithCall(s1.(rec := r), 2, NoCall);
    assert s'.call.NoCall? && s'.rec == r;
    hide Step, WithCall, After;
    ActsOf2(c, s, 2, AllocLoad, s1, AllocTake(tok), s');
  }

  // ---------------------------------------------------------------- what rx_f reads

  /** rx_f, once past its first test, goes on whatever the pool and the read do: without a buffer it is posted again,
      with one that the read left empty it goes on to the repost, and with data to the callback, which the data is
      recorded for. */
  lemma ReadIsRecorded(c: Config, s: State, gen: nat, data: nat)
    requires s.w0.pc == RunRx(RxAlloc, gen)
    ensures Step(c, s, Work(0, NoBuffer)) == Some(s.(w0 := s.w0.(pc := RunRx(RxRepostEmpty, gen))))
    ensures Step(c, s, Work(0, ReadNothing)) ==
      Some(s.(w0 := s.w0.(pc := RunRx(RxRepost, gen)), rec := s.rec.(taken := s.rec.taken + 1)))
    ensures Step(c, s, Work(0, ReadData(data))) ==
      Some(s.(w0 := s.w0.(pc := RunRx(RxCallback(data), gen)),
              rec := s.rec.(taken := s.rec.taken + 1, found := s.rec.found + [data])))
  {
  }

  /** What reads have found has been given to the callback, once each and in that order, but for what it is being given
      now; and rx_f has a buffer only from its read to its end. */
  lemma ReadsAreDelivered(c: Config, run: seq<Action>, s: State)
    requires After(c, run) == Some(s)
    ensures
      var pc := s.w0.pc;
      && s.rec.found == s.rec.delivered + (if pc.RunRx? && pc.rst.RxCallback? then [pc.rst.data] else [])
      && s.rec.taken ==
         s.rec.freed + (if pc.RunRx? && (pc.rst.RxCallback? || pc.rst.RxRepost? || pc.rst.RxFree?) then 1 else 0)
  {
    hide After, RecordsOk, CycleOk;
    InvHoldsInEveryRun(c, run);
  }

  /** What tx_f has passed is written once, in order of acceptance, and before it is called back for. */
  lemma PassedIsWrittenOnce(c: Config, run: seq<Action>, s: State)
    requires After(c, run) == Some(s)
    ensures forall j, k :: 0 <= j < k < |s.rec.written| ==> s.rec.written[j] < s.rec.written[k]
    ensures forall id: nat :: id in s.rec.written ==> id in s.rec.passed && id <= |s.rec.dropped|
    ensures forall id: nat :: id < |s.rec.dropped| && id in s.rec.passed ==> id in s.rec.written
    ensures forall id: nat :: id in s.rec.fired ==> id in s.rec.written
  {
    hide After, CycleOk, LineOk, OwnersOk, DeliveryOk;
    InvHoldsInEveryRun(c, run);
  }
}
