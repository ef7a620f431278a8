/** What the asyncio stream guarantees in every run, with any number of start/stop cycles. */
module Asyncio {
  import opened Basics
  import opened AsyncioModel
  import opened AsyncioInvariant
  import opened AsyncioCycle
  import opened AsyncioTokens
  import opened AsyncioFrames

  lemma InitHasInv(c: Config)
    ensures Inv(c, Init())
  {
    hide CycleOk;
    InitIsOk(c);
  }

  lemma {:induction false} InvHoldsInEveryRun(c: Config, run: seq<Action>)
    ensures After(c, run).Some? ==> Inv(c, After(c, run).value)
  {
    hide Inv, Step;
    if run == [] {
      InitHasInv(c);
    } else {
      var before := run[..|run| - 1];
      InvHoldsInEveryRun(c, before);
      if After(c, run).Some? {
        StepKeepsInv(c, After(c, before).value, run[|run| - 1]);
      }
    }
  }

  // ---------------------------------------------------------------- start and stop

  /** From the return of asyncio_start until the next asyncio_stop the stream and all its channels are Initialized,
      with their pools; from the return of asyncio_stop until the next asyncio_start they are all Uninitialized. */
  lemma StreamMatchesControl(c: Config, run: seq<Action>, s: State)
    requires After(c, run) == Some(s)
    ensures s.mode.Up? ==>
      && s.stream.Initialized? && !s.stopped
      && (c.rxOn ==> s.rx.Initialized? && s.rxPool)
      && (c.txOn ==> s.tx.Initialized? && s.txPool)
    ensures s.mode.Down? ==> s.stream.Uninitialized? && s.rx.Uninitialized? && s.tx.Uninitialized? && s.stopped
  {
    hide After, RecordsOk;
    InvHoldsInEveryRun(c, run);
  }

  /** Between the calls the only late stores and signals are those of the call that has returned: no finisher is under
      way once asyncio_start has returned, and no starter once asyncio_stop has. */
  lemma LateStoresRepeat(c: Config, run: seq<Action>, s: State, i: nat)
    requires After(c, run) == Some(s) && i < 2
    ensures s.mode.Up? ==> !Wk(s, i).pc.Finish?
    ensures s.mode.Down? ==> !Wk(s, i).pc.Start?
  {
    hide After, RecordsOk, CycleOk;
    InvHoldsInEveryRun(c, run);
    StreamMatchesControl(c, run, s);
    if Wk(s, i).pc.Finish? {
      FinishFacts(c, s, i, Wk(s, i).pc.fst, Wk(s, i).pc.ch);
    } else if Wk(s, i).pc.Start? {
      StartFacts(c, s, i, Wk(s, i).pc.sst, Wk(s, i).pc.ch);
    }
  }

  lemma QueuedJobIsDue(c: Config, s: State, i: nat, k: nat)
    requires i < 2 && k < |Wk(s, i).queue| && JobPlaced(c, s.rxGen, i, Wk(s, i).queue[k]) && ChannelsOk(c, s)
    ensures
      var job := Wk(s, i).queue[k];
      && (job.Starter? ==> On(c, job.ch) && Chan(s, job.ch).Initializing?)
      && (job.Finisher? ==> On(c, job.ch) && Chan(s, job.ch).Uninitializing?)
  {
    var q, job := Wk(s, i).queue, Wk(s, i).queue[k];
    CountZero(q, KindOf(job));
    assert Count(q, KindOf(job)) > 0;
  }

  /** Nor is one queued. */
  lemma NoneIsQueued(c: Config, run: seq<Action>, s: State, i: nat, k: nat)
    requires After(c, run) == Some(s) && i < 2 && k < |Wk(s, i).queue|
    ensures s.mode.Up? ==> !Wk(s, i).queue[k].Finisher?
    ensures s.mode.Down? ==> !Wk(s, i).queue[k].Starter?
  {
    InvHoldsInEveryRun(c, run);
    StreamMatchesControl(c, run, s);
    QueuedJobIsDue(c, s, i, k);
  }

  lemma CallsBegin(c: Config, s: State)
    requires GlobalOk(c, s) && s.call.NoCall?
    ensures s.mode.Down? ==> Step(c, s, CallStart).Some? && Step(c, s, CallStart).value.mode.Starting?
    ensures s.mode.Down? ==> Step(c, s, CallStop) == Some(s)
    ensures s.mode.Up? ==> Step(c, s, CallStop).Some? && Step(c, s, CallStop).value.mode.Stopping?
    ensures s.mode.Up? ==> Step(c, s, CallStart) == Some(s)
  {
  }

  lemma StartReturns(c: Config, s: State)
    requires s.mode.Starting? && StartingStep(c, s).Some?
    ensures !StartingStep(c, s).value.mode.Starting? ==> s.startedFlag && StartingStep(c, s).value.mode.Up?
  {
    hide Post;
    PostFrame(c, s, Rx, Starter(Rx));
    PostFrame(c, s, Tx, Starter(Tx));
  }

  lemma StopGoesOn(c: Config, s: State)
    requires s.mode.Stopping? && (!s.cleared ==> !s.stopped) && StoppingStep(c, s).Some?
    requires !s.cleared || !s.stopped || !s.rxAt.Done? || !s.txAt.Done?
    ensures StoppingStep(c, s).value.mode.Stopping?
  {
    hide Post;
    PostFrame(c, s, Rx, Finisher(Rx));
    PostFrame(c, s, Tx, Finisher(Tx));
  }

  lemma StopReturns(c: Config, s: State)
    requires s.mode.Stopping? && (!s.cleared ==> !s.stopped) && StoppingStep(c, s).Some?
    ensures !StoppingStep(c, s).value.mode.Stopping? ==> s.stoppedFlag && StoppingStep(c, s).value.mode.Down?
  {
    hide Post;
    if !s.cleared || !s.stopped || !s.rxAt.Done? || !s.txAt.Done? {
      hide StoppingStep;
      StopGoesOn(c, s);
    }
  }

  /** asyncio_start and asyncio_stop are refused only to a caller who already has what it asks for. */
  lemma CallsAreNotRefused(c: Config, run: seq<Action>, s: State)
    requires After(c, run) == Some(s) && s.call.NoCall?
    ensures s.mode.Down? ==> Step(c, s, CallStart).Some? && Step(c, s, CallStart).value.mode.Starting?
    ensures s.mode.Down? ==> Step(c, s, CallStop) == Some(s)
    ensures s.mode.Up? ==> Step(c, s, CallStop).Some? && Step(c, s, CallStop).value.mode.Stopping?
    ensures s.mode.Up? ==> Step(c, s, CallStart) == Some(s)
  {
    InvHoldsInEveryRun(c, run);
    CallsBegin(c, s);
  }

  /** asyncio_start and asyncio_stop return only through their wait, to a stream that is up and down respectively. */
  lemma CallsReturnThroughWait(c: Config, run: seq<Action>, s: State)
    requires After(c, run) == Some(s) && Step(c, s, Control).Some?
    ensures s.mode.Starting? && !Step(c, s, Control).value.mode.Starting? ==>
      s.startedFlag && Step(c, s, Control).value.mode.Up?
    ensures s.mode.Stopping? && !Step(c, s, Control).value.mode.Stopping? ==>
      s.stoppedFlag && Step(c, s, Control).value.mode.Down?
  {
    hide After, RecordsOk, StartingStep, StoppingStep;
    InvHoldsInEveryRun(c, run);
    if s.mode.Starting? {
      StartReturns(c, s);
    } else if s.mode.Stopping? {
      StopReturns(c, s);
    }
  }

  lemma StopFindsNoStartPending(c: Config, s: State)
    requires GlobalOk(c, s)
    ensures !AssertionFails(s, Control)
  {
    hide HeldOk, StreamOk, FlagsOk;
  }

  lemma FreeFindsReference(c: Config, s: State, i: nat)
    requires i < 2 && Inv(c, s) && Wk(s, i).pc.RunTx?
    ensures Wk(s, i).pc.req.tok in s.rec.out
  {
    assert TxWk(c, s) == Wk(s, i);
    assert Requests(Wk(s, i))[0] == Wk(s, i).pc.req;
  }

  /** No assertion of asyncio_stop or of the pool_free in tx_f can fail. */
  lemma NoAssertionFails(c: Config, run: seq<Action>, s: State, a: Action)
    requires After(c, run) == Some(s)
    ensures !AssertionFails(s, a)
  {
    InvHoldsInEveryRun(c, run);
    if a.Control? {
      StopFindsNoStartPending(c, s);
    } else if a.Work? && a.i < 2 && Wk(s, a.i).pc.RunTx? {
      FreeFindsReference(c, s, a.i);
    }
  }

  /** A channel's pool is created only where there is none, and destroyed only where there is one. */
  lemma PoolsAlternate(c: Config, run: seq<Action>, s: State, i: nat)
    requires After(c, run) == Some(s) && i < 2
    ensures Wk(s, i).pc.Start? && Wk(s, i).pc.sst.Create? ==> !Pool(s, Wk(s, i).pc.ch)
    ensures Wk(s, i).pc.Finish? && Wk(s, i).pc.fst.Destroy? ==> Pool(s, Wk(s, i).pc.ch)
  {
    hide After, RecordsOk;
    InvHoldsInEveryRun(c, run);
  }

  /** After the return of asyncio_stop a pool still exists exactly while its finisher is between giving up the channel
      and destroying the pool. */
  lemma PoolsWhileDown(c: Config, run: seq<Action>, s: State)
    requires After(c, run) == Some(s) && s.mode.Down?
    ensures s.rxPool <==> s.w0.pc == Finish(Destroy, Rx)
    ensures s.txPool <==> TxWk(c, s).pc == Finish(Destroy, Tx)
  {
    hide After, RecordsOk;
    InvHoldsInEveryRun(c, run);
  }

  // ---------------------------------------------------------------- the rx chain

  /** rx_f jobs that may still run rx_f's body: queued, running and not yet reposted, or about to be posted by the
      starter. */
  function RxJobs(s: State): nat {
    Count(s.w0.queue, KWork(Rx)) + if OwesRx(s.w0.pc) then 1 else 0
  }

  lemma OneRxJob(c: Config, run: seq<Action>, s: State)
    requires After(c, run) == Some(s)
    ensures RxJobs(s) <= 1
    ensures s.rx.Initialized? ==> RxJobs(s) == 1
  {
    InvHoldsInEveryRun(c, run);
  }

  /** An rx_f left over from an earlier cycle has run before the next starter does; one that gets past its first test
      belongs to the pool that exists then, and that pool is there until it has finished. */
  lemma RxUsesItsOwnPool(c: Config, run: seq<Action>, s: State)
    requires After(c, run) == Some(s)
    ensures s.w0.pc == Start(Create, Rx) ==> RxJobs(s) == 0
    ensures s.w0.pc.RunRx? ==> s.w0.pc.gen == s.rxGen
    ensures s.w0.pc.RunRx? && !s.w0.pc.rst.RxLoad? ==> s.rxPool
    ensures !s.w1.pc.RunRx?
  {
    InvHoldsInEveryRun(c, run);
  }

  // ---------------------------------------------------------------- tokens

  /** Acceptances are numbered 0, 1, 2, ...  tx_f drops their references in that order, each once; those not dropped
      yet are with the tx worker in that order, each holding the only reference to its block. */
  lemma TokensAreDroppedOnceInOrder(c: Config, run: seq<Action>, s: State)
    requires After(c, run) == Some(s)
    ensures |s.rec.dropped| + |Requests(TxWk(c, s))| == s.rec.nextId
    ensures forall k :: 0 <= k < |s.rec.dropped| ==> s.rec.dropped[k] == k
    ensures forall k :: 0 <= k < |Requests(TxWk(c, s))| ==> Requests(TxWk(c, s))[k].id == |s.rec.dropped| + k
    ensures forall j, k :: 0 <= j < k < |Requests(TxWk(c, s))| ==>
      Requests(TxWk(c, s))[j].tok != Requests(TxWk(c, s))[k].tok
    ensures forall k :: 0 <= k < |Requests(TxWk(c, s))| ==>
      Requests(TxWk(c, s))[k].tok in s.rec.out && Requests(TxWk(c, s))[k].tok !in s.rec.held
  {
    InvHoldsInEveryRun(c, run);
  }

  /** When the tx pool is created again, every acceptance of earlier cycles has had its reference dropped. */
  lemma AllDroppedBeforeNextPool(c: Config, run: seq<Action>, s: State, i: nat)
    requires After(c, run) == Some(s) && i < 2 && Wk(s, i).pc == Start(Create, Tx)
    ensures |s.rec.dropped| == s.rec.nextId && Requests(TxWk(c, s)) == []
  {
    InvHoldsInEveryRun(c, run);
    CreateKeepsRecords(c, s, i);
  }

  /** Callbacks are made in order of acceptance, none twice, and of the dropped acceptances exactly for those that gave
      a callback and for which tx_f saw the stream Initialized. */
  lemma CallbacksFireOnce(c: Config, run: seq<Action>, s: State)
    requires After(c, run) == Some(s)
    ensures forall j, k :: 0 <= j < k < |s.rec.fired| ==> s.rec.fired[j] < s.rec.fired[k]
    ensures forall id: nat :: id in s.rec.fired ==> id in s.rec.passed && id in s.rec.asked && id <= |s.rec.dropped|
    ensures forall id: nat :: id < |s.rec.dropped| ==>
      (id in s.rec.fired <==> id in s.rec.passed && id in s.rec.asked)
  {
    InvHoldsInEveryRun(c, run);
  }

  lemma ClientKeepsPassed(c: Config, s: State, thread: nat, call: Call, op: ClientOp)
    requires ClientStep(c, s, thread, call, op).Some?
    ensures ClientStep(c, s, thread, call, op).value.0.rec.passed == s.rec.passed
  {
    var (s', call') := ClientStep(c, s, thread, call, op).value;
    ClientStepLine(c, s, thread, call, op, s', call');
    hide ClientStep;
  }

  lemma RxKeepsPassed(c: Config, s: State, i: nat, stage: RxStage, gen: nat, choice: Choice)
    requires RxStep(c, s, i, stage, gen, choice).Some?
    ensures RxStep(c, s, i, stage, gen, choice).value.rec.passed == s.rec.passed
  {
    if choice.Client? {
      ClientKeepsPassed(c, s, i, Wk(s, i).call, choice.op);
    }
  }

  lemma TxPasses(c: Config, s: State, i: nat, stage: TxStage, req: Request, choice: Choice)
    requires TxStep(c, s, i, stage, req, choice).Some?
    ensures TxStep(c, s, i, stage, req, choice).value.rec.passed ==
      if stage.TxLoad? && s.stream.Initialized? then s.rec.passed + {req.id} else s.rec.passed
  {
    if choice.Client? {
      ClientKeepsPassed(c, s, i, Wk(s, i).call, choice.op);
    }
  }

  lemma ControlKeepsPassed(c: Config, s: State)
    requires Step(c, s, Control).Some?
    ensures Step(c, s, Control).value.rec.passed == s.rec.passed
  {
    if s.mode.Starting? {
      StartingLeaves(c, s, Step(c, s, Control).value);
    } else {
      StoppingLeaves(c, s, Step(c, s, Control).value);
    }
  }

  lemma WorkPasses(c: Config, s: State, i: nat, choice: Choice)
    requires i < 2 && WorkStep(c, s, i, choice).Some?
    ensures
      var pc := Wk(s, i).pc;
      WorkStep(c, s, i, choice).value.rec.passed ==
      if pc.RunTx? && pc.tst.TxLoad? && s.stream.Initialized? then s.rec.passed + {pc.req.id} else s.rec.passed
  {
    var pc := Wk(s, i).pc;
    if pc.RunRx? {
      RxKeepsPassed(c, s, i, pc.rst, pc.gen, choice);
    } else if pc.RunTx? {
      TxPasses(c, s, i, pc.tst, pc.req, choice);
    } else if pc.Start? {
      StartLeaves(c, s, i, pc.sst, pc.ch, StartStep(c, s, i, pc.sst, pc.ch));
    } else if pc.Finish? {
      FinishLeaves(c, s, i, pc.fst, pc.ch, FinishStep(c, s, i, pc.fst, pc.ch));
    }
  }

  /** An acceptance is recorded as passed exactly by the tx_f that examines it while the stream is Initialized. */
  lemma PassedMeansInitialized(c: Config, s: State, a: Action, s': State)
    requires Step(c, s, a) == Some(s')
    ensures a.Work? && Wk(s, a.i).pc.RunTx? && Wk(s, a.i).pc.tst.TxLoad? && s.stream.Initialized? ==>
      s'.rec.passed == s.rec.passed + {Wk(s, a.i).pc.req.id}
    ensures !(a.Work? && Wk(s, a.i).pc.RunTx? && Wk(s, a.i).pc.tst.TxLoad? && s.stream.Initialized?) ==>
      s'.rec.passed == s.rec.passed
  {
    match a
    case CallStart =>
    case CallStop =>
    case Control => ControlKeepsPassed(c, s);
    case ControlClient(op) => ClientKeepsPassed(c, s, 2, s.call, op);
    case Work(i, choice) => WorkPasses(c, s, i, choice);
    case PostForeign(i) =>
  }

  // ---------------------------------------------------------------- late stores

  lemma Extend(c: Config, run: seq<Action>, s: State, a: Action, s': State)
    requires After(c, run) == Some(s) && Step(c, s, a) == Some(s')
    ensures After(c, run + [a]) == Some(s')
  {
    assert (run + [a])[..|run|] == run;
  }

  const BOTH := Config(true, true, false)

  /** asyncio_start has posted both starters and waits. */
  const POSTED := Init().(stream := Initializing, rx := Initializing, tx := Initializing, stopped := false,
                          mode := Starting, cleared := true, rxAt := Done, txAt := Done,
                          w0 := Worker([Starter(Rx)], Ready, NoCall), w1 := Worker([Starter(Tx)], Ready, NoCall))

  /** Both starters have found both channels Initialized and are about to store the stream's state. */
  const CHECKED := POSTED.(rx := Initialized, tx := Initialized, rxPool := true, txPool := true, rxGen := 1,
                           w0 := Worker([RxF(1)], Start(SetUp, Rx), NoCall), w1 := Worker([], Start(SetUp, Tx), NoCall))

  /** asyncio_start has posted rx's starter. */
  const RX_POSTED := Init().(stream := Initializing, rx := Initializing, mode := Starting, cleared := true,
                             rxAt := Done, w0 := Worker([Starter(Rx)], Ready, NoCall))

  lemma RxCanBePosted() returns (run: seq<Action>)
    ensures After(BOTH, run) == Some(RX_POSTED)
  {
    assert After(BOTH, []) == Some(Init());
    hide After;
    var s0 := Init();
    var s1 := s0.(stream := Initializing, mode := Starting);
    var s2 := s1.(cleared := true);
    var s3 := s2.(rx := Initializing, rxAt := Pending);
    assert [] + [Starter(Rx)] == [Starter(Rx)];
    run := [];
    Extend(BOTH, run, s0, CallStart, s1); run := run + [CallStart];
    Extend(BOTH, run, s1, Control, s2); run := run + [Control];
    Extend(BOTH, run, s2, Control, s3); run := run + [Control];
    Extend(BOTH, run, s3, Control, RX_POSTED); run := run + [Control];
  }

  lemma BothCanBePosted() returns (run: seq<Action>)
    ensures After(BOTH, run) == Some(POSTED)
  {
    hide After;
    var s1 := RX_POSTED.(tx := Initializing, txAt := Pending);
    var s2 := s1.(txAt := Done, w1 := Worker([Starter(Tx)], Ready, NoCall));
    assert [] + [Starter(Tx)] == [Starter(Tx)];
    run := RxCanBePosted();
    Extend(BOTH, run, RX_POSTED, Control, s1); run := run + [Control];
    Extend(BOTH, run, s1, Control, s2); run := run + [Control];
    Extend(BOTH, run, s2, Control, POSTED); run := run + [Control];
  }

  /** rx's starter has found its own channel Initialized and not yet looked at tx. */
  const RX_CHECKED := POSTED.(rx := Initialized, rxPool := true, rxGen := 1,
                              w0 := Worker([RxF(1)], Start(SeeTx, Rx), NoCall))

  lemma RxCanBeChecked() returns (run: seq<Action>)
    ensures After(BOTH, run) == Some(RX_CHECKED)
  {
    hide After;
    var rxStep := Work(0, Go);
    var s1 := POSTED.(w0 := Worker([], Start(Create, Rx), NoCall));
    var s2 := s1.(rxPool := true, rxGen := 1, w0 := Worker([], Start(Publish, Rx), NoCall));
    var s3 := s2.(rx := Initialized, w0 := Worker([], Start(PostRx, Rx), NoCall));
    var s4 := s3.(w0 := Worker([RxF(1)], Start(SeeRx, Rx), NoCall));
    assert [] + [RxF(1)] == [RxF(1)] && [Starter(Rx)][1..] == [];
    run := BothCanBePosted();
    Extend(BOTH, run, POSTED, rxStep, s1); run := run + [rxStep];
    Extend(BOTH, run, s1, rxStep, s2); run := run + [rxStep];
    Extend(BOTH, run, s2, rxStep, s3); run := run + [rxStep];
    Extend(BOTH, run, s3, rxStep, s4); run := run + [rxStep];
    Extend(BOTH, run, s4, rxStep, RX_CHECKED); run := run + [rxStep];
  }

  lemma BothCanBeChecked() returns (run: seq<Action>)
    ensures After(BOTH, run) == Some(CHECKED)
  {
    hide After;
    var txStep := Work(1, Go);
    var s1 := RX_CHECKED.(w1 := Worker([], Start(Create, Tx), NoCall));
    var s2 := s1.(txPool := true, w1 := Worker([], Start(Publish, Tx), NoCall));
    var s3 := s2.(tx := Initialized, w1 := Worker([], Start(SeeRx, Tx), NoCall));
    var s4 := s3.(w1 := Worker([], Start(SeeTx, Tx), NoCall));
    var s5 := s4.(w1 := Worker([], Start(SetUp, Tx), NoCall));
    assert [Starter(Tx)][1..] == [];
    run := RxCanBeChecked();
    Extend(BOTH, run, RX_CHECKED, txStep, s1); run := run + [txStep];
    Extend(BOTH, run, s1, txStep, s2); run := run + [txStep];
    Extend(BOTH, run, s2, txStep, s3); run := run + [txStep];
    Extend(BOTH, run, s3, txStep, s4); run := run + [txStep];
    Extend(BOTH, run, s4, txStep, s5); run := run + [txStep];
    Extend(BOTH, run, s5, Work(0, Go), CHECKED); run := run + [Work(0, Go)];
  }

  /** A completion store can come late: asyncio_start has returned and asyncio_stop has begun when the second worker
      stores Initialized over the stream's Uninitializing. */
  lemma LateStoreHappens() returns (run: seq<Action>, s: State)
    ensures After(BOTH, run) == Some(s)
    ensures s.mode.Stopping? && s.stream.Uninitializing? && s.w1.pc == Start(SetUp, Tx)
    ensures After(BOTH, run + [Work(1, Go)]).Some? && After(BOTH, run + [Work(1, Go)]).value.mode.Stopping?
    ensures After(BOTH, run + [Work(1, Go)]).value.stream.Initialized?
  {
    hide After;
    var rxStep := Work(0, Go);
    var s1 := CHECKED.(stream := Initialized, w0 := Worker([RxF(1)], Start(TellUp, Rx), NoCall));
    var s2 := s1.(startedFlag := true, w0 := Worker([RxF(1)], Ready, NoCall));
    var s3 := s2.(mode := Up);
    s := s3.(stream := Uninitializing, mode := Stopping, cleared := false, rxAt := Todo, txAt := Todo);
    run := BothCanBeChecked();
    Extend(BOTH, run, CHECKED, rxStep, s1); run := run + [rxStep];
    Extend(BOTH, run, s1, rxStep, s2); run := run + [rxStep];
    Extend(BOTH, run, s2, Control, s3); run := run + [Control];
    Extend(BOTH, run, s3, CallStop, s); run := run + [CallStop];
    Extend(BOTH, run, s, Work(1, Go), s.(stream := Initialized, w1 := Worker([], Start(TellUp, Tx), NoCall)));
  }

  // ---------------------------------------------------------------- late pool destruction

  /** asyncio_start has returned and both starters have ended. */
  const UP := CHECKED.(stream := Initialized, startedFlag := true, mode := Up,
                       w0 := Worker([RxF(1)], Ready, NoCall), w1 := Worker([], Ready, NoCall))

  /** asyncio_stop has posted both finishers and waits. */
  const STOP_POSTED := UP.(stream := Uninitializing, rx := Uninitializing, tx := Uninitializing, stopped := true,
                           mode := Stopping, cleared := true, rxAt := Done, txAt := Done,
                           w0 := Worker([RxF(1), Finisher(Rx)], Ready, NoCall),
                           w1 := Worker([Finisher(Tx)], Ready, NoCall))

  /** rx is Uninitialized, its pool still there; tx is down. */
  const RX_DRAINED := STOP_POSTED.(rx := Uninitialized, tx := Uninitialized, txPool := false,
                                   w0 := Worker([], Finish(Destroy, Rx), NoCall),
                                   w1 := Worker([], Finish(CheckRx, Tx), NoCall))

  lemma StreamCanBeUp() returns (run: seq<Action>)
    ensures After(BOTH, run) == Some(UP)
  {
    hide After;
    var s1 := CHECKED.(stream := Initialized, w0 := Worker([RxF(1)], Start(TellUp, Rx), NoCall));
    var s2 := s1.(startedFlag := true, w0 := Worker([RxF(1)], Ready, NoCall));
    var s3 := s2.(w1 := Worker([], Start(TellUp, Tx), NoCall));
    var s4 := s3.(w1 := Worker([], Ready, NoCall));
    run := BothCanBeChecked();
    Extend(BOTH, run, CHECKED, Work(0, Go), s1); run := run + [Work(0, Go)];
    Extend(BOTH, run, s1, Work(0, Go), s2); run := run + [Work(0, Go)];
    Extend(BOTH, run, s2, Work(1, Go), s3); run := run + [Work(1, Go)];
    Extend(BOTH, run, s3, Work(1, Go), s4); run := run + [Work(1, Go)];
    Extend(BOTH, run, s4, Control, UP); run := run + [Control];
  }

  lemma StopCanBePosted() returns (run: seq<Action>)
    ensures After(BOTH, run) == Some(STOP_POSTED)
  {
    hide After;
    var s1 := UP.(stream := Uninitializing, mode := Stopping, cleared := false, rxAt := Todo, txAt := Todo);
    var s2 := s1.(cleared := true);
    var s3 := s2.(stopped := true);
    var s4 := s3.(rx := Uninitializing, rxAt := Pending);
    var s5 := s4.(rxAt := Done, w0 := Worker([RxF(1), Finisher(Rx)], Ready, NoCall));
    var s6 := s5.(tx := Uninitializing, txAt := Pending);
    assert [RxF(1)] + [Finisher(Rx)] == [RxF(1), Finisher(Rx)] && [] + [Finisher(Tx)] == [Finisher(Tx)];
    run := StreamCanBeUp();
    Extend(BOTH, run, UP, CallStop, s1); run := run + [CallStop];
    Extend(BOTH, run, s1, Control, s2); run := run + [Control];
    Extend(BOTH, run, s2, Control, s3); run := run + [Control];
    Extend(BOTH, run, s3, Control, s4); run := run + [Control];
    Extend(BOTH, run, s4, Control, s5); run := run + [Control];
    Extend(BOTH, run, s5, Control, s6); run := run + [Control];
    Extend(BOTH, run, s6, Control, STOP_POSTED); run := run + [Control];
  }

  /** rx's finisher has given up the channel. */
  const RX_GIVEN_UP := STOP_POSTED.(rx := Uninitialized, w0 := Worker([], Finish(Destroy, Rx), NoCall))

  lemma RxCanBeGivenUp() returns (run: seq<Action>)
    ensures After(BOTH, run) == Some(RX_GIVEN_UP)
  {
    hide After;
    var s1 := STOP_POSTED.(w0 := Worker([Finisher(Rx)], RunRx(RxLoad, 1), NoCall));
    var s2 := s1.(w0 := Worker([Finisher(Rx)], Ready, NoCall));
    var s3 := s2.(w0 := Worker([], Finish(FinishCas, Rx), NoCall));
    assert [RxF(1), Finisher(Rx)][1..] == [Finisher(Rx)] && [Finisher(Rx)][1..] == [];
    run := StopCanBePosted();
    Extend(BOTH, run, STOP_POSTED, Work(0, Go), s1); run := run + [Work(0, Go)];
    Extend(BOTH, run, s1, Work(0, Go), s2); run := run + [Work(0, Go)];
    Extend(BOTH, run, s2, Work(0, Go), s3); run := run + [Work(0, Go)];
    Extend(BOTH, run, s3, Work(0, Go), RX_GIVEN_UP); run := run + [Work(0, Go)];
  }

  lemma RxCanBeDrained() returns (run: seq<Action>)
    ensures After(BOTH, run) == Some(RX_DRAINED)
  {
    hide After;
    var s1 := RX_GIVEN_UP.(w1 := Worker([], Finish(FinishCas, Tx), NoCall));
    var s2 := s1.(tx := Uninitialized, w1 := Worker([], Finish(Destroy, Tx), NoCall));
    assert [Finisher(Tx)][1..] == [];
    run := RxCanBeGivenUp();
    Extend(BOTH, run, RX_GIVEN_UP, Work(1, Go), s1); run := run + [Work(1, Go)];
    Extend(BOTH, run, s1, Work(1, Go), s2); run := run + [Work(1, Go)];
    Extend(BOTH, run, s2, Work(1, Go), RX_DRAINED); run := run + [Work(1, Go)];
  }

  /** asyncio_stop can return while the rx pool has yet to be destroyed. */
  lemma PoolCanOutliveStop() returns (run: seq<Action>, s: State)
    ensures After(BOTH, run) == Some(s) && s.mode.Down? && s.rxPool
  {
    hide After;
    var s1 := RX_DRAINED.(w1 := Worker([], Finish(CheckTx, Tx), NoCall));
    var s2 := s1.(w1 := Worker([], Finish(SetDown, Tx), NoCall));
    var s3 := s2.(stream := Uninitialized, w1 := Worker([], Finish(TellDown, Tx), NoCall));
    var s4 := s3.(stoppedFlag := true, w1 := Worker([], Ready, NoCall));
    s := s4.(mode := Down);
    run := RxCanBeDrained();
    Extend(BOTH, run, RX_DRAINED, Work(1, Go), s1); run := run + [Work(1, Go)];
    Extend(BOTH, run, s1, Work(1, Go), s2); run := run + [Work(1, Go)];
    Extend(BOTH, run, s2, Work(1, Go), s3); run := run + [Work(1, Go)];
    Extend(BOTH, run, s3, Work(1, Go), s4); run := run + [Work(1, Go)];
    Extend(BOTH, run, s4, Control, s); run := run + [Control];
  }
}
