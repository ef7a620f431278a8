/** Neither asyncio_start nor asyncio_stop waits for a completion that nobody is left to signal. */
module AsyncioProgress {
  import opened Basics
  import opened AsyncioModel
  import opened AsyncioInvariant
  import opened AsyncioCycle
  import opened AsyncioFrames
  import opened Asyncio

  /** The worker is about to look whether all channels are up, or to say that they are. */
  predicate ChecksUp(pc: Pc) {
    pc.Start? && !pc.sst.Create? && !pc.sst.Publish?
  }

  predicate ChecksDown(pc: Pc) {
    pc.Finish? && !pc.fst.FinishCas?
  }

  /** When all channels are up the flag has been sent or someone will find them up. */
  predicate StartIsTold(c: Config, s: State) {
    s.mode.Starting? && s.cleared && AllUp(c, s.rx, s.tx) && !s.startedFlag ==> ChecksUp(s.w0.pc) || ChecksUp(s.w1.pc)
  }

  predicate StopIsTold(s: State) {
    s.mode.Stopping? && s.cleared && AllDown(s.rx, s.tx) && !s.stoppedFlag ==>
      ChecksDown(s.w0.pc) || ChecksDown(s.w1.pc)
  }

  /** Without a channel nobody ever sends a flag. */
  predicate NothingSent(s: State) {
    !s.startedFlag && (s.mode.Down? || s.mode.Starting?)
  }

  predicate ProgressOk(c: Config, s: State) {
    if c.rxOn || c.txOn then StartIsTold(c, s) && StopIsTold(s) else NothingSent(s)
  }

  // ---------------------------------------------------------------- steps that change nothing of this

  predicate SameCycle(s: State, s': State) {
    && s'.mode == s.mode && s'.cleared == s.cleared && s'.rx == s.rx && s'.tx == s.tx
    && s'.startedFlag == s.startedFlag && s'.stoppedFlag == s.stoppedFlag
  }

  /** Worker `i` goes on where it does not matter whether it has. */
  lemma MoveKeepsProgress(c: Config, s: State, i: nat, s': State)
    requires i < 2 && ProgressOk(c, s) && SameCycle(s, s') && Wk(s', 1 - i).pc == Wk(s, 1 - i).pc
    requires ChecksUp(Wk(s, i).pc) ==> ChecksUp(Wk(s', i).pc) || !AllUp(c, s.rx, s.tx)
    requires ChecksDown(Wk(s, i).pc) ==> ChecksDown(Wk(s', i).pc) || !AllDown(s.rx, s.tx)
    ensures ProgressOk(c, s')
  {
  }

  lemma PostCycle(c: Config, s: State, ch: Channel, job: Job)
    ensures SameCycle(s, Post(c, s, ch, job))
  {
  }

  lemma WithPcCycle(s: State, i: nat, pc: Pc)
    requires i < 2
    ensures var s' := WithPc(s, i, pc); SameCycle(s, s') && Wk(s', i).pc == pc && Wk(s', 1 - i) == Wk(s, 1 - i)
  {
  }

  lemma RecordCycle(s: State, r: Records, i: nat, pc: Pc)
    requires i < 2
    ensures
      var s' := WithPc(s.(rec := r), i, pc);
      SameCycle(s, s') && Wk(s', i).pc == pc && Wk(s', 1 - i).pc == Wk(s, 1 - i).pc
  {
  }

  lemma ClientCycle(c: Config, s: State, thread: nat, call: Call, op: ClientOp, s': State, call': Call)
    requires ClientStep(c, s, thread, call, op) == Some((s', call'))
    ensures SameCycle(s, s') && s'.w0.pc == s.w0.pc && s'.w1.pc == s.w1.pc
  {
    hide TokenStep, Post;
    if op.SendPost? && call.SendChecked? {
      PostCycle(c, s, Tx, TxF(Request(call.tok, s.rec.nextId, op.hasFn)));
      PostFrame(c, s, Tx, TxF(Request(call.tok, s.rec.nextId, op.hasFn)));
    }
  }

  lemma CallbackCycle(c: Config, s: State, i: nat, op: ClientOp, s': State)
    requires i < 2 && CallbackStep(c, s, i, op) == Some(s')
    ensures SameCycle(s, s') && s'.w0.pc == s.w0.pc && s'.w1.pc == s.w1.pc
  {
    hide ClientStep;
    var (s1, call') := ClientStep(c, s, i, Wk(s, i).call, op).value;
    ClientCycle(c, s, i, Wk(s, i).call, op, s1, call');
  }

  // ---------------------------------------------------------------- the control thread

  lemma NoneIsUpYet(c: Config, s: State)
    requires CycleOk(c, s) && (c.rxOn || c.txOn) && s.mode.Starting? && !s.cleared
    ensures !AllUp(c, s.rx, s.tx)
  {
    hide WorkerOk, ChannelsOk;
  }

  lemma NoneIsDownYet(c: Config, s: State)
    requires CycleOk(c, s) && (c.rxOn || c.txOn) && s.mode.Stopping? && !s.cleared
    ensures !AllDown(s.rx, s.tx)
  {
    hide WorkerOk, ChannelsOk;
  }

  /** What is left of asyncio_start once it has cleared the flag: none of it brings all channels up. */
  lemma StartingMoves(c: Config, s: State, s': State)
    requires s.cleared && StartingStep(c, s) == Some(s') && s.mode.Starting?
    ensures s'.cleared && s'.startedFlag == s.startedFlag && (AllUp(c, s'.rx, s'.tx) ==> AllUp(c, s.rx, s.tx))
    ensures s'.mode.Starting? || (s'.mode.Up? && s.startedFlag)
  {
    hide Post;
    if s.rxAt.Pending? {
      PostCycle(c, s, Rx, Starter(Rx));
      hide AllUp;
    } else if s.rxAt.Done? && s.txAt.Pending? {
      PostCycle(c, s, Tx, Starter(Tx));
      hide AllUp;
    } else {
      StartingStores(c, s, s');
    }
  }

  lemma StartingStores(c: Config, s: State, s': State)
    requires s.cleared && StartingStep(c, s) == Some(s') && s.mode.Starting?
    requires !s.rxAt.Pending? && !(s.rxAt.Done? && s.txAt.Pending?)
    ensures s'.cleared && s'.startedFlag == s.startedFlag && (AllUp(c, s'.rx, s'.tx) ==> AllUp(c, s.rx, s.tx))
    ensures s'.mode.Starting? || (s'.mode.Up? && s.startedFlag)
  {
    hide Post;
  }

  lemma StoppingMoves(c: Config, s: State, s': State)
    requires s.cleared && StoppingStep(c, s) == Some(s') && s.mode.Stopping?
    ensures s'.cleared && s'.stoppedFlag == s.stoppedFlag && s'.startedFlag == s.startedFlag
    ensures AllDown(s'.rx, s'.tx) ==> AllDown(s.rx, s.tx)
    ensures s'.mode.Stopping? || s'.mode.Down?
  {
    hide Post;
    if s.stopped && s.rxAt.Pending? {
      PostCycle(c, s, Rx, Finisher(Rx));
      hide AllDown;
    } else if s.stopped && s.rxAt.Done? && s.txAt.Pending? {
      PostCycle(c, s, Tx, Finisher(Tx));
      hide AllDown;
    } else {
      StoppingStores(c, s, s');
    }
  }

  lemma StoppingStores(c: Config, s: State, s': State)
    requires s.cleared && StoppingStep(c, s) == Some(s') && s.mode.Stopping?
    requires s.stopped ==> !s.rxAt.Pending? && !(s.rxAt.Done? && s.txAt.Pending?)
    ensures s'.cleared && s'.stoppedFlag == s.stoppedFlag && s'.startedFlag == s.startedFlag
    ensures AllDown(s'.rx, s'.tx) ==> AllDown(s.rx, s.tx)
    ensures s'.mode.Stopping? || s'.mode.Down?
  {
    hide Post;
  }

  lemma StartingKeepsProgress(c: Config, s: State, s': State)
    requires CycleOk(c, s) && ProgressOk(c, s) && s.mode.Starting? && StartingStep(c, s) == Some(s')
    ensures ProgressOk(c, s')
  {
    hide CycleOk;
    if s.cleared {
      StartingMoves(c, s, s');
      StartingLeaves(c, s, s');
      hide StartingStep;
    } else if c.rxOn || c.txOn {
      NoneIsUpYet(c, s);
    }
  }

  lemma StoppingKeepsProgress(c: Config, s: State, s': State)
    requires CycleOk(c, s) && ProgressOk(c, s) && s.mode.Stopping? && StoppingStep(c, s) == Some(s')
    ensures ProgressOk(c, s')
  {
    hide CycleOk;
    if s.cleared {
      StoppingMoves(c, s, s');
      StoppingLeaves(c, s, s');
      hide StoppingStep;
    } else if c.rxOn || c.txOn {
      NoneIsDownYet(c, s);
    }
  }

  // ---------------------------------------------------------------- the workers

  lemma StartKeepsProgress(c: Config, s: State, i: nat, stage: StartStage, ch: Channel, s': State)
    requires i < 2 && ProgressOk(c, s) && Wk(s, i).pc == Start(stage, ch) && StartFits(c, s, i, stage, ch)
    requires PhaseOk(s.mode, At(s, ch), Chan(s, ch)) && s' == StartStep(c, s, i, stage, ch)
    ensures ProgressOk(c, s')
  {
    hide Post;
    match stage
    case Create => MoveKeepsProgress(c, s, i, s');
    case Publish =>
    case PostRx =>
      PostCycle(c, s, Rx, RxF(s.rxGen));
      PostFrame(c, s, Rx, RxF(s.rxGen));
      WithPcCycle(Post(c, s, Rx, RxF(s.rxGen)), i, Start(SeeRx, ch));
      MoveKeepsProgress(c, s, i, s');
    case SeeRx => MoveKeepsProgress(c, s, i, s');
    case SeeTx => MoveKeepsProgress(c, s, i, s');
    case SetUp => MoveKeepsProgress(c, s, i, s');
    case TellUp =>
  }

  lemma GiveUpKeepsProgress(c: Config, s: State, i: nat, ch: Channel, s': State)
    requires i < 2 && ProgressOk(c, s) && Wk(s, i).pc == Finish(FinishCas, ch) && FinishFits(c, s, i, FinishCas, ch)
    requires PhaseOk(s.mode, At(s, ch), Chan(s, ch)) && s' == FinishStep(c, s, i, FinishCas, ch)
    ensures ProgressOk(c, s')
  {
  }

  lemma TellDownKeepsProgress(c: Config, s: State, i: nat, ch: Channel, s': State)
    requires i < 2 && ProgressOk(c, s) && Wk(s, i).pc == Finish(TellDown, ch)
    requires s' == FinishStep(c, s, i, TellDown, ch)
    ensures ProgressOk(c, s')
  {
  }

  lemma FinishKeepsProgress(c: Config, s: State, i: nat, stage: FinishStage, ch: Channel, s': State)
    requires i < 2 && ProgressOk(c, s) && Wk(s, i).pc == Finish(stage, ch) && FinishFits(c, s, i, stage, ch)
    requires PhaseOk(s.mode, At(s, ch), Chan(s, ch)) && s' == FinishStep(c, s, i, stage, ch)
    ensures ProgressOk(c, s')
  {
    hide PhaseOk, FinishFits, WithPc, WithChan, ProgressOk;
    match stage
    case FinishCas => GiveUpKeepsProgress(c, s, i, ch, s');
    case Destroy =>
      WithPcCycle(WithPool(s, ch, false), i, Finish(CheckRx, ch));
      MoveKeepsProgress(c, s, i, s');
    case CheckRx =>
      WithPcCycle(s, i, if s.rx.Uninitialized? then Finish(CheckTx, ch) else Ready);
      MoveKeepsProgress(c, s, i, s');
    case CheckTx =>
      WithPcCycle(s, i, if s.tx.Uninitialized? then Finish(SetDown, ch) else Ready);
      MoveKeepsProgress(c, s, i, s');
    case SetDown =>
      WithPcCycle(s.(stream := Uninitialized), i, Finish(TellDown, ch));
      MoveKeepsProgress(c, s, i, s');
    case TellDown => TellDownKeepsProgress(c, s, i, ch, s');
  }

  lemma PhaseFits(c: Config, s: State, ch: Channel)
    requires CycleOk(c, s) && On(c, ch)
    ensures PhaseOk(s.mode, At(s, ch), Chan(s, ch))
  {
    hide WorkerOk, ChannelsOk, PhaseOk;
  }

  lemma ChannelStepsKeepProgress(c: Config, s: State, i: nat, s': State)
    requires i < 2 && CycleOk(c, s) && ProgressOk(c, s) && (Wk(s, i).pc.Start? || Wk(s, i).pc.Finish?)
    requires WorkStep(c, s, i, Go) == Some(s')
    ensures ProgressOk(c, s')
  {
    hide CycleOk, StartStep, FinishStep, PhaseOk;
    match Wk(s, i).pc
    case Start(stage, ch) =>
      StartFacts(c, s, i, stage, ch);
      PhaseFits(c, s, ch);
      StartKeepsProgress(c, s, i, stage, ch, s');
    case Finish(stage, ch) =>
      FinishFacts(c, s, i, stage, ch);
      PhaseFits(c, s, ch);
      FinishKeepsProgress(c, s, i, stage, ch, s');
  }

  lemma FetchCycle(s: State, i: nat, s': State)
    requires i < 2 && Fetch(s, i) == Some(s')
    ensures SameCycle(s, s') && Wk(s', 1 - i) == Wk(s, 1 - i)
  {
  }

  lemma RxCycle(c: Config, s: State, i: nat, stage: RxStage, gen: nat, choice: Choice, s': State)
    requires i < 2 && RxStep(c, s, i, stage, gen, choice) == Some(s') && !choice.Client?
    ensures SameCycle(s, s') && Wk(s', 1 - i).pc == Wk(s, 1 - i).pc
  {
    hide Post, WithPc;
    var r := s.rec;
    match stage
    case RxLoad => WithPcCycle(s, i, if s.rx.Initialized? then RunRx(RxAlloc, gen) else Ready);
    case RxAlloc =>
      if choice.NoBuffer? {
        WithPcCycle(s, i, RunRx(RxRepostEmpty, gen));
      } else if choice.ReadNothing? {
        RecordCycle(s, r.(taken := r.taken + 1), i, RunRx(RxRepost, gen));
      } else {
        RecordCycle(s, r.(taken := r.taken + 1, found := r.found + [choice.data]), i,
                    RunRx(RxCallback(choice.data), gen));
      }
    case RxCallback(data) => RecordCycle(s, r.(delivered := r.delivered + [data]), i, RunRx(RxRepost, gen));
    case RxRepost => RepostCycle(c, s, i, RunRx(RxFree, gen));
    case RxRepostEmpty => RepostCycle(c, s, i, Ready);
    case RxFree => RecordCycle(s, r.(freed := r.freed + 1), i, Ready);
  }

  lemma RepostCycle(c: Config, s: State, i: nat, pc: Pc)
    requires i < 2
    ensures
      var s' := WithPc(Post(c, s, Rx, RxF(s.rxGen)), i, pc);
      SameCycle(s, s') && Wk(s', 1 - i).pc == Wk(s, 1 - i).pc
  {
    hide Post, WithPc;
    PostCycle(c, s, Rx, RxF(s.rxGen));
    PostFrame(c, s, Rx, RxF(s.rxGen));
    WithPcCycle(Post(c, s, Rx, RxF(s.rxGen)), i, pc);
  }

  lemma TxCycle(c: Config, s: State, i: nat, stage: TxStage, req: Request, choice: Choice, s': State)
    requires i < 2 && TxStep(c, s, i, stage, req, choice) == Some(s') && !choice.Client?
    ensures SameCycle(s, s') && Wk(s', 1 - i).pc == Wk(s, 1 - i).pc
  {
  }

  lemma WorkKeepsProgress(c: Config, s: State, i: nat, choice: Choice, s': State)
    requires i < 2 && CycleOk(c, s) && ProgressOk(c, s) && WorkStep(c, s, i, choice) == Some(s')
    ensures ProgressOk(c, s')
  {
    hide CycleOk, StartStep, FinishStep, RxStep, TxStep, Fetch;
    match Wk(s, i).pc
    case Ready =>
      FetchCycle(s, i, s');
      MoveKeepsProgress(c, s, i, s');
    case Start(_, _) => ChannelStepsKeepProgress(c, s, i, s');
    case Finish(_, _) => ChannelStepsKeepProgress(c, s, i, s');
    case RunRx(stage, gen) =>
      if choice.Client? {
        RxClientIs(c, s, i, stage, gen, choice, s');
      } else {
        RxCycle(c, s, i, stage, gen, choice, s');
      }
      MoveKeepsProgress(c, s, i, s');
    case RunTx(stage, req) =>
      if choice.Client? {
        TxClientIs(c, s, i, stage, req, choice, s');
      } else {
        TxCycle(c, s, i, stage, req, choice, s');
      }
      MoveKeepsProgress(c, s, i, s');
  }

  lemma RxClientIs(c: Config, s: State, i: nat, stage: RxStage, gen: nat, choice: Choice, s': State)
    requires i < 2 && RxStep(c, s, i, stage, gen, choice) == Some(s') && choice.Client?
    ensures SameCycle(s, s') && Wk(s', 1 - i).pc == Wk(s, 1 - i).pc
  {
    hide CallbackStep;
    CallbackCycle(c, s, i, choice.op, s');
  }

  lemma TxClientIs(c: Config, s: State, i: nat, stage: TxStage, req: Request, choice: Choice, s': State)
    requires i < 2 && TxStep(c, s, i, stage, req, choice) == Some(s') && choice.Client?
    ensures SameCycle(s, s') && Wk(s', 1 - i).pc == Wk(s, 1 - i).pc
  {
    hide CallbackStep;
    CallbackCycle(c, s, i, choice.op, s');
  }

  lemma BeginKeepsProgress(c: Config, s: State, a: Action, s': State)
    requires CycleOk(c, s) && ProgressOk(c, s) && (a.CallStart? || a.CallStop?) && Step(c, s, a) == Some(s')
    ensures ProgressOk(c, s')
  {
    hide WorkerOk, ChannelsOk;
  }

  lemma StepKeepsProgress(c: Config, s: State, a: Action)
    requires CycleOk(c, s) && ProgressOk(c, s) && Step(c, s, a).Some?
    ensures ProgressOk(c, Step(c, s, a).value)
  {
    hide CycleOk, WorkStep, StartingStep, StoppingStep, ClientStep;
    var s' := Step(c, s, a).value;
    match a
    case CallStart => BeginKeepsProgress(c, s, a, s');
    case CallStop => BeginKeepsProgress(c, s, a, s');
    case Control =>
      if s.mode.Starting? {
        StartingKeepsProgress(c, s, s');
      } else {
        StoppingKeepsProgress(c, s, s');
      }
    case ControlClient(op) =>
      var (s1, call') := ClientStep(c, s, 2, s.call, op).value;
      ClientCycle(c, s, 2, s.call, op, s1, call');
    case Work(i, choice) => WorkKeepsProgress(c, s, i, choice, s');
    case PostForeign(i) =>
  }

  lemma {:induction false} ProgressInEveryRun(c: Config, run: seq<Action>)
    ensures After(c, run).Some? ==> ProgressOk(c, After(c, run).value)
  {
    if run != [] {
      hide Step, Inv, ProgressOk;
      var before := run[..|run| - 1];
      ProgressInEveryRun(c, before);
      if After(c, run).Some? {
        CycleInEveryRun(c, before);
        StepKeepsProgress(c, After(c, before).value, run[|run| - 1]);
      }
    }
  }

  lemma CycleInEveryRun(c: Config, run: seq<Action>)
    ensures After(c, run).Some? ==> CycleOk(c, After(c, run).value)
  {
    hide CycleOk, After;
    InvHoldsInEveryRun(c, run);
  }

  // ---------------------------------------------------------------- what follows for every run

  /** Starters or finishers of the stream that the worker runs or has queued. */
  predicate HasStarter(w: Worker) {
    w.pc.Start? || exists k :: 0 <= k < |w.queue| && w.queue[k].Starter?
  }

  predicate HasFinisher(w: Worker) {
    w.pc.Finish? || exists k :: 0 <= k < |w.queue| && w.queue[k].Finisher?
  }

  lemma StarterIsThere(c: Config, s: State, ch: Channel)
    requires CycleOk(c, s) && On(c, ch) && s.mode.Starting? && At(s, ch).Done? && !Chan(s, ch).Initialized?
    ensures HasStarter(Wk(s, WorkerOf(c, ch)))
  {
    hide WorkerOk;
    CountZero(Wk(s, WorkerOf(c, ch)).queue, KStart(ch));
  }

  lemma FinisherIsThere(c: Config, s: State, ch: Channel)
    requires CycleOk(c, s) && On(c, ch) && s.mode.Stopping? && At(s, ch).Done? && !Chan(s, ch).Uninitialized?
    ensures HasFinisher(Wk(s, WorkerOf(c, ch)))
  {
    hide WorkerOk;
    CountZero(Wk(s, WorkerOf(c, ch)).queue, KFinish(ch));
  }

  lemma OffIsDown(c: Config, s: State, ch: Channel)
    requires CycleOk(c, s) && !On(c, ch)
    ensures Chan(s, ch).Uninitialized?
  {
    hide WorkerOk, ChannelsOk;
  }

  lemma StartWaitsAtTheEnd(c: Config, s: State)
    requires CycleOk(c, s) && s.mode.Starting? && StartingStep(c, s).None?
    ensures s.cleared && s.rxAt.Done? && s.txAt.Done? && !s.startedFlag
  {
    hide CycleOk, Post;
  }

  lemma StopWaitsAtTheEnd(c: Config, s: State)
    requires CycleOk(c, s) && s.mode.Stopping? && StoppingStep(c, s).None?
    ensures s.cleared && s.rxAt.Done? && s.txAt.Done? && !s.stoppedFlag
  {
    hide CycleOk, Post;
  }

  /** While asyncio_start waits for its flag, a starter is running or queued; and while asyncio_stop does, a
      finisher. */
  lemma WaitsAreServed(c: Config, run: seq<Action>, s: State)
    requires After(c, run) == Some(s) && (c.rxOn || c.txOn) && Step(c, s, Control).None?
    ensures s.mode.Starting? ==> HasStarter(s.w0) || HasStarter(s.w1)
    ensures s.mode.Stopping? ==> HasFinisher(s.w0) || HasFinisher(s.w1)
  {
    hide After, CycleOk, HasStarter, HasFinisher, StartingStep, StoppingStep;
    CycleInEveryRun(c, run);
    ProgressInEveryRun(c, run);
    if s.mode.Starting? {
      StartWaitsAtTheEnd(c, s);
      if c.rxOn && !s.rx.Initialized? {
        StarterIsThere(c, s, Rx);
      } else if c.txOn && !s.tx.Initialized? {
        StarterIsThere(c, s, Tx);
      } else {
        CheckerHasStarter(s.w0);
        CheckerHasStarter(s.w1);
      }
    } else if s.mode.Stopping? {
      StopWaitsAtTheEnd(c, s);
      if !s.rx.Uninitialized? {
        if !c.rxOn { OffIsDown(c, s, Rx); }
        FinisherIsThere(c, s, Rx);
      } else if !s.tx.Uninitialized? {
        if !c.txOn { OffIsDown(c, s, Tx); }
        FinisherIsThere(c, s, Tx);
      } else {
        CheckerHasFinisher(s.w0);
        CheckerHasFinisher(s.w1);
      }
    }
  }

  lemma CheckerHasStarter(w: Worker)
    ensures ChecksUp(w.pc) ==> HasStarter(w)
  {
  }

  lemma CheckerHasFinisher(w: Worker)
    ensures ChecksDown(w.pc) ==> HasFinisher(w)
  {
  }

  /** A worker that has a job can go on: with the next step of the job, whatever pool and read do in it, or in the
      middle of a client's call with that, or with fetching the job. */
  lemma WorkersCanGoOn(c: Config, s: State, i: nat) returns (choice: Choice)
    requires i < 2 && (!Wk(s, i).pc.Ready? || Wk(s, i).queue != [])
    ensures Step(c, s, Work(i, choice)).Some?
  {
    var w := Wk(s, i);
    choice := Go;
    if w.pc.RunRx? && w.pc.rst.RxAlloc? {
      choice := NoBuffer;
    } else if (w.pc.RunRx? && w.pc.rst.RxCallback?) || (w.pc.RunTx? && w.pc.tst.TxCallback?) {
      choice := match w.call
        case NoCall => Return
        case Allocating => Client(AllocEmpty)
        case SendOpened(_) => Client(SendLoad)
        case SendChecked(_) => Client(SendReject);
    }
  }

  /** A stream without a channel is never started: asyncio_start waits for ever, nobody having a flag to send. */
  lemma NothingConfiguredNeverStarts(c: Config, run: seq<Action>, s: State)
    requires After(c, run) == Some(s) && !c.rxOn && !c.txOn
    ensures !s.mode.Up? && !s.startedFlag
  {
    hide After;
    ProgressInEveryRun(c, run);
  }
}
