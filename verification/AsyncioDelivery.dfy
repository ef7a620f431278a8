/** Every step of the asyncio stream keeps what is known about rx_f's buffers and what it has read. */
module AsyncioDelivery {
  import opened Basics
  import opened AsyncioModel
  import opened AsyncioInvariant
  import opened AsyncioCycle
  import opened AsyncioFrames

  /** Nothing has been recorded by rx_f. */
  predicate SameReads(r: Records, r': Records) {
    r'.taken == r.taken && r'.freed == r.freed && r'.found == r.found && r'.delivered == r.delivered
  }

  /** rx_f has a buffer. */
  predicate HasBuffer(pc: Pc) {
    pc.RunRx? && (pc.rst.RxCallback? || pc.rst.RxRepost? || pc.rst.RxFree?)
  }

  lemma QuietKeeps(r: Records, pc: Pc, r': Records, pc': Pc)
    requires DeliveryOk(r, pc) && SameReads(r, r') && (pc' == pc || (!HasBuffer(pc) && !HasBuffer(pc')))
    ensures DeliveryOk(r', pc')
  {
  }

  lemma TokenStepKeepsReads(r: Records, stopped: bool, up: bool, pool: bool, thread: nat, call: Call, op: ClientOp,
                            r': Records, call': Call)
    requires TokenStep(r, stopped, up, pool, thread, call, op) == Some((r', call'))
    ensures SameReads(r, r')
  {
  }

  lemma ClientKeepsReads(c: Config, s: State, thread: nat, call: Call, op: ClientOp, s': State, call': Call)
    requires ClientStep(c, s, thread, call, op) == Some((s', call'))
    ensures SameReads(s.rec, s'.rec) && s'.w0.pc == s.w0.pc
  {
    var (r, _) := TokenStep(s.rec, s.stopped, s.tx.Initialized?, s.txPool, thread, call, op).value;
    TokenStepKeepsReads(s.rec, s.stopped, s.tx.Initialized?, s.txPool, thread, call, op, r, call');
    hide TokenStep, Post;
    if op.SendPost? && call.SendChecked? {
      PostFrame(c, s, Tx, TxF(Request(call.tok, s.rec.nextId, op.hasFn)));
    }
  }

  lemma CallbackKeepsReads(c: Config, s: State, i: nat, op: ClientOp, s': State)
    requires i < 2 && CallbackStep(c, s, i, op) == Some(s')
    ensures SameReads(s.rec, s'.rec) && s'.w0.pc == s.w0.pc
  {
    hide ClientStep;
    var (s1, call') := ClientStep(c, s, i, Wk(s, i).call, op).value;
    ClientKeepsReads(c, s, i, Wk(s, i).call, op, s1, call');
  }

  lemma TxKeepsReads(c: Config, s: State, i: nat, stage: TxStage, req: Request, choice: Choice, s': State)
    requires i < 2 && Wk(s, i).pc == RunTx(stage, req) && TxStep(c, s, i, stage, req, choice) == Some(s')
    ensures SameReads(s.rec, s'.rec) && (i == 0 ==> !HasBuffer(s'.w0.pc)) && (i == 1 ==> s'.w0.pc == s.w0.pc)
  {
    if choice.Client? {
      hide CallbackStep;
      CallbackKeepsReads(c, s, i, choice.op, s');
    }
  }

  lemma RxKeepsDelivery(c: Config, s: State, stage: RxStage, gen: nat, choice: Choice, s': State)
    requires s.w0.pc == RunRx(stage, gen) && RxStep(c, s, 0, stage, gen, choice) == Some(s')
    requires DeliveryOk(s.rec, s.w0.pc)
    ensures DeliveryOk(s'.rec, s'.w0.pc)
  {
    hide CallbackStep, Post;
    if choice.Client? {
      CallbackKeepsReads(c, s, 0, choice.op, s');
    } else {
      PostFrame(c, s, Rx, RxF(s.rxGen));
    }
  }

  lemma FetchKeepsReads(s: State, i: nat, s': State)
    requires i < 2 && Wk(s, i).pc.Ready? && Fetch(s, i) == Some(s')
    ensures s'.rec == s.rec && (i == 0 ==> !HasBuffer(s'.w0.pc)) && (i == 1 ==> s'.w0.pc == s.w0.pc)
  {
  }

  lemma RxRunsOnItsWorker(c: Config, s: State, i: nat)
    requires i < 2 && CycleOk(c, s) && Wk(s, i).pc.RunRx?
    ensures i == 0
  {
    hide ChannelsOk, GlobalOk;
  }

  lemma WorkKeepsDelivery(c: Config, s: State, i: nat, choice: Choice, s': State)
    requires i < 2 && CycleOk(c, s) && DeliveryOk(s.rec, s.w0.pc) && WorkStep(c, s, i, choice) == Some(s')
    ensures DeliveryOk(s'.rec, s'.w0.pc)
  {
    hide CycleOk, DeliveryOk, Fetch, StartStep, FinishStep, RxStep, TxStep;
    match Wk(s, i).pc
    case Ready =>
      FetchKeepsReads(s, i, s');
      QuietKeeps(s.rec, s.w0.pc, s'.rec, s'.w0.pc);
    case Start(stage, ch) =>
      StartLeaves(c, s, i, stage, ch, s');
      QuietKeeps(s.rec, s.w0.pc, s'.rec, s'.w0.pc);
    case Finish(stage, ch) =>
      FinishLeaves(c, s, i, stage, ch, s');
      QuietKeeps(s.rec, s.w0.pc, s'.rec, s'.w0.pc);
    case RunRx(stage, gen) =>
      RxRunsOnItsWorker(c, s, i);
      RxKeepsDelivery(c, s, stage, gen, choice, s');
    case RunTx(stage, req) =>
      TxKeepsReads(c, s, i, stage, req, choice, s');
      QuietKeeps(s.rec, s.w0.pc, s'.rec, s'.w0.pc);
  }

  lemma StepKeepsDelivery(c: Config, s: State, a: Action)
    requires CycleOk(c, s) && DeliveryOk(s.rec, s.w0.pc) && Step(c, s, a).Some?
    ensures DeliveryOk(Step(c, s, a).value.rec, Step(c, s, a).value.w0.pc)
  {
    hide CycleOk, WorkStep, StartingStep, StoppingStep, ClientStep;
    var s' := Step(c, s, a).value;
    match a
    case CallStart =>
    case CallStop =>
    case Control =>
      if s.mode.Starting? {
        StartingLeaves(c, s, s');
      } else {
        StoppingLeaves(c, s, s');
      }
    case ControlClient(op) =>
      var (s1, call') := ClientStep(c, s, 2, s.call, op).value;
      ClientKeepsReads(c, s, 2, s.call, op, s1, call');
      QuietKeeps(s.rec, s.w0.pc, s'.rec, s'.w0.pc);
    case Work(i, choice) => WorkKeepsDelivery(c, s, i, choice, s');
    case PostForeign(i) =>
  }
}
