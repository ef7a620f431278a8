/** Every step of the asyncio stream keeps the life-cycle part of the invariant. */
module AsyncioCycle {
  import opened Basics
  import opened AsyncioModel
  import opened AsyncioInvariant

  // ---------------------------------------------------------------- queues

  lemma Appended(q: seq<Job>, job: Job)
    ensures forall k :: Count(q + [job], k) == Count(q, k) + (if KindOf(job) == k then 1 else 0)
  {
    forall k
      ensures Count(q + [job], k) == Count(q, k) + (if KindOf(job) == k then 1 else 0)
    {
      CountAppend(q, job, k);
    }
  }

  /** A job may be queued behind the others unless it would be work of a channel whose starter is waiting. */
  lemma AppendedPlaced(c: Config, gen: nat, i: nat, q: seq<Job>, job: Job)
    requires QueuePlaced(c, gen, i, q) && JobPlaced(c, gen, i, job)
    requires KindOf(job) == KWork(Rx) ==> Count(q, KStart(Rx)) == 0
    requires KindOf(job) == KWork(Tx) ==> Count(q, KStart(Tx)) == 0
    ensures QueuePlaced(c, gen, i, q + [job])
  {
    CountZero(q, KStart(Rx));
    CountZero(q, KStart(Tx));
  }

  // ---------------------------------------------------------------- moving on

  /** How a worker's role for a channel may change without a change of the channel. */
  predicate MayBecome(role: Role, role': Role) {
    role' == role || ((role.InStartTail? || role.InStopTail?) && role'.Away?)
  }

  lemma RoleMayChange(st: InitState, pool: bool, mode: Mode, at: Progress, nStart: nat, nFinish: nat, nWork: nat,
                      role: Role, role': Role)
    requires ChannelOk(st, pool, mode, at, nStart, nFinish, nWork, role) && MayBecome(role, role')
    ensures ChannelOk(st, pool, mode, at, nStart, nFinish, nWork, role')
  {
  }

  /** Worker `i` has gone on to `pc`; nothing else has changed that the two channels depend on. */
  predicate ChannelsAlike(s: State, i: nat, pc: Pc, s': State)
    requires i < 2
  {
    && Wk(s', i) == Wk(s, i).(pc := pc) && Wk(s', 1 - i) == Wk(s, 1 - i)
    && s'.rx == s.rx && s'.tx == s.tx && s'.rxPool == s.rxPool && s'.txPool == s.txPool
    && s'.mode == s.mode && s'.rxAt == s.rxAt && s'.txAt == s.txAt
  }

  /** Nothing has changed that the control thread or the clients see. */
  predicate GlobalsAlike(s: State, s': State) {
    && s'.rx == s.rx && s'.tx == s.tx && s'.stream == s.stream && s'.mode == s.mode && s'.cleared == s.cleared
    && s'.rxAt == s.rxAt && s'.txAt == s.txAt && s'.stopped == s.stopped && s'.startedFlag == s.startedFlag
    && s'.stoppedFlag == s.stoppedFlag && s'.call == s.call && s'.rec.held == s.rec.held
  }

  lemma GlobalsKeep(c: Config, s: State, s': State)
    requires GlobalOk(c, s) && GlobalsAlike(s, s')
    ensures GlobalOk(c, s')
  {
  }

  /** What the rx chain needs to be told about a step. */
  predicate ChainKept(s: State, i: nat, pc: Pc) {
    && (InRxBody(pc) ==> Live(s.rx))
    && (OwesRx(pc) <==> OwesRx(Wk(s, i).pc) && (s.rx.Initialized? || !pc.Ready?))
  }

  lemma MoveKeepsChannels(c: Config, s: State, i: nat, pc: Pc, s': State)
    requires i < 2 && ChannelsOk(c, s) && ChannelsAlike(s, i, pc, s') && ChainKept(s, i, pc)
    requires MayBecome(RoleOf(Wk(s, i).pc, Rx), RoleOf(pc, Rx)) && MayBecome(RoleOf(Wk(s, i).pc, Tx), RoleOf(pc, Tx))
    ensures ChannelsOk(c, s')
  {
    var q := Wk(s, i).queue;
    if i == 0 {
      RoleMayChange(s.rx, s.rxPool, s.mode, s.rxAt, Count(q, KStart(Rx)), Count(q, KFinish(Rx)), Count(q, KWork(Rx)),
                    RoleOf(s.w0.pc, Rx), RoleOf(pc, Rx));
    }
    if i == WorkerOf(c, Tx) {
      RoleMayChange(s.tx, s.txPool, s.mode, s.txAt, Count(q, KStart(Tx)), Count(q, KFinish(Tx)), Count(q, KWork(Tx)),
                    RoleOf(Wk(s, i).pc, Tx), RoleOf(pc, Tx));
    }
  }

  lemma WorkersMove(c: Config, s: State, i: nat, pc: Pc, s': State)
    requires i < 2 && WorkerOk(c, s, 0) && WorkerOk(c, s, 1) && GlobalsAlike(s, s') && s'.rxGen == s.rxGen
    requires Wk(s', i) == Wk(s, i).(pc := pc) && Wk(s', 1 - i) == Wk(s, 1 - i)
    requires PcPlaced(c, s.rxGen, i, pc) && CallOk(c, s.mode, s.tx, pc, Wk(s, i).call)
    requires CompletionOk(c, s.mode, s.stream, s.rx, s.tx, pc)
    ensures WorkerOk(c, s', 0) && WorkerOk(c, s', 1)
  {
    assert WorkerOk(c, s', i) && WorkerOk(c, s', 1 - i);
  }

  /** A worker moves on. */
  lemma MoveKeeps(c: Config, s: State, i: nat, pc: Pc, s': State)
    requires i < 2 && CycleOk(c, s) && ChannelsAlike(s, i, pc, s') && GlobalsAlike(s, s') && s'.rxGen == s.rxGen
    requires MayBecome(RoleOf(Wk(s, i).pc, Rx), RoleOf(pc, Rx)) && MayBecome(RoleOf(Wk(s, i).pc, Tx), RoleOf(pc, Tx))
    requires PcPlaced(c, s.rxGen, i, pc) && CallOk(c, s.mode, s.tx, pc, Wk(s, i).call)
    requires CompletionOk(c, s.mode, s.stream, s.rx, s.tx, pc) && ChainKept(s, i, pc)
    ensures CycleOk(c, s')
  {
    hide WorkerOk, ChannelsOk, GlobalOk;
    MoveKeepsChannels(c, s, i, pc, s');
    GlobalsKeep(c, s, s');
    WorkersMove(c, s, i, pc, s');
  }

  lemma WithPcIsMove(s: State, r: Records, i: nat, pc: Pc)
    requires i < 2 && r.held == s.rec.held
    ensures
      var s' := WithPc(s.(rec := r), i, pc);
      ChannelsAlike(s, i, pc, s') && GlobalsAlike(s, s') && s'.rxGen == s.rxGen
  {
  }

  /** What a worker that only moves on to `pc` needs; the records may change besides. */
  predicate MayMove(c: Config, s: State, i: nat, pc: Pc)
    requires i < 2
  {
    && MayBecome(RoleOf(Wk(s, i).pc, Rx), RoleOf(pc, Rx)) && MayBecome(RoleOf(Wk(s, i).pc, Tx), RoleOf(pc, Tx))
    && PcPlaced(c, s.rxGen, i, pc) && CallOk(c, s.mode, s.tx, pc, Wk(s, i).call)
    && CompletionOk(c, s.mode, s.stream, s.rx, s.tx, pc) && ChainKept(s, i, pc)
  }

  lemma RecordKeeps(c: Config, s: State, r: Records, i: nat, pc: Pc, s': State)
    requires i < 2 && CycleOk(c, s) && MayMove(c, s, i, pc) && r.held == s.rec.held
    requires s' == WithPc(s.(rec := r), i, pc)
    ensures CycleOk(c, s')
  {
    hide CycleOk;
    WithPcIsMove(s, r, i, pc);
    MoveKeeps(c, s, i, pc, s');
  }

  lemma PcKeeps(c: Config, s: State, i: nat, pc: Pc, s': State)
    requires i < 2 && CycleOk(c, s) && MayMove(c, s, i, pc) && s' == WithPc(s, i, pc)
    ensures CycleOk(c, s')
  {
    hide CycleOk;
    assert s.(rec := s.rec) == s;
    RecordKeeps(c, s, s.rec, i, pc, s');
  }

  // ---------------------------------------------------------------- one channel changes

  function Other(ch: Channel): Channel {
    if ch.Rx? then Tx else Rx
  }

  /** Worker `i` has gone on to `pc`, and besides only state and pool of channel `ch` may have changed. */
  predicate OnlyChannel(s: State, i: nat, ch: Channel, pc: Pc, s': State)
    requires i < 2
  {
    && Wk(s', i) == Wk(s, i).(pc := pc) && Wk(s', 1 - i) == Wk(s, 1 - i)
    && Chan(s', Other(ch)) == Chan(s, Other(ch)) && Pool(s', Other(ch)) == Pool(s, Other(ch))
    && s'.mode == s.mode && s'.rxAt == s.rxAt && s'.txAt == s.txAt
  }

  predicate ChannelOkWith(s: State, q: seq<Job>, ch: Channel, st: InitState, pool: bool, role: Role) {
    ChannelOk(st, pool, s.mode, At(s, ch), Count(q, KStart(ch)), Count(q, KFinish(ch)), Count(q, KWork(ch)), role)
  }

  lemma ChannelChanged(c: Config, s: State, i: nat, ch: Channel, pc: Pc, s': State)
    requires i < 2 && ChannelsOk(c, s) && Serves(c, i, ch) && OnlyChannel(s, i, ch, pc, s')
    requires RoleOf(Wk(s, i).pc, Other(ch)) == Away == RoleOf(pc, Other(ch))
    requires ChannelOkWith(s, Wk(s, i).queue, ch, Chan(s', ch), Pool(s', ch), RoleOf(pc, ch))
    requires if ch.Rx? then RxChainOk(s'.rx, Count(s.w0.queue, KWork(Rx)), OwesRx(pc), InRxBody(pc))
             else OwesRx(pc) == OwesRx(Wk(s, i).pc) && InRxBody(pc) == InRxBody(Wk(s, i).pc)
    ensures ChannelsOk(c, s')
  {
  }

  lemma OwnChannelOk(c: Config, s: State, i: nat, ch: Channel)
    requires i < 2 && ChannelsOk(c, s) && Serves(c, i, ch)
    ensures ChannelOkWith(s, Wk(s, i).queue, ch, Chan(s, ch), Pool(s, ch), RoleOf(Wk(s, i).pc, ch))
  {
  }

  /** The end of a completion check may go on to its next step or end. */
  lemma TailMayMove(c: Config, s: State, i: nat, pc: Pc)
    requires i < 2 && WorkerOk(c, s, i)
    requires
      match Wk(s, i).pc
      case Start(stage, ch) => (stage.SetUp? || stage.TellUp?) && (pc.Ready? || pc == Start(TellUp, ch))
      case Finish(stage, ch) => (stage.SetDown? || stage.TellDown?) && (pc.Ready? || pc == Finish(TellDown, ch))
      case _ => false
    requires CompletionOk(c, s.mode, s.stream, s.rx, s.tx, pc)
    ensures MayMove(c, s, i, pc)
  {
  }

  // ---------------------------------------------------------------- starter_f

  /** What ChannelsOk says about the channel that a starter serves. */
  predicate StartFits(c: Config, s: State, i: nat, stage: StartStage, ch: Channel) {
    && Serves(c, i, ch)
    && (if stage.Create? || stage.Publish? then
          Chan(s, ch).Initializing? && !(s.mode.Starting? && At(s, ch).Pending?)
        else Live(Chan(s, ch)))
    && (stage.PostRx? ==> ch.Rx?)
  }

  lemma StartFacts(c: Config, s: State, i: nat, stage: StartStage, ch: Channel)
    requires i < 2 && Wk(s, i).pc == Start(stage, ch) && CycleOk(c, s)
    ensures StartFits(c, s, i, stage, ch)
    ensures stage.Create? && ch.Rx? ==> forall k :: 0 <= k < |Wk(s, i).queue| ==> !Wk(s, i).queue[k].RxF?
  {
    CountZero(s.w0.queue, KWork(Rx));
  }

  /** A queue without rx_f is in place whatever the rx pool. */
  lemma PlacedForAnyPool(c: Config, gen: nat, gen': nat, i: nat, q: seq<Job>)
    requires QueuePlaced(c, gen, i, q) && (i == 1 || forall k :: 0 <= k < |q| ==> !q[k].RxF?)
    ensures QueuePlaced(c, gen', i, q)
  {
    forall k | 0 <= k < |q| ensures JobPlaced(c, gen', i, q[k]) {
      assert JobPlaced(c, gen, i, q[k]);
    }
  }

  lemma CreateFrame(c: Config, s: State, i: nat, ch: Channel, s': State)
    requires i < 2 && Wk(s, i).pc == Start(Create, ch) && s' == StartStep(c, s, i, Create, ch)
    ensures OnlyChannel(s, i, ch, Start(Publish, ch), s') && GlobalsAlike(s, s') && Pool(s', ch)
    ensures ch.Tx? ==> s'.rxGen == s.rxGen
  {
  }

  lemma CreateKeepsChannels(c: Config, s: State, i: nat, ch: Channel, s': State)
    requires i < 2 && ChannelsOk(c, s) && Serves(c, i, ch) && Wk(s, i).pc == Start(Create, ch)
    requires OnlyChannel(s, i, ch, Start(Publish, ch), s') && Chan(s', ch) == Chan(s, ch) && Pool(s', ch)
    ensures ChannelsOk(c, s')
  {
    OwnChannelOk(c, s, i, ch);
    ChannelChanged(c, s, i, ch, Start(Publish, ch), s');
  }

  lemma CreateKeepsWorkers(c: Config, s: State, i: nat, ch: Channel, s': State)
    requires i < 2 && WorkerOk(c, s, 0) && WorkerOk(c, s, 1) && Wk(s, i).pc == Start(Create, ch)
    requires OnlyChannel(s, i, ch, Start(Publish, ch), s') && GlobalsAlike(s, s') && (ch.Tx? ==> s'.rxGen == s.rxGen)
    requires ch.Rx? ==> forall k :: 0 <= k < |Wk(s, i).queue| ==> !Wk(s, i).queue[k].RxF?
    ensures WorkerOk(c, s', 0) && WorkerOk(c, s', 1)
  {
    if ch.Rx? {
      PlacedForAnyPool(c, s.rxGen, s'.rxGen, 0, s.w0.queue);
      PlacedForAnyPool(c, s.rxGen, s'.rxGen, 1, s.w1.queue);
    }
    assert WorkerOk(c, s', i) && WorkerOk(c, s', 1 - i);
  }

  lemma CreateKeeps(c: Config, s: State, i: nat, ch: Channel)
    requires i < 2 && CycleOk(c, s) && Wk(s, i).pc == Start(Create, ch)
    ensures CycleOk(c, StartStep(c, s, i, Create, ch))
  {
    hide WorkerOk, ChannelsOk, GlobalOk;
    var s' := StartStep(c, s, i, Create, ch);
    StartFacts(c, s, i, Create, ch);
    CreateFrame(c, s, i, ch, s');
    CreateKeepsChannels(c, s, i, ch, s');
    CreateKeepsWorkers(c, s, i, ch, s');
    GlobalsKeep(c, s, s');
  }

  /** A channel that comes up takes nothing from what is known about the others. */
  lemma PublishKeepsGlobal(c: Config, s: State, ch: Channel, s': State)
    requires GlobalOk(c, s) && On(c, ch) && Chan(s, ch).Initializing? && !(s.mode.Starting? && At(s, ch).Pending?)
    requires GlobalsAlike(s.(rx := s'.rx, tx := s'.tx), s')
    requires Chan(s', ch).Initialized? && Chan(s', Other(ch)) == Chan(s, Other(ch))
    ensures GlobalOk(c, s')
  {
  }

  lemma PublishKeepsWorker(c: Config, s: State, ch: Channel, s': State, j: nat)
    requires j < 2 && WorkerOk(c, s, j) && GlobalOk(c, s) && On(c, ch) && Chan(s, ch).Initializing?
    requires GlobalsAlike(s.(rx := s'.rx, tx := s'.tx), s') && s'.rxGen == s.rxGen && Wk(s', j) == Wk(s, j)
    requires Chan(s', ch).Initialized? && Chan(s', Other(ch)) == Chan(s, Other(ch))
    ensures WorkerOk(c, s', j)
  {
  }

  lemma PublishKeepsOwnWorker(c: Config, s: State, i: nat, ch: Channel, s': State)
    requires i < 2 && WorkerOk(c, s, i) && Wk(s, i).pc == Start(Publish, ch)
    requires Wk(s', i) == Wk(s, i).(pc := Start(if ch.Rx? then PostRx else SeeRx, ch)) && s'.rxGen == s.rxGen
    ensures WorkerOk(c, s', i)
  {
  }

  lemma PublishFrame(c: Config, s: State, i: nat, ch: Channel, s': State)
    requires i < 2 && Wk(s, i).pc == Start(Publish, ch) && s' == StartStep(c, s, i, Publish, ch)
    ensures OnlyChannel(s, i, ch, Start(if ch.Rx? then PostRx else SeeRx, ch), s')
    ensures GlobalsAlike(s.(rx := s'.rx, tx := s'.tx), s') && s'.rxGen == s.rxGen
    ensures Chan(s', ch).Initialized? && Pool(s', ch) == Pool(s, ch)
  {
  }

  lemma PublishKeepsChannels(c: Config, s: State, i: nat, ch: Channel, s': State)
    requires i < 2 && ChannelsOk(c, s) && Serves(c, i, ch) && Wk(s, i).pc == Start(Publish, ch)
    requires OnlyChannel(s, i, ch, Start(if ch.Rx? then PostRx else SeeRx, ch), s')
    requires Chan(s', ch).Initialized? && Pool(s', ch) == Pool(s, ch)
    ensures ChannelsOk(c, s')
  {
    OwnChannelOk(c, s, i, ch);
    ChannelChanged(c, s, i, ch, Start(if ch.Rx? then PostRx else SeeRx, ch), s');
  }

  lemma PublishKeeps(c: Config, s: State, i: nat, ch: Channel)
    requires i < 2 && CycleOk(c, s) && Wk(s, i).pc == Start(Publish, ch)
    ensures CycleOk(c, StartStep(c, s, i, Publish, ch))
  {
    hide WorkerOk, ChannelsOk, GlobalOk;
    var s' := StartStep(c, s, i, Publish, ch);
    StartFacts(c, s, i, Publish, ch);
    PublishFrame(c, s, i, ch, s');
    PublishKeepsChannels(c, s, i, ch, s');
    PublishKeepsGlobal(c, s, ch, s');
    PublishKeepsWorker(c, s, ch, s', 1 - i);
    PublishKeepsOwnWorker(c, s, i, ch, s');
  }

  /** The stream is opened by a starter that has found all channels up. */
  lemma OpeningGlobal(c: Config, s: State, i: nat, ch: Channel, s': State)
    requires i < 2 && GlobalOk(c, s) && Wk(s, i).pc == Start(SetUp, ch) && StartFits(c, s, i, SetUp, ch)
    requires CompletionOk(c, s.mode, s.stream, s.rx, s.tx, Start(SetUp, ch)) && s' == s.(stream := Initialized)
    ensures GlobalOk(c, s')
  {
  }

  lemma OpeningWorker(c: Config, s: State, i: nat, ch: Channel, s': State, j: nat)
    requires i < 2 && j < 2 && GlobalOk(c, s) && WorkerOk(c, s, j)
    requires Wk(s, i).pc == Start(SetUp, ch) && StartFits(c, s, i, SetUp, ch)
    requires CompletionOk(c, s.mode, s.stream, s.rx, s.tx, Start(SetUp, ch)) && s' == s.(stream := Initialized)
    ensures WorkerOk(c, s', j)
  {
  }

  lemma OpeningKeeps(c: Config, s: State, i: nat, ch: Channel, s': State)
    requires i < 2 && CycleOk(c, s) && Wk(s, i).pc == Start(SetUp, ch) && s' == s.(stream := Initialized)
    ensures CycleOk(c, s') && CompletionOk(c, s.mode, Initialized, s.rx, s.tx, Start(TellUp, ch))
  {
    hide GlobalOk;
    StartFacts(c, s, i, SetUp, ch);
    OpeningGlobal(c, s, i, ch, s');
    OpeningWorker(c, s, i, ch, s', 0);
    OpeningWorker(c, s, i, ch, s', 1);
    assert ChannelsOk(c, s');
  }

  lemma TellingUpKeeps(c: Config, s: State, i: nat, ch: Channel, s': State)
    requires i < 2 && CycleOk(c, s) && Wk(s, i).pc == Start(TellUp, ch) && s' == s.(startedFlag := true)
    ensures CycleOk(c, s')
  {
  }

  /** Queueing an rx_f: allowed to a worker that owes one, which then goes on to `pc`. */
  lemma PostRxKeepsChannels(c: Config, s: State, pc: Pc, s': State)
    requires ChannelsOk(c, s) && Live(s.rx) && OwesRx(s.w0.pc) && !OwesRx(pc)
    requires RoleOf(pc, Rx) == RoleOf(s.w0.pc, Rx) && RoleOf(pc, Tx) == Away == RoleOf(s.w0.pc, Tx)
    requires s' == s.(w0 := Worker(s.w0.queue + [RxF(s.rxGen)], pc, s.w0.call))
    ensures ChannelsOk(c, s')
    ensures Count(s.w0.queue, KStart(Rx)) == 0
  {
    Appended(s.w0.queue, RxF(s.rxGen));
  }

  lemma PostRxKeepsWorkers(c: Config, s: State, pc: Pc, s': State)
    requires WorkerOk(c, s, 0) && WorkerOk(c, s, 1) && Serves(c, 0, Rx) && Count(s.w0.queue, KStart(Rx)) == 0
    requires PcPlaced(c, s.rxGen, 0, pc) && s.w0.call.NoCall? && (pc.Start? ==> pc.sst.SeeRx?) && !pc.Finish?
    requires s' == s.(w0 := Worker(s.w0.queue + [RxF(s.rxGen)], pc, s.w0.call))
    ensures WorkerOk(c, s', 0) && WorkerOk(c, s', 1)
  {
    AppendedPlaced(c, s.rxGen, 0, s.w0.queue, RxF(s.rxGen));
  }

  lemma PostRxKeeps(c: Config, s: State, pc: Pc)
    requires CycleOk(c, s) && c.rxOn && Live(s.rx) && OwesRx(s.w0.pc)
    requires PcPlaced(c, s.rxGen, 0, pc) && !OwesRx(pc) && RoleOf(pc, Rx) == RoleOf(s.w0.pc, Rx)
    requires RoleOf(pc, Tx) == Away == RoleOf(s.w0.pc, Tx)
    requires s.w0.call.NoCall? && (pc.Start? ==> pc.sst.SeeRx?) && !pc.Finish?
    ensures CycleOk(c, WithPc(Post(c, s, Rx, RxF(s.rxGen)), 0, pc))
  {
    hide WorkerOk, ChannelsOk, GlobalOk;
    var s' := s.(w0 := Worker(s.w0.queue + [RxF(s.rxGen)], pc, s.w0.call));
    assert WithPc(Post(c, s, Rx, RxF(s.rxGen)), 0, pc) == s';
    PostRxKeepsChannels(c, s, pc, s');
    PostRxKeepsWorkers(c, s, pc, s');
    GlobalsKeep(c, s, s');
  }

  lemma SeeRxMay(c: Config, s: State, i: nat, ch: Channel)
    requires i < 2 && WorkerOk(c, s, i) && Wk(s, i).pc == Start(SeeRx, ch)
    ensures MayMove(c, s, i, if !c.rxOn || s.rx.Initialized? then Start(SeeTx, ch) else Ready)
  {
  }

  lemma SeeRxKeeps(c: Config, s: State, i: nat, ch: Channel)
    requires i < 2 && CycleOk(c, s) && Wk(s, i).pc == Start(SeeRx, ch)
    ensures CycleOk(c, StartStep(c, s, i, SeeRx, ch))
  {
    hide GlobalOk;
    var pc := if !c.rxOn || s.rx.Initialized? then Start(SeeTx, ch) else Ready;
    SeeRxMay(c, s, i, ch);
    PcKeeps(c, s, i, pc, WithPc(s, i, pc));
  }

  lemma SeeTxMay(c: Config, s: State, i: nat, ch: Channel)
    requires i < 2 && WorkerOk(c, s, i) && Wk(s, i).pc == Start(SeeTx, ch)
    ensures MayMove(c, s, i, if !c.txOn || s.tx.Initialized? then Start(SetUp, ch) else Ready)
  {
  }

  lemma SeeTxKeeps(c: Config, s: State, i: nat, ch: Channel)
    requires i < 2 && CycleOk(c, s) && Wk(s, i).pc == Start(SeeTx, ch)
    ensures CycleOk(c, StartStep(c, s, i, SeeTx, ch))
  {
    hide GlobalOk;
    var pc := if !c.txOn || s.tx.Initialized? then Start(SetUp, ch) else Ready;
    SeeTxMay(c, s, i, ch);
    PcKeeps(c, s, i, pc, WithPc(s, i, pc));
  }

  lemma SetUpKeeps(c: Config, s: State, i: nat, ch: Channel)
    requires i < 2 && CycleOk(c, s) && Wk(s, i).pc == Start(SetUp, ch)
    ensures CycleOk(c, StartStep(c, s, i, SetUp, ch))
  {
    hide ChannelsOk, GlobalOk;
    var s1 := s.(stream := Initialized);
    OpeningKeeps(c, s, i, ch, s1);
    TailMayMove(c, s1, i, Start(TellUp, ch));
    PcKeeps(c, s1, i, Start(TellUp, ch), WithPc(s1, i, Start(TellUp, ch)));
  }

  lemma TellUpKeeps(c: Config, s: State, i: nat, ch: Channel)
    requires i < 2 && CycleOk(c, s) && Wk(s, i).pc == Start(TellUp, ch)
    ensures CycleOk(c, StartStep(c, s, i, TellUp, ch))
  {
    hide ChannelsOk, GlobalOk;
    var s1 := s.(startedFlag := true);
    TellingUpKeeps(c, s, i, ch, s1);
    TailMayMove(c, s1, i, Ready);
    PcKeeps(c, s1, i, Ready, WithPc(s1, i, Ready));
  }

  lemma PostRxStageKeeps(c: Config, s: State, i: nat, ch: Channel)
    requires i < 2 && CycleOk(c, s) && Wk(s, i).pc == Start(PostRx, ch)
    ensures CycleOk(c, StartStep(c, s, i, PostRx, ch))
  {
    StartFacts(c, s, i, PostRx, ch);
    PostRxKeeps(c, s, Start(SeeRx, Rx));
  }

  lemma StartKeeps(c: Config, s: State, i: nat, stage: StartStage, ch: Channel)
    requires i < 2 && CycleOk(c, s) && Wk(s, i).pc == Start(stage, ch)
    ensures CycleOk(c, StartStep(c, s, i, stage, ch))
  {
    hide CycleOk;
    match stage
    case Create => CreateKeeps(c, s, i, ch);
    case Publish => PublishKeeps(c, s, i, ch);
    case PostRx => PostRxStageKeeps(c, s, i, ch);
    case SeeRx => SeeRxKeeps(c, s, i, ch);
    case SeeTx => SeeTxKeeps(c, s, i, ch);
    case SetUp => SetUpKeeps(c, s, i, ch);
    case TellUp => TellUpKeeps(c, s, i, ch);
  }

  // ---------------------------------------------------------------- finisher_f

  predicate FinishFits(c: Config, s: State, i: nat, stage: FinishStage, ch: Channel) {
    && Serves(c, i, ch)
    && (if stage.FinishCas? then Chan(s, ch).Uninitializing? && !(s.mode.Stopping? && At(s, ch).Pending?)
        else !Live(Chan(s, ch)))
  }

  lemma FinishFacts(c: Config, s: State, i: nat, stage: FinishStage, ch: Channel)
    requires i < 2 && Wk(s, i).pc == Finish(stage, ch) && CycleOk(c, s)
    ensures FinishFits(c, s, i, stage, ch)
  {
  }

  /** A channel that goes down takes nothing from what is known about the others. */
  lemma GiveUpKeepsGlobal(c: Config, s: State, ch: Channel, s': State)
    requires GlobalOk(c, s) && On(c, ch) && Chan(s, ch).Uninitializing? && !(s.mode.Stopping? && At(s, ch).Pending?)
    requires GlobalsAlike(s.(rx := s'.rx, tx := s'.tx), s')
    requires Chan(s', ch).Uninitialized? && Chan(s', Other(ch)) == Chan(s, Other(ch))
    ensures GlobalOk(c, s')
  {
  }

  lemma GiveUpKeepsWorker(c: Config, s: State, i: nat, ch: Channel, s': State, j: nat)
    requires i < 2 && j == 1 - i && WorkerOk(c, s, j) && GlobalOk(c, s) && Serves(c, i, ch)
    requires Chan(s, ch).Uninitializing?
    requires GlobalsAlike(s.(rx := s'.rx, tx := s'.tx), s') && s'.rxGen == s.rxGen && Wk(s', j) == Wk(s, j)
    requires Chan(s', ch).Uninitialized? && Chan(s', Other(ch)) == Chan(s, Other(ch))
    ensures WorkerOk(c, s', j)
  {
  }

  lemma GiveUpFrame(c: Config, s: State, i: nat, ch: Channel, s': State)
    requires i < 2 && Wk(s, i).pc == Finish(FinishCas, ch) && Chan(s, ch).Uninitializing?
    requires s' == FinishStep(c, s, i, FinishCas, ch)
    ensures OnlyChannel(s, i, ch, Finish(Destroy, ch), s')
    ensures GlobalsAlike(s.(rx := s'.rx, tx := s'.tx), s') && s'.rxGen == s.rxGen
    ensures Chan(s', ch).Uninitialized? && Pool(s', ch) == Pool(s, ch)
  {
  }

  lemma GiveUpKeepsChannels(c: Config, s: State, i: nat, ch: Channel, s': State)
    requires i < 2 && ChannelsOk(c, s) && Serves(c, i, ch) && Wk(s, i).pc == Finish(FinishCas, ch)
    requires OnlyChannel(s, i, ch, Finish(Destroy, ch), s')
    requires Chan(s', ch).Uninitialized? && Pool(s', ch) == Pool(s, ch)
    ensures ChannelsOk(c, s')
  {
    OwnChannelOk(c, s, i, ch);
    ChannelChanged(c, s, i, ch, Finish(Destroy, ch), s');
  }

  lemma GiveUpKeepsOwnWorker(c: Config, s: State, i: nat, ch: Channel, s': State)
    requires i < 2 && WorkerOk(c, s, i) && Wk(s, i).pc == Finish(FinishCas, ch)
    requires Wk(s', i) == Wk(s, i).(pc := Finish(Destroy, ch)) && s'.rxGen == s.rxGen
    ensures WorkerOk(c, s', i)
  {
  }

  lemma GiveUpKeepsAll(c: Config, s: State, i: nat, ch: Channel, s': State)
    requires i < 2 && CycleOk(c, s) && Wk(s, i).pc == Finish(FinishCas, ch) && FinishFits(c, s, i, FinishCas, ch)
    requires OnlyChannel(s, i, ch, Finish(Destroy, ch), s')
    requires GlobalsAlike(s.(rx := s'.rx, tx := s'.tx), s') && s'.rxGen == s.rxGen
    requires Chan(s', ch).Uninitialized? && Pool(s', ch) == Pool(s, ch)
    ensures CycleOk(c, s')
  {
    hide WorkerOk, ChannelsOk, GlobalOk;
    GiveUpKeepsChannels(c, s, i, ch, s');
    GiveUpKeepsGlobal(c, s, ch, s');
    GiveUpKeepsWorker(c, s, i, ch, s', 1 - i);
    GiveUpKeepsOwnWorker(c, s, i, ch, s');
  }

  lemma GiveUpKeeps(c: Config, s: State, i: nat, ch: Channel)
    requires i < 2 && CycleOk(c, s) && Wk(s, i).pc == Finish(FinishCas, ch)
    ensures CycleOk(c, FinishStep(c, s, i, FinishCas, ch))
  {
    hide CycleOk;
    FinishFacts(c, s, i, FinishCas, ch);
    GiveUpFrame(c, s, i, ch, FinishStep(c, s, i, FinishCas, ch));
    GiveUpKeepsAll(c, s, i, ch, FinishStep(c, s, i, FinishCas, ch));
  }

  lemma DestroyFrame(c: Config, s: State, i: nat, ch: Channel, s': State)
    requires i < 2 && Wk(s, i).pc == Finish(Destroy, ch) && s' == FinishStep(c, s, i, Destroy, ch)
    ensures OnlyChannel(s, i, ch, Finish(CheckRx, ch), s') && GlobalsAlike(s, s')
    ensures s'.rxGen == s.rxGen && !Pool(s', ch)
  {
  }

  lemma DestroyKeepsChannels(c: Config, s: State, i: nat, ch: Channel, s': State)
    requires i < 2 && ChannelsOk(c, s) && Serves(c, i, ch) && Wk(s, i).pc == Finish(Destroy, ch)
    requires OnlyChannel(s, i, ch, Finish(CheckRx, ch), s') && Chan(s', ch) == Chan(s, ch) && !Pool(s', ch)
    ensures ChannelsOk(c, s')
  {
    OwnChannelOk(c, s, i, ch);
    ChannelChanged(c, s, i, ch, Finish(CheckRx, ch), s');
  }

  lemma DestroyKeepsAll(c: Config, s: State, i: nat, ch: Channel, s': State)
    requires i < 2 && CycleOk(c, s) && Wk(s, i).pc == Finish(Destroy, ch) && Serves(c, i, ch)
    requires OnlyChannel(s, i, ch, Finish(CheckRx, ch), s') && GlobalsAlike(s, s')
    requires s'.rxGen == s.rxGen && !Pool(s', ch)
    ensures CycleOk(c, s')
  {
    hide ChannelsOk, GlobalOk;
    DestroyKeepsChannels(c, s, i, ch, s');
    WorkersMove(c, s, i, Finish(CheckRx, ch), s');
    GlobalsKeep(c, s, s');
  }

  lemma DestroyKeeps(c: Config, s: State, i: nat, ch: Channel)
    requires i < 2 && CycleOk(c, s) && Wk(s, i).pc == Finish(Destroy, ch)
    ensures CycleOk(c, FinishStep(c, s, i, Destroy, ch))
  {
    hide CycleOk;
    FinishFacts(c, s, i, Destroy, ch);
    DestroyFrame(c, s, i, ch, FinishStep(c, s, i, Destroy, ch));
    DestroyKeepsAll(c, s, i, ch, FinishStep(c, s, i, Destroy, ch));
  }

  /** The stream is closed by a finisher that has found both channels down. */
  lemma ClosingGlobal(c: Config, s: State, i: nat, ch: Channel, s': State)
    requires i < 2 && GlobalOk(c, s) && Wk(s, i).pc == Finish(SetDown, ch) && FinishFits(c, s, i, SetDown, ch)
    requires CompletionOk(c, s.mode, s.stream, s.rx, s.tx, Finish(SetDown, ch)) && s' == s.(stream := Uninitialized)
    ensures GlobalOk(c, s')
  {
  }

  lemma ClosingWorker(c: Config, s: State, i: nat, ch: Channel, s': State, j: nat)
    requires i < 2 && j < 2 && GlobalOk(c, s) && WorkerOk(c, s, j)
    requires Wk(s, i).pc == Finish(SetDown, ch) && FinishFits(c, s, i, SetDown, ch)
    requires CompletionOk(c, s.mode, s.stream, s.rx, s.tx, Finish(SetDown, ch)) && s' == s.(stream := Uninitialized)
    ensures WorkerOk(c, s', j)
  {
  }

  lemma ClosingKeeps(c: Config, s: State, i: nat, ch: Channel, s': State)
    requires i < 2 && CycleOk(c, s) && Wk(s, i).pc == Finish(SetDown, ch) && s' == s.(stream := Uninitialized)
    ensures CycleOk(c, s') && CompletionOk(c, s.mode, Uninitialized, s.rx, s.tx, Finish(TellDown, ch))
  {
    hide GlobalOk;
    FinishFacts(c, s, i, SetDown, ch);
    ClosingGlobal(c, s, i, ch, s');
    ClosingWorker(c, s, i, ch, s', 0);
    ClosingWorker(c, s, i, ch, s', 1);
    assert ChannelsOk(c, s');
  }

  lemma TellingDownKeeps(c: Config, s: State, i: nat, ch: Channel, s': State)
    requires i < 2 && CycleOk(c, s) && Wk(s, i).pc == Finish(TellDown, ch) && s' == s.(stoppedFlag := true)
    ensures CycleOk(c, s')
  {
  }

  lemma CheckRxMay(c: Config, s: State, i: nat, ch: Channel)
    requires i < 2 && WorkerOk(c, s, i) && Wk(s, i).pc == Finish(CheckRx, ch)
    ensures MayMove(c, s, i, if s.rx.Uninitialized? then Finish(CheckTx, ch) else Ready)
  {
  }

  lemma CheckRxKeeps(c: Config, s: State, i: nat, ch: Channel)
    requires i < 2 && CycleOk(c, s) && Wk(s, i).pc == Finish(CheckRx, ch)
    ensures CycleOk(c, FinishStep(c, s, i, CheckRx, ch))
  {
    hide GlobalOk;
    var pc := if s.rx.Uninitialized? then Finish(CheckTx, ch) else Ready;
    CheckRxMay(c, s, i, ch);
    PcKeeps(c, s, i, pc, WithPc(s, i, pc));
  }

  lemma CheckTxMay(c: Config, s: State, i: nat, ch: Channel)
    requires i < 2 && WorkerOk(c, s, i) && Wk(s, i).pc == Finish(CheckTx, ch)
    ensures MayMove(c, s, i, if s.tx.Uninitialized? then Finish(SetDown, ch) else Ready)
  {
  }

  lemma CheckTxKeeps(c: Config, s: State, i: nat, ch: Channel)
    requires i < 2 && CycleOk(c, s) && Wk(s, i).pc == Finish(CheckTx, ch)
    ensures CycleOk(c, FinishStep(c, s, i, CheckTx, ch))
  {
    hide GlobalOk;
    var pc := if s.tx.Uninitialized? then Finish(SetDown, ch) else Ready;
    CheckTxMay(c, s, i, ch);
    PcKeeps(c, s, i, pc, WithPc(s, i, pc));
  }

  lemma SetDownKeeps(c: Config, s: State, i: nat, ch: Channel)
    requires i < 2 && CycleOk(c, s) && Wk(s, i).pc == Finish(SetDown, ch)
    ensures CycleOk(c, FinishStep(c, s, i, SetDown, ch))
  {
    hide ChannelsOk, GlobalOk;
    var s1 := s.(stream := Uninitialized);
    ClosingKeeps(c, s, i, ch, s1);
    TailMayMove(c, s1, i, Finish(TellDown, ch));
    PcKeeps(c, s1, i, Finish(TellDown, ch), WithPc(s1, i, Finish(TellDown, ch)));
  }

  lemma TellDownKeeps(c: Config, s: State, i: nat, ch: Channel)
    requires i < 2 && CycleOk(c, s) && Wk(s, i).pc == Finish(TellDown, ch)
    ensures CycleOk(c, FinishStep(c, s, i, TellDown, ch))
  {
    hide ChannelsOk, GlobalOk;
    var s1 := s.(stoppedFlag := true);
    TellingDownKeeps(c, s, i, ch, s1);
    TailMayMove(c, s1, i, Ready);
    PcKeeps(c, s1, i, Ready, WithPc(s1, i, Ready));
  }

  lemma FinishKeeps(c: Config, s: State, i: nat, stage: FinishStage, ch: Channel)
    requires i < 2 && CycleOk(c, s) && Wk(s, i).pc == Finish(stage, ch)
    ensures CycleOk(c, FinishStep(c, s, i, stage, ch))
  {
    hide CycleOk;
    match stage
    case FinishCas => GiveUpKeeps(c, s, i, ch);
    case Destroy => DestroyKeeps(c, s, i, ch);
    case CheckRx => CheckRxKeeps(c, s, i, ch);
    case CheckTx => CheckTxKeeps(c, s, i, ch);
    case SetDown => SetDownKeeps(c, s, i, ch);
    case TellDown => TellDownKeeps(c, s, i, ch);
  }

  // ---------------------------------------------------------------- rx_f and tx_f

  /** The first test of rx_f. */
  lemma RxLoadKeeps(c: Config, s: State, i: nat, gen: nat)
    requires i < 2 && CycleOk(c, s) && Wk(s, i).pc == RunRx(RxLoad, gen)
    ensures CycleOk(c, RxStep(c, s, i, RxLoad, gen, Go).value)
  {
    hide GlobalOk;
    PcKeeps(c, s, i, if s.rx.Initialized? then RunRx(RxAlloc, gen) else Ready, RxStep(c, s, i, RxLoad, gen, Go).value);
  }

  /** Outside its callback rx_f is in no token call. */
  lemma NoCallOutside(c: Config, s: State, i: nat)
    requires i < 2 && CycleOk(c, s) && Wk(s, i).pc.RunRx? && !Wk(s, i).pc.rst.RxCallback?
    ensures Wk(s, i).call.NoCall?
  {
  }

  /** Past its first test rx_f runs only while rx is not down. */
  lemma BodyIsLive(c: Config, s: State, i: nat)
    requires i < 2 && CycleOk(c, s) && InRxBody(Wk(s, i).pc)
    ensures PcPlaced(c, s.rxGen, i, Wk(s, i).pc) && Live(s.rx)
  {
    hide GlobalOk, QueuePlaced;
  }

  lemma RxBodyMay(c: Config, s: State, i: nat, stage: RxStage, stage': RxStage, gen: nat)
    requires i < 2 && PcPlaced(c, s.rxGen, i, Wk(s, i).pc) && Live(s.rx) && Wk(s, i).call.NoCall?
    requires Wk(s, i).pc == RunRx(stage, gen) && !stage.RxFree? && !stage'.RxLoad? && !stage'.RxFree?
    ensures MayMove(c, s, i, RunRx(stage', gen))
  {
  }

  /** Steps from one stage of rx_f's body to another, none of which reposts. */
  lemma RxBodyKeeps(c: Config, s: State, r: Records, i: nat, stage: RxStage, stage': RxStage, gen: nat, s': State)
    requires i < 2 && CycleOk(c, s) && Wk(s, i).pc == RunRx(stage, gen) && Wk(s, i).call.NoCall?
    requires !stage.RxLoad? && !stage.RxFree? && !stage'.RxLoad? && !stage'.RxFree? && r.held == s.rec.held
    requires s' == WithPc(s.(rec := r), i, RunRx(stage', gen))
    ensures CycleOk(c, s')
  {
    hide CycleOk, MayMove, PcPlaced, Live;
    BodyIsLive(c, s, i);
    RxBodyMay(c, s, i, stage, stage', gen);
    RecordKeeps(c, s, r, i, RunRx(stage', gen), s');
  }

  lemma RxAllocKeeps(c: Config, s: State, i: nat, gen: nat, choice: Choice, s': State)
    requires i < 2 && CycleOk(c, s) && Wk(s, i).pc == RunRx(RxAlloc, gen)
    requires RxStep(c, s, i, RxAlloc, gen, choice) == Some(s')
    ensures CycleOk(c, s')
  {
    hide CycleOk, WithPc;
    NoCallOutside(c, s, i);
    if choice.NoBuffer? {
      assert s.(rec := s.rec) == s;
      RxBodyKeeps(c, s, s.rec, i, RxAlloc, RxRepostEmpty, gen, s');
    } else if choice.ReadNothing? {
      RxBodyKeeps(c, s, s.rec.(taken := s.rec.taken + 1), i, RxAlloc, RxRepost, gen, s');
    } else {
      RxBodyKeeps(c, s, s.rec.(taken := s.rec.taken + 1, found := s.rec.found + [choice.data]), i, RxAlloc,
                  RxCallback(choice.data), gen, s');
    }
  }

  lemma RxReturnKeeps(c: Config, s: State, i: nat, data: nat, gen: nat, s': State)
    requires i < 2 && CycleOk(c, s) && Wk(s, i).pc == RunRx(RxCallback(data), gen)
    requires RxStep(c, s, i, RxCallback(data), gen, Return) == Some(s')
    ensures CycleOk(c, s')
  {
    hide CycleOk, WithPc;
    RxBodyKeeps(c, s, s.rec.(delivered := s.rec.delivered + [data]), i, RxCallback(data), RxRepost, gen, s');
  }

  lemma RxFreeKeeps(c: Config, s: State, i: nat, gen: nat)
    requires i < 2 && CycleOk(c, s) && Wk(s, i).pc == RunRx(RxFree, gen)
    ensures CycleOk(c, RxStep(c, s, i, RxFree, gen, Go).value)
  {
    hide GlobalOk;
    RecordKeeps(c, s, s.rec.(freed := s.rec.freed + 1), i, Ready, RxStep(c, s, i, RxFree, gen, Go).value);
  }

  lemma RxRepostKeeps(c: Config, s: State, i: nat, gen: nat)
    requires i < 2 && CycleOk(c, s) && Wk(s, i).pc == RunRx(RxRepost, gen)
    ensures CycleOk(c, WithPc(Post(c, s, Rx, RxF(s.rxGen)), i, RunRx(RxFree, gen)))
  {
    NoCallOutside(c, s, i);
    PostRxKeeps(c, s, RunRx(RxFree, gen));
  }

  lemma RxRepostEmptyKeeps(c: Config, s: State, i: nat, gen: nat)
    requires i < 2 && CycleOk(c, s) && Wk(s, i).pc == RunRx(RxRepostEmpty, gen)
    ensures CycleOk(c, WithPc(Post(c, s, Rx, RxF(s.rxGen)), i, Ready))
  {
    NoCallOutside(c, s, i);
    PostRxKeeps(c, s, Ready);
  }

  lemma RxKeeps(c: Config, s: State, i: nat, stage: RxStage, gen: nat, choice: Choice)
    requires i < 2 && CycleOk(c, s) && Wk(s, i).pc == RunRx(stage, gen) && !choice.Client?
    requires RxStep(c, s, i, stage, gen, choice).Some?
    ensures CycleOk(c, RxStep(c, s, i, stage, gen, choice).value)
  {
    hide CycleOk;
    var s' := RxStep(c, s, i, stage, gen, choice).value;
    match stage
    case RxLoad => RxLoadKeeps(c, s, i, gen);
    case RxAlloc => RxAllocKeeps(c, s, i, gen, choice, s');
    case RxCallback(data) => RxReturnKeeps(c, s, i, data, gen, s');
    case RxRepost => RxRepostKeeps(c, s, i, gen);
    case RxRepostEmpty => RxRepostEmptyKeeps(c, s, i, gen);
    case RxFree => RxFreeKeeps(c, s, i, gen);
  }

  /** tx_f goes on inside its body or ends; the records may change. */
  lemma TxMoves(c: Config, s: State, r: Records, i: nat, stage: TxStage, req: Request, pc: Pc)
    requires i < 2 && CycleOk(c, s) && Wk(s, i).pc == RunTx(stage, req) && Wk(s, i).call.NoCall?
    requires ((pc.RunTx? && pc.req == req) || pc.Ready?) && r.held == s.rec.held
    ensures CycleOk(c, WithPc(s.(rec := r), i, pc))
  {
    hide GlobalOk;
    RecordKeeps(c, s, r, i, pc, WithPc(s.(rec := r), i, pc));
  }

  lemma TxNoCall(c: Config, s: State, i: nat)
    requires i < 2 && CycleOk(c, s) && Wk(s, i).pc.RunTx? && !Wk(s, i).pc.tst.TxCallback?
    ensures Wk(s, i).call.NoCall?
  {
  }

  lemma TxLoadKeeps(c: Config, s: State, i: nat, req: Request)
    requires i < 2 && CycleOk(c, s) && Wk(s, i).pc == RunTx(TxLoad, req)
    ensures CycleOk(c, TxStep(c, s, i, TxLoad, req, Go).value)
  {
    hide CycleOk;
    var pass := s.stream.Initialized?;
    TxNoCall(c, s, i);
    TxMoves(c, s, s.rec.(passed := if pass then s.rec.passed + {req.id} else s.rec.passed), i, TxLoad, req,
            RunTx(if pass then TxWrite else TxFree, req));
  }

  lemma TxWriteKeeps(c: Config, s: State, i: nat, req: Request)
    requires i < 2 && CycleOk(c, s) && Wk(s, i).pc == RunTx(TxWrite, req)
    ensures CycleOk(c, TxStep(c, s, i, TxWrite, req, Go).value)
  {
    hide CycleOk;
    TxNoCall(c, s, i);
    TxMoves(c, s, s.rec.(written := s.rec.written + [req.id],
                         fired := if req.hasFn then s.rec.fired + [req.id] else s.rec.fired), i, TxWrite, req,
            RunTx(if req.hasFn then TxCallback else TxFree, req));
  }

  lemma TxReturnKeeps(c: Config, s: State, i: nat, req: Request)
    requires i < 2 && CycleOk(c, s) && Wk(s, i).pc == RunTx(TxCallback, req) && Wk(s, i).call.NoCall?
    ensures CycleOk(c, TxStep(c, s, i, TxCallback, req, Return).value)
  {
    hide CycleOk;
    assert s.(rec := s.rec) == s;
    TxMoves(c, s, s.rec, i, TxCallback, req, RunTx(TxFree, req));
  }

  lemma TxFreeKeeps(c: Config, s: State, i: nat, req: Request)
    requires i < 2 && CycleOk(c, s) && Wk(s, i).pc == RunTx(TxFree, req)
    ensures CycleOk(c, TxStep(c, s, i, TxFree, req, Go).value)
  {
    hide CycleOk;
    TxNoCall(c, s, i);
    TxMoves(c, s, s.rec.(out := s.rec.out - {req.tok}, dropped := s.rec.dropped + [req.id]), i, TxFree, req, Ready);
  }

  lemma TxKeeps(c: Config, s: State, i: nat, stage: TxStage, req: Request, choice: Choice)
    requires i < 2 && CycleOk(c, s) && Wk(s, i).pc == RunTx(stage, req) && !choice.Client?
    requires TxStep(c, s, i, stage, req, choice).Some?
    ensures CycleOk(c, TxStep(c, s, i, stage, req, choice).value)
  {
    hide CycleOk;
    match stage
    case TxLoad => TxLoadKeeps(c, s, i, req);
    case TxWrite => TxWriteKeeps(c, s, i, req);
    case TxCallback => TxReturnKeeps(c, s, i, req);
    case TxFree => TxFreeKeeps(c, s, i, req);
  }

  // ---------------------------------------------------------------- fetching and foreign jobs

  lemma FetchKeepsChannel(ch: Channel, st: InitState, pool: bool, mode: Mode, at: Progress, q: seq<Job>)
    requires q != [] && NoWorkBehindStarter(q, ch)
    requires ChannelOk(st, pool, mode, at, Count(q, KStart(ch)), Count(q, KFinish(ch)), Count(q, KWork(ch)), Away)
    ensures ChannelOk(st, pool, mode, at, Count(q[1..], KStart(ch)), Count(q[1..], KFinish(ch)),
                      Count(q[1..], KWork(ch)), RoleOf(Entry(q[0]), ch))
  {
    CountZero(q[1..], KWork(ch));
  }

  lemma FetchKeepsRxChain(rx: InitState, q: seq<Job>)
    requires q != [] && RxChainOk(rx, Count(q, KWork(Rx)), false, false)
    ensures RxChainOk(rx, Count(q[1..], KWork(Rx)), OwesRx(Entry(q[0])), InRxBody(Entry(q[0])))
  {
  }

  lemma FetchKeepsChannels(c: Config, s: State, i: nat, q: seq<Job>, s': State)
    requires i < 2 && ChannelsOk(c, s) && Wk(s, i).pc.Ready? && q == Wk(s, i).queue != []
    requires NoWorkBehindStarter(q, Rx) && NoWorkBehindStarter(q, Tx)
    requires i == 1 ==> RoleOf(Entry(q[0]), Rx) == Away
    requires i != WorkerOf(c, Tx) ==> RoleOf(Entry(q[0]), Tx) == Away
    requires s' == WithWk(s, i, Wk(s, i).(queue := q[1..], pc := Entry(q[0])))
    ensures ChannelsOk(c, s')
  {
    if i == WorkerOf(c, Rx) {
      FetchKeepsChannel(Rx, s.rx, s.rxPool, s.mode, s.rxAt, q);
      FetchKeepsRxChain(s.rx, q);
    }
    if i == WorkerOf(c, Tx) {
      FetchKeepsChannel(Tx, s.tx, s.txPool, s.mode, s.txAt, q);
    }
  }

  lemma FetchKeepsWorkers(c: Config, s: State, i: nat, j: nat)
    requires i < 2 && j < 2 && WorkerOk(c, s, i) && WorkerOk(c, s, j) && Wk(s, i).pc.Ready? && Wk(s, i).queue != []
    ensures WorkerOk(c, Fetch(s, i).value, j)
  {
    var q := Wk(s, i).queue;
    assert JobPlaced(c, s.rxGen, i, q[0]);
    assert QueuePlaced(c, s.rxGen, i, q[1..]);
  }

  lemma FetchFrame(s: State, i: nat)
    requires i < 2 && Fetch(s, i).Some?
    ensures GlobalsAlike(s, Fetch(s, i).value)
  {
  }

  lemma FetchKeeps(c: Config, s: State, i: nat)
    requires i < 2 && CycleOk(c, s) && Wk(s, i).pc.Ready? && Fetch(s, i).Some?
    ensures CycleOk(c, Fetch(s, i).value)
  {
    hide ChannelsOk, GlobalOk;
    assert JobPlaced(c, s.rxGen, i, Wk(s, i).queue[0]);
    FetchKeepsChannels(c, s, i, Wk(s, i).queue, Fetch(s, i).value);
    FetchKeepsWorkers(c, s, i, 0);
    FetchKeepsWorkers(c, s, i, 1);
    FetchFrame(s, i);
    GlobalsKeep(c, s, Fetch(s, i).value);
  }

  /** Queueing a job changes nothing else for the workers. */
  lemma QueueingKeepsWorkers(c: Config, s: State, i: nat, job: Job, s': State)
    requires i < 2 && WorkerOk(c, s, 0) && WorkerOk(c, s, 1) && JobPlaced(c, s.rxGen, i, job) && s'.rxGen == s.rxGen
    requires s'.mode == s.mode && s'.stream == s.stream && s'.rx == s.rx && s'.tx == s.tx
    requires Wk(s', i) == Wk(s, i).(queue := Wk(s, i).queue + [job]) && Wk(s', 1 - i) == Wk(s, 1 - i)
    requires KindOf(job) == KWork(Rx) ==> Count(Wk(s, i).queue, KStart(Rx)) == 0
    requires KindOf(job) == KWork(Tx) ==> Count(Wk(s, i).queue, KStart(Tx)) == 0
    ensures WorkerOk(c, s', 0) && WorkerOk(c, s', 1)
  {
    AppendedPlaced(c, s.rxGen, i, Wk(s, i).queue, job);
    assert WorkerOk(c, s', i) && WorkerOk(c, s', 1 - i);
  }

  lemma QueueingFrame(s: State, i: nat, job: Job, s': State)
    requires i < 2 && s'.rec.held == s.rec.held
    requires s' == WithWk(s, i, Wk(s, i).(queue := Wk(s, i).queue + [job])).(rec := s'.rec)
    ensures GlobalsAlike(s, s') && s'.rxGen == s.rxGen && s'.rxPool == s.rxPool && s'.txPool == s.txPool
    ensures Wk(s', i) == Wk(s, i).(queue := Wk(s, i).queue + [job]) && Wk(s', 1 - i) == Wk(s, 1 - i)
  {
  }

  lemma QueueingKeepsChannels(c: Config, s: State, i: nat, job: Job, s': State)
    requires i < 2 && ChannelsOk(c, s) && (job.Foreign? || (job.TxF? && i == WorkerOf(c, Tx) && !s.tx.Initializing?))
    requires GlobalsAlike(s, s') && s'.rxPool == s.rxPool && s'.txPool == s.txPool
    requires Wk(s', i) == Wk(s, i).(queue := Wk(s, i).queue + [job]) && Wk(s', 1 - i) == Wk(s, 1 - i)
    ensures ChannelsOk(c, s')
    ensures job.TxF? ==> Count(Wk(s, i).queue, KStart(Tx)) == 0
  {
    hide RoleOf, OwesRx, InRxBody;
    Appended(Wk(s, i).queue, job);
  }

  /** Queueing a foreign job anywhere, or a tx_f while tx has no starter on its way. */
  lemma QueueingKeeps(c: Config, s: State, i: nat, job: Job, s': State)
    requires i < 2 && CycleOk(c, s) && JobPlaced(c, s.rxGen, i, job)
    requires job.Foreign? || (job.TxF? && !s.tx.Initializing?)
    requires s'.rec.held == s.rec.held
    requires s' == WithWk(s, i, Wk(s, i).(queue := Wk(s, i).queue + [job])).(rec := s'.rec)
    ensures CycleOk(c, s')
  {
    QueueingFrame(s, i, job, s');
    QueueingKeepsChannels(c, s, i, job, s');
    QueueingKeepsWorkers(c, s, i, job, s');
    GlobalsKeep(c, s, s');
  }

  // ---------------------------------------------------------------- token calls

  predicate CanCall(c: Config, s: State) {
    c.txOn && !s.mode.Down? && (s.mode.Starting? ==> s.tx.Initialized?)
  }

  lemma RecordsMayChange(c: Config, s: State, s': State)
    requires CycleOk(c, s) && s' == s.(rec := s'.rec) && HeldOk(c, s.mode, s.tx, s'.rec.held)
    ensures CycleOk(c, s')
  {
    assert WorkerOk(c, s', 0) && WorkerOk(c, s', 1) && ChannelsOk(c, s');
  }

  lemma AcceptingKeeps(c: Config, s: State, thread: nat, tok: nat, hasFn: bool, s': State, call': Call)
    requires CycleOk(c, s) && ClientStep(c, s, thread, SendChecked(tok), SendPost(hasFn)) == Some((s', call'))
    requires CanCall(c, s)
    ensures CycleOk(c, s')
  {
    QueueingKeeps(c, s, WorkerOf(c, Tx), TxF(Request(tok, s.rec.nextId, hasFn)), s');
  }

  /** What a client holds after a step that accepts nothing, it may hold. */
  lemma HeldStaysOk(c: Config, s: State, thread: nat, call: Call, op: ClientOp, s': State, call': Call)
    requires GlobalOk(c, s) && ClientStep(c, s, thread, call, op) == Some((s', call')) && !op.SendPost?
    requires call.NoCall? || CanCall(c, s)
    ensures s' == s.(rec := s'.rec) && HeldOk(c, s.mode, s.tx, s'.rec.held)
    ensures call.NoCall? && !call'.NoCall? ==> s.tx.Initialized?
  {
    if op.SendOpen? && !s.stopped {
      assert op.tok in s.rec.held || call' == NoCall;
    }
  }

  /** No thread has gone on, nor has what decides which token calls may be made. */
  predicate SameCalls(s: State, s': State) {
    && s'.mode == s.mode && s'.tx == s.tx && s'.call == s.call
    && s'.w0.pc == s.w0.pc && s'.w1.pc == s.w1.pc && s'.w0.call == s.w0.call && s'.w1.call == s.w1.call
  }

  lemma ClientFrame(c: Config, s: State, thread: nat, call: Call, op: ClientOp, s': State, call': Call)
    requires ClientStep(c, s, thread, call, op) == Some((s', call'))
    ensures SameCalls(s, s') && (op.SendPost? ==> call == SendChecked(call.tok))
  {
  }

  lemma ClientKeeps(c: Config, s: State, thread: nat, call: Call, op: ClientOp, s': State, call': Call)
    requires CycleOk(c, s) && ClientStep(c, s, thread, call, op) == Some((s', call'))
    requires call.NoCall? || CanCall(c, s)
    ensures CycleOk(c, s')
    ensures call.NoCall? && !call'.NoCall? ==> s.tx.Initialized?
    ensures SameCalls(s, s')
  {
    ClientFrame(c, s, thread, call, op, s', call');
    if op.SendPost? {
      AcceptingKeeps(c, s, thread, call.tok, op.hasFn, s', call');
    } else {
      HeldStaysOk(c, s, thread, call, op, s', call');
      RecordsMayChange(c, s, s');
    }
  }

  lemma CallIsOnlyCall(s: State, i: nat, call: Call, s': State)
    requires i < 2 && s' == WithWk(s, i, Wk(s, i).(call := call))
    ensures GlobalsAlike(s, s') && s'.rxGen == s.rxGen && s'.rxPool == s.rxPool && s'.txPool == s.txPool
    ensures Wk(s', i) == Wk(s, i).(call := call) && Wk(s', 1 - i) == Wk(s, 1 - i)
  {
  }

  lemma CallKeepsChannels(c: Config, s: State, i: nat, call: Call, s': State)
    requires i < 2 && ChannelsOk(c, s) && GlobalsAlike(s, s') && s'.rxPool == s.rxPool && s'.txPool == s.txPool
    requires Wk(s', i) == Wk(s, i).(call := call) && Wk(s', 1 - i) == Wk(s, 1 - i)
    ensures ChannelsOk(c, s')
  {
    hide Count, ChannelOk, RxChainOk, RoleOf, OwesRx, InRxBody;
  }

  lemma CallKeepsWorkers(c: Config, s: State, i: nat, call: Call, s': State)
    requires i < 2 && WorkerOk(c, s, 0) && WorkerOk(c, s, 1) && GlobalsAlike(s, s') && s'.rxGen == s.rxGen
    requires Wk(s', i) == Wk(s, i).(call := call) && Wk(s', 1 - i) == Wk(s, 1 - i)
    requires CallOk(c, s.mode, s.tx, Wk(s, i).pc, call)
    ensures WorkerOk(c, s', 0) && WorkerOk(c, s', 1)
  {
    hide QueuePlaced, PcPlaced, CompletionOk, CallOk;
    assert WorkerOk(c, s', i) && WorkerOk(c, s', 1 - i);
  }

  lemma SetCallKeeps(c: Config, s: State, i: nat, call: Call)
    requires i < 2 && CycleOk(c, s) && CallOk(c, s.mode, s.tx, Wk(s, i).pc, call)
    ensures CycleOk(c, WithWk(s, i, Wk(s, i).(call := call)))
  {
    hide WorkerOk, ChannelsOk, GlobalOk;
    var s' := WithWk(s, i, Wk(s, i).(call := call));
    CallIsOnlyCall(s, i, call, s');
    CallKeepsChannels(c, s, i, call, s');
    CallKeepsWorkers(c, s, i, call, s');
    GlobalsKeep(c, s, s');
  }

  lemma CallbackKeeps(c: Config, s: State, i: nat, op: ClientOp, s': State)
    requires i < 2 && CycleOk(c, s) && CallbackStep(c, s, i, op) == Some(s')
    requires (Wk(s, i).pc.RunRx? && Wk(s, i).pc.rst.RxCallback?) || (Wk(s, i).pc.RunTx? && Wk(s, i).pc.tst.TxCallback?)
    ensures CycleOk(c, s')
  {
    hide TokenStep;
    var (s1, call') := ClientStep(c, s, i, Wk(s, i).call, op).value;
    ClientKeeps(c, s, i, Wk(s, i).call, op, s1, call');
    SetCallKeeps(c, s1, i, call');
  }

  lemma ControlCallKeeps(c: Config, s: State, call: Call, s': State)
    requires CycleOk(c, s) && ControlCallOk(c, s.mode, call) && s' == s.(call := call)
    ensures CycleOk(c, s')
  {
    assert WorkerOk(c, s', 0) && WorkerOk(c, s', 1) && ChannelsOk(c, s');
  }

  lemma ControlClientKeeps(c: Config, s: State, op: ClientOp, s': State)
    requires CycleOk(c, s) && Step(c, s, ControlClient(op)) == Some(s')
    ensures CycleOk(c, s')
  {
    hide ChannelsOk, WorkerOk, ClientStep;
    var (s1, call') := ClientStep(c, s, 2, s.call, op).value;
    ClientKeeps(c, s, 2, s.call, op, s1, call');
    ControlCallKeeps(c, s1, call', s');
  }

  // ---------------------------------------------------------------- the control thread

  /** asyncio_start begins. */
  lemma StartBegins(c: Config, s: State, s': State)
    requires CycleOk(c, s) && Between(s) && s.call.NoCall? && s.stream.Uninitialized?
    requires s' == s.(stream := Initializing, mode := Starting, cleared := false, rxAt := Todo, txAt := Todo,
                      rec := s.rec.(held := {}))
    ensures CycleOk(c, s')
  {
  }

  /** asyncio_stop begins. */
  lemma StopBegins(c: Config, s: State, s': State)
    requires CycleOk(c, s) && Between(s) && s.call.NoCall? && s.stream.Initialized?
    requires s' == s.(stream := Uninitializing, mode := Stopping, cleared := false, rxAt := Todo, txAt := Todo)
    ensures CycleOk(c, s')
  {
  }

  lemma BeginKeeps(c: Config, s: State, a: Action)
    requires CycleOk(c, s) && (a.CallStart? || a.CallStop?) && Step(c, s, a).Some?
    ensures CycleOk(c, Step(c, s, a).value)
  {
    hide CycleOk;
    var s' := Step(c, s, a).value;
    if a.CallStart? && s.stream.Uninitialized? {
      StartBegins(c, s, s');
    } else if a.CallStop? && s.stream.Initialized? {
      StopBegins(c, s, s');
    } else {
      assert s' == s;
    }
  }

  /** asyncio_start and asyncio_stop post the starter or finisher of a channel. */
  lemma ControlPostKeepsChannels(c: Config, s: State, ch: Channel, job: Job, s': State)
    requires ChannelsOk(c, s) && At(s, ch).Pending? && On(c, ch)
    requires (job.Starter? && s.mode.Starting?) || (job.Finisher? && s.mode.Stopping?)
    requires job.ch == ch
    requires s' == Post(c, s, ch, job).(rxAt := s'.rxAt, txAt := s'.txAt)
    requires s'.rxAt == (if ch.Rx? then Done else s.rxAt) && s'.txAt == (if ch.Tx? then Done else s.txAt)
    ensures ChannelsOk(c, s')
  {
    Appended(Wk(s, WorkerOf(c, ch)).queue, job);
  }

  lemma ControlPostKeepsGlobal(c: Config, s: State, ch: Channel, s': State)
    requires GlobalOk(c, s) && (s.mode.Starting? || s.mode.Stopping?) && At(s, ch).Pending? && (ch.Rx? || s.rxAt.Done?)
    requires GlobalsAlike(s.(rxAt := s'.rxAt, txAt := s'.txAt), s')
    requires s'.rxAt == (if ch.Rx? then Done else s.rxAt) && s'.txAt == (if ch.Tx? then Done else s.txAt)
    ensures GlobalOk(c, s') && On(c, ch)
  {
  }

  lemma ControlPostFrame(c: Config, s: State, ch: Channel, job: Job, s': State)
    requires s' == Post(c, s, ch, job).(rxAt := s'.rxAt, txAt := s'.txAt)
    ensures GlobalsAlike(s.(rxAt := s'.rxAt, txAt := s'.txAt), s') && s'.rxGen == s.rxGen
    ensures
      var i := WorkerOf(c, ch);
      Wk(s', i) == Wk(s, i).(queue := Wk(s, i).queue + [job]) && Wk(s', 1 - i) == Wk(s, 1 - i)
  {
  }

  lemma ControlPostKeeps(c: Config, s: State, ch: Channel, s': State)
    requires CycleOk(c, s) && (s.mode.Starting? || s.mode.Stopping?) && At(s, ch).Pending? && (ch.Rx? || s.rxAt.Done?)
    requires
      var job := if s.mode.Starting? then Starter(ch) else Finisher(ch);
      s' == Post(c, s, ch, job).(rxAt := s'.rxAt, txAt := s'.txAt)
    requires s'.rxAt == (if ch.Rx? then Done else s.rxAt) && s'.txAt == (if ch.Tx? then Done else s.txAt)
    ensures CycleOk(c, s')
  {
    var job := if s.mode.Starting? then Starter(ch) else Finisher(ch);
    ControlPostFrame(c, s, ch, job, s');
    ControlPostKeepsGlobal(c, s, ch, s');
    ControlPostKeepsChannels(c, s, ch, job, s');
    QueueingKeepsWorkers(c, s, WorkerOf(c, ch), job, s');
  }

  /** The steps that clear a flag or mark the stream stopped or not. */
  lemma ClearingKeeps(c: Config, s: State, s': State)
    requires CycleOk(c, s) && !s.cleared && (s.mode.Starting? || s.mode.Stopping?)
    requires s' == if s.mode.Starting? then s.(startedFlag := false, cleared := true)
                   else s.(stoppedFlag := false, cleared := true)
    ensures CycleOk(c, s')
  {
  }

  lemma MarkingKeeps(c: Config, s: State, s': State)
    requires CycleOk(c, s) && s.cleared && (if s.mode.Starting? then s.rxAt.Done? && s.txAt.Done? else s.mode.Stopping?)
    requires s' == s.(stopped := !s.mode.Starting?)
    ensures CycleOk(c, s')
  {
  }

  /** asyncio_start and asyncio_stop return. */
  lemma ReturnKeeps(c: Config, s: State, s': State)
    requires CycleOk(c, s) && s.cleared && s.rxAt.Done? && s.txAt.Done?
    requires if s.mode.Starting? then s.startedFlag && !s.stopped else s.mode.Stopping? && s.stoppedFlag && s.stopped
    requires s' == s.(mode := if s.mode.Starting? then Up else Down)
    ensures CycleOk(c, s')
  {
  }

  /** asyncio_start has come to a channel: a configured one is marked Initializing. */
  predicate StartStores(c: Config, s: State, ch: Channel, s': State) {
    var at := if On(c, ch) then Pending else Done;
    if ch.Rx? then s' == s.(rx := if c.rxOn then Initializing else s.rx, rxAt := at)
    else s' == s.(tx := if c.txOn then Initializing else s.tx, txAt := at)
  }

  lemma StartStoreKeepsChannels(c: Config, s: State, ch: Channel, s': State)
    requires ChannelsOk(c, s) && GlobalOk(c, s) && s.mode.Starting? && At(s, ch).Todo? && StartStores(c, s, ch, s')
    ensures ChannelsOk(c, s')
  {
    if ch.Rx? {
      assert ChannelsOk(c, s');
    }
  }

  lemma StartStoreKeepsGlobal(c: Config, s: State, ch: Channel, s': State)
    requires GlobalOk(c, s) && s.mode.Starting? && s.cleared && At(s, ch).Todo? && (ch.Rx? || s.rxAt.Done?)
    requires StartStores(c, s, ch, s')
    ensures GlobalOk(c, s')
  {
  }

  lemma StartStoreKeepsWorker(c: Config, s: State, ch: Channel, s': State, j: nat)
    requires j < 2 && WorkerOk(c, s, j) && GlobalOk(c, s)
    requires s.mode.Starting? && At(s, ch).Todo? && StartStores(c, s, ch, s')
    ensures WorkerOk(c, s', j)
  {
  }

  lemma StartStoreKeeps(c: Config, s: State, ch: Channel, s': State)
    requires CycleOk(c, s) && s.mode.Starting? && s.cleared && At(s, ch).Todo? && (ch.Rx? || s.rxAt.Done?)
    requires StartStores(c, s, ch, s')
    ensures CycleOk(c, s')
  {
    StartStoreKeepsChannels(c, s, ch, s');
    StartStoreKeepsGlobal(c, s, ch, s');
    StartStoreKeepsWorker(c, s, ch, s', 0);
    StartStoreKeepsWorker(c, s, ch, s', 1);
  }

  /** asyncio_stop has come to a channel: an Initialized one is marked Uninitializing. */
  predicate StopStores(s: State, ch: Channel, s': State) {
    var won := Chan(s, ch).Initialized?;
    var at := if won then Pending else Done;
    if ch.Rx? then s' == s.(rx := if won then Uninitializing else s.rx, rxAt := at)
    else s' == s.(tx := if won then Uninitializing else s.tx, txAt := at)
  }

  lemma StopStoreKeepsChannels(c: Config, s: State, ch: Channel, s': State)
    requires ChannelsOk(c, s) && s.mode.Stopping? && At(s, ch).Todo? && StopStores(s, ch, s')
    ensures ChannelsOk(c, s')
  {
  }

  lemma StopStoreKeepsGlobal(c: Config, s: State, ch: Channel, s': State)
    requires GlobalOk(c, s) && s.mode.Stopping? && s.cleared && s.stopped && At(s, ch).Todo? && (ch.Rx? || s.rxAt.Done?)
    requires StopStores(s, ch, s')
    ensures GlobalOk(c, s')
  {
  }

  lemma StopStoreKeepsWorker(c: Config, s: State, ch: Channel, s': State, j: nat)
    requires j < 2 && WorkerOk(c, s, j) && s.mode.Stopping? && StopStores(s, ch, s')
    ensures WorkerOk(c, s', j)
  {
  }

  lemma StopStoreKeeps(c: Config, s: State, ch: Channel, s': State)
    requires CycleOk(c, s) && s.mode.Stopping? && s.cleared && s.stopped && At(s, ch).Todo? && (ch.Rx? || s.rxAt.Done?)
    requires StopStores(s, ch, s')
    ensures CycleOk(c, s')
  {
    StopStoreKeepsChannels(c, s, ch, s');
    StopStoreKeepsGlobal(c, s, ch, s');
    StopStoreKeepsWorker(c, s, ch, s', 0);
    StopStoreKeepsWorker(c, s, ch, s', 1);
  }

  /** asyncio_stop never finds the stream already marked stopped. */
  lemma StopFindsUnmarked(c: Config, s: State)
    requires CycleOk(c, s) && s.mode.Stopping? && !s.cleared
    ensures !s.stopped
  {
  }

  /** asyncio_start with one channel: marking it, then posting its starter. */
  lemma StartingChannelKeeps(c: Config, s: State, ch: Channel, s': State)
    requires CycleOk(c, s) && s.mode.Starting? && s.cleared && !At(s, ch).Done? && (ch.Rx? || s.rxAt.Done?)
    requires StartingStep(c, s) == Some(s')
    ensures CycleOk(c, s')
  {
    hide CycleOk;
    if At(s, ch).Todo? {
      StartStoreKeeps(c, s, ch, s');
    } else {
      ControlPostKeeps(c, s, ch, s');
    }
  }

  lemma StartingKeeps(c: Config, s: State, s': State)
    requires CycleOk(c, s) && s.mode.Starting? && StartingStep(c, s) == Some(s')
    ensures CycleOk(c, s')
  {
    hide CycleOk;
    if !s.cleared {
      ClearingKeeps(c, s, s');
    } else if !s.rxAt.Done? {
      StartingChannelKeeps(c, s, Rx, s');
    } else if !s.txAt.Done? {
      StartingChannelKeeps(c, s, Tx, s');
    } else if s.stopped {
      MarkingKeeps(c, s, s');
    } else {
      ReturnKeeps(c, s, s');
    }
  }

  /** asyncio_stop with one channel: marking it, then posting its finisher. */
  lemma StoppingChannelKeeps(c: Config, s: State, ch: Channel, s': State)
    requires CycleOk(c, s) && s.mode.Stopping? && s.cleared && s.stopped && !At(s, ch).Done? && (ch.Rx? || s.rxAt.Done?)
    requires StoppingStep(c, s) == Some(s')
    ensures CycleOk(c, s')
  {
    hide CycleOk;
    if At(s, ch).Todo? {
      StopStoreKeeps(c, s, ch, s');
    } else {
      ControlPostKeeps(c, s, ch, s');
    }
  }

  lemma StoppingKeeps(c: Config, s: State, s': State)
    requires CycleOk(c, s) && s.mode.Stopping? && StoppingStep(c, s) == Some(s')
    ensures CycleOk(c, s')
  {
    hide CycleOk;
    if !s.cleared {
      StopFindsUnmarked(c, s);
      ClearingKeeps(c, s, s');
    } else if !s.stopped {
      MarkingKeeps(c, s, s');
    } else if !s.rxAt.Done? {
      StoppingChannelKeeps(c, s, Rx, s');
    } else if !s.txAt.Done? {
      StoppingChannelKeeps(c, s, Tx, s');
    } else {
      ReturnKeeps(c, s, s');
    }
  }

  // ---------------------------------------------------------------- all steps

  lemma RunRxKeeps(c: Config, s: State, i: nat, stage: RxStage, gen: nat, choice: Choice)
    requires i < 2 && CycleOk(c, s) && Wk(s, i).pc == RunRx(stage, gen) && RxStep(c, s, i, stage, gen, choice).Some?
    ensures CycleOk(c, RxStep(c, s, i, stage, gen, choice).value)
  {
    hide CycleOk;
    if choice.Client? {
      CallbackKeeps(c, s, i, choice.op, RxStep(c, s, i, stage, gen, choice).value);
    } else {
      RxKeeps(c, s, i, stage, gen, choice);
    }
  }

  lemma RunTxKeeps(c: Config, s: State, i: nat, stage: TxStage, req: Request, choice: Choice)
    requires i < 2 && CycleOk(c, s) && Wk(s, i).pc == RunTx(stage, req) && TxStep(c, s, i, stage, req, choice).Some?
    ensures CycleOk(c, TxStep(c, s, i, stage, req, choice).value)
  {
    hide CycleOk;
    if choice.Client? {
      CallbackKeeps(c, s, i, choice.op, TxStep(c, s, i, stage, req, choice).value);
    } else {
      TxKeeps(c, s, i, stage, req, choice);
    }
  }

  lemma WorkKeeps(c: Config, s: State, i: nat, choice: Choice)
    requires i < 2 && CycleOk(c, s) && WorkStep(c, s, i, choice).Some?
    ensures CycleOk(c, WorkStep(c, s, i, choice).value)
  {
    hide CycleOk;
    match Wk(s, i).pc
    case Ready => FetchKeeps(c, s, i);
    case Start(stage, ch) => StartKeeps(c, s, i, stage, ch);
    case Finish(stage, ch) => FinishKeeps(c, s, i, stage, ch);
    case RunRx(stage, gen) => RunRxKeeps(c, s, i, stage, gen, choice);
    case RunTx(stage, req) => RunTxKeeps(c, s, i, stage, req, choice);
  }

  lemma InitIsOk(c: Config)
    ensures CycleOk(c, Init())
  {
  }

  lemma StepKeepsCycle(c: Config, s: State, a: Action)
    requires CycleOk(c, s) && Step(c, s, a).Some?
    ensures CycleOk(c, Step(c, s, a).value)
  {
    hide CycleOk;
    match a
    case CallStart => BeginKeeps(c, s, a);
    case CallStop => BeginKeeps(c, s, a);
    case Control =>
      if s.mode.Starting? {
        StartingKeeps(c, s, Step(c, s, a).value);
      } else {
        StoppingKeeps(c, s, Step(c, s, a).value);
      }
    case ControlClient(op) => ControlClientKeeps(c, s, op, Step(c, s, a).value);
    case Work(i, choice) => WorkKeeps(c, s, i, choice);
    case PostForeign(i) => QueueingKeeps(c, s, i, Foreign, Step(c, s, a).value);
  }
}
