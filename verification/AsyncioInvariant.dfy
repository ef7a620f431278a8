/** The inductive invariant of the asyncio stream. */
module AsyncioInvariant {
  import opened AsyncioModel

  // ---------------------------------------------------------------- counting the jobs of a worker

  datatype Kind = KStart(ch: Channel) | KFinish(ch: Channel) | KWork(ch: Channel) | KForeign

  function KindOf(job: Job): Kind {
    match job
    case Starter(ch) => KStart(ch)
    case Finisher(ch) => KFinish(ch)
    case RxF(_) => KWork(Rx)
    case TxF(_) => KWork(Tx)
    case Foreign => KForeign
  }

  function Count(q: seq<Job>, k: Kind): nat {
    if q == [] then 0 else (if KindOf(q[0]) == k then 1 else 0) + Count(q[1..], k)
  }

  /** Of `n` queued jobs, a running job and a pending post there is exactly one if `due`, otherwise none. */
  predicate OneIf(n: nat, running: bool, pending: bool, due: bool) {
    if due then
      || (n == 1 && !running && !pending)
      || (n == 0 && running && !pending)
      || (n == 0 && !running && pending)
    else
      n == 0 && !running && !pending
  }

  /** The worker runs an rx_f that may still repost, or a starter whose post of rx_f is pending. */
  predicate OwesRx(pc: Pc) {
    (pc.Start? && pc.sst.PostRx?) || (pc.RunRx? && !pc.rst.RxFree?)
  }

  // ---------------------------------------------------------------- where jobs may be

  function TxWk(c: Config, s: State): Worker {
    if c.shared then s.w0 else s.w1
  }

  predicate Serves(c: Config, i: nat, ch: Channel) {
    On(c, ch) && WorkerOf(c, ch) == i
  }

  predicate JobPlaced(c: Config, gen: nat, i: nat, job: Job) {
    match job
    case Starter(ch) => Serves(c, i, ch)
    case Finisher(ch) => Serves(c, i, ch)
    case RxF(g) => Serves(c, i, Rx) && g == gen
    case TxF(_) => Serves(c, i, Tx)
    case Foreign => true
  }

  /** Jobs of a channel's previous cycle are all ahead of a queued starter. */
  ghost predicate NoWorkBehindStarter(q: seq<Job>, ch: Channel) {
    forall j, k :: 0 <= j < k < |q| && q[j] == Starter(ch) ==> KindOf(q[k]) != KWork(ch)
  }

  ghost predicate QueuePlaced(c: Config, gen: nat, i: nat, q: seq<Job>) {
    && (forall k :: 0 <= k < |q| ==> JobPlaced(c, gen, i, q[k]))
    && NoWorkBehindStarter(q, Rx) && NoWorkBehindStarter(q, Tx)
  }

  predicate PcPlaced(c: Config, gen: nat, i: nat, pc: Pc) {
    match pc
    case Ready => true
    case Start(stage, ch) => Serves(c, i, ch) && (stage.PostRx? ==> ch.Rx?)
    case Finish(_, ch) => Serves(c, i, ch)
    case RunRx(_, g) => Serves(c, i, Rx) && g == gen
    case RunTx(_, _) => Serves(c, i, Tx)
  }

  // ---------------------------------------------------------------- the life of one channel

  predicate Live(st: InitState) {
    st.Initialized? || st.Uninitializing?
  }

  /** What a worker is doing for one channel. */
  datatype Role = Away | ToCreate | ToPublish | InStartTail | ToFinish | ToDestroy | InStopTail

  function RoleOf(pc: Pc, ch: Channel): Role {
    match pc
    case Start(stage, ch') =>
      if ch' != ch then Away
      else if stage.Create? then ToCreate
      else if stage.Publish? then ToPublish
      else InStartTail
    case Finish(stage, ch') =>
      if ch' != ch then Away
      else if stage.FinishCas? then ToFinish
      else if stage.Destroy? then ToDestroy
      else InStopTail
    case _ => Away
  }

  predicate InRxBody(pc: Pc) {
    pc.RunRx? && !pc.rst.RxLoad?
  }

  /** The states a configured channel can be in while the control thread is at a given point. */
  predicate PhaseOk(mode: Mode, at: Progress, st: InitState) {
    match mode
    case Down => st.Uninitialized?
    case Up => st.Initialized?
    case Starting =>
      (match at
       case Todo => st.Uninitialized?
       case Pending => st.Initializing?
       case Done => st.Initializing? || st.Initialized?)
    case Stopping =>
      (match at
       case Todo => st.Initialized?
       case Pending => st.Uninitializing?
       case Done => st.Uninitializing? || st.Uninitialized?)
  }

  predicate ChannelPhaseOk(on: bool, mode: Mode, at: Progress, st: InitState) {
    if on then PhaseOk(mode, at, st) else st.Uninitialized? && !at.Pending?
  }

  /** `st` and `pool` belong to the channel and `role` to its worker; `nStart`, `nFinish` and `nWork` are the numbers
      of starters, finishers and rx_f or tx_f that the worker's queue holds for the channel.  After its store a
      starter's channel stays live until the finisher behind it on the same worker, and the other way round. */
  predicate ChannelOk(st: InitState, pool: bool, mode: Mode, at: Progress,
                      nStart: nat, nFinish: nat, nWork: nat, role: Role)
  {
    && OneIf(nStart, role.ToCreate? || role.ToPublish?, mode.Starting? && at.Pending?, st.Initializing?)
    && OneIf(nFinish, role.ToFinish?, mode.Stopping? && at.Pending?, st.Uninitializing?)
    && (role.InStartTail? ==> Live(st))
    && (role.ToDestroy? || role.InStopTail? ==> !Live(st))
    && (pool <==> Live(st) || role.ToPublish? || role.ToDestroy?)
    && (role.ToCreate? || role.ToPublish? ==> nWork == 0)
  }

  /** `nWork`, `owes` and `inBody` belong to the rx worker. */
  predicate RxChainOk(rx: InitState, nWork: nat, owes: bool, inBody: bool) {
    && (inBody ==> Live(rx))
    && (OneIf(nWork, owes, false, true) || OneIf(nWork, owes, false, false))
    && (rx.Initialized? ==> OneIf(nWork, owes, false, true))
  }

  // ---------------------------------------------------------------- control thread, stream state and flags

  predicate IsUp(c: Config, ch: Channel, st: InitState) {
    On(c, ch) ==> st.Initialized?
  }

  predicate AllUp(c: Config, rx: InitState, tx: InitState) {
    IsUp(c, Rx, rx) && IsUp(c, Tx, tx)
  }

  predicate AllDown(rx: InitState, tx: InitState) {
    rx.Uninitialized? && tx.Uninitialized?
  }

  predicate StoppedOk(mode: Mode, cleared: bool, rxAt: Progress, stopped: bool) {
    match mode
    case Down => stopped
    case Up => !stopped
    case Starting => !cleared ==> stopped
    case Stopping => (!cleared ==> !stopped) && (!rxAt.Todo? ==> stopped)
  }

  predicate StreamOk(c: Config, mode: Mode, stream: InitState, rx: InitState, tx: InitState) {
    match mode
    case Down => stream.Uninitialized?
    case Up => stream.Initialized?
    case Starting => stream.Initialized? ==> AllUp(c, rx, tx)
    case Stopping => stream.Uninitialized? ==> AllDown(rx, tx)
  }

  /** A completion flag seen after it was cleared belongs to this call, and its cycle is complete. */
  predicate FlagsOk(c: Config, mode: Mode, cleared: bool, stream: InitState, rx: InitState, tx: InitState,
                    startedFlag: bool, stoppedFlag: bool)
  {
    && (mode.Starting? && cleared && startedFlag ==> AllUp(c, rx, tx) && stream.Initialized?)
    && (mode.Stopping? && cleared && stoppedFlag ==> AllDown(rx, tx) && stream.Uninitialized?)
  }

  /** What a worker part-way through a completion check may rely on, however late it is. */
  predicate CompletionOk(c: Config, mode: Mode, stream: InitState, rx: InitState, tx: InitState, pc: Pc) {
    && (pc.Start? && mode.Starting? ==>
          && (pc.sst.SeeTx? ==> IsUp(c, Rx, rx))
          && (pc.sst.SetUp? ==> AllUp(c, rx, tx))
          && (pc.sst.TellUp? ==> AllUp(c, rx, tx) && stream.Initialized?))
    && (pc.Finish? && mode.Stopping? ==>
          && (pc.fst.CheckTx? ==> rx.Uninitialized?)
          && (pc.fst.SetDown? ==> AllDown(rx, tx))
          && (pc.fst.TellDown? ==> AllDown(rx, tx) && stream.Uninitialized?))
  }

  // ---------------------------------------------------------------- tokens

  /** A token call on a worker happens only inside a callback, and only in a cycle in which tx is up. */
  predicate CallOk(c: Config, mode: Mode, tx: InitState, pc: Pc, call: Call) {
    || call.NoCall?
    || (pc.RunRx? && pc.rst.RxCallback? && c.txOn && (mode.Starting? ==> tx.Initialized?))
    || (pc.RunTx? && pc.tst.TxCallback? && Live(tx))
  }

  predicate ControlCallOk(c: Config, mode: Mode, call: Call) {
    call.NoCall? || (mode.Up? && c.txOn)
  }

  predicate HeldOk(c: Config, mode: Mode, tx: InitState, held: set<nat>) {
    held != {} ==> c.txOn && (mode.Starting? ==> tx.Initialized?)
  }

  /** The token of a call in progress belongs to the thread that makes the call. */
  predicate CallTokenOk(out: map<nat, Owner>, thread: nat, call: Call) {
    call.SendOpened? || call.SendChecked? ==> call.tok in out && out[call.tok] == Caller(thread)
  }

  ghost predicate OwnersOk(out: map<nat, Owner>, held: set<nat>, call0: Call, call1: Call, call2: Call) {
    && CallTokenOk(out, 0, call0) && CallTokenOk(out, 1, call1) && CallTokenOk(out, 2, call2)
    && (forall tok: nat :: tok in held ==> tok in out && out[tok] == Owned)
  }

  // ---------------------------------------------------------------- acceptances

  function QueueRequests(q: seq<Job>): seq<Request> {
    if q == [] then []
    else (if q[0].TxF? then [q[0].req] else []) + QueueRequests(q[1..])
  }

  /** The acceptances a worker has not finished with: the one tx_f is handling, then those queued. */
  function Requests(w: Worker): seq<Request> {
    (if w.pc.RunTx? then [w.pc.req] else []) + QueueRequests(w.queue)
  }

  /** Acceptances are dropped in the order they were made, and those not dropped yet are in line in that order, each
      owning its token. */
  ghost predicate LineOk(r: Records, line: seq<Request>) {
    && |r.dropped| + |line| == r.nextId
    && (forall k :: 0 <= k < |r.dropped| ==> r.dropped[k] == k)
    && (forall k :: 0 <= k < |line| ==>
          && line[k].id == |r.dropped| + k
          && (line[k].hasFn <==> line[k].id in r.asked)
          && line[k].tok in r.out && r.out[line[k].tok] == Accepted(line[k].id))
    && (forall id: nat :: id in r.asked ==> id < r.nextId)
  }

  datatype TxPhase = NotInTx | InTx(stage: TxStage)

  function PhaseOf(pc: Pc): TxPhase {
    if pc.RunTx? then InTx(pc.tst) else NotInTx
  }

  /** tx_f has examined the acceptance it is handling. */
  predicate Examined(p: TxPhase) {
    p.InTx? && !p.stage.TxLoad?
  }

  predicate MadeCall(p: TxPhase) {
    p == InTx(TxCallback) || p == InTx(TxFree)
  }

  /** The callback of an acceptance was made, once and in order, exactly if one was supplied and tx_f saw the stream
      Initialized; `p` says how far tx_f has got with the oldest acceptance not dropped. */
  ghost predicate FiredOk(r: Records, p: TxPhase) {
    && (forall id: nat :: id in r.passed ==> id < |r.dropped| || (id == |r.dropped| && Examined(p)))
    && (p == InTx(TxWrite) ==> |r.dropped| in r.passed)
    && (forall j, k :: 0 <= j < k < |r.fired| ==> r.fired[j] < r.fired[k])
    && (forall id: nat :: id in r.fired <==>
          id in r.passed && id in r.asked && (id < |r.dropped| || MadeCall(p)))
    && (forall j, k :: 0 <= j < k < |r.written| ==> r.written[j] < r.written[k])
    && (forall id: nat :: id in r.written <==> id in r.passed && (id < |r.dropped| || MadeCall(p)))
  }

  /** rx_f has a buffer from its read on, which it frees last; what a read found goes to the callback. */
  predicate DeliveryOk(r: Records, pc: Pc) {
    && r.taken == r.freed + (if pc.RunRx? && (pc.rst.RxCallback? || pc.rst.RxRepost? || pc.rst.RxFree?) then 1 else 0)
    && r.found == r.delivered + (if pc.RunRx? && pc.rst.RxCallback? then [pc.rst.data] else [])
  }

  // ---------------------------------------------------------------- the invariant

  ghost predicate WorkerOk(c: Config, s: State, i: nat) {
    && QueuePlaced(c, s.rxGen, i, Wk(s, i).queue)
    && PcPlaced(c, s.rxGen, i, Wk(s, i).pc)
    && CompletionOk(c, s.mode, s.stream, s.rx, s.tx, Wk(s, i).pc)
    && CallOk(c, s.mode, s.tx, Wk(s, i).pc, Wk(s, i).call)
  }

  predicate ChannelsOk(c: Config, s: State) {
    var w0, w := s.w0, TxWk(c, s);
    && ChannelOk(s.rx, s.rxPool, s.mode, s.rxAt, Count(w0.queue, KStart(Rx)), Count(w0.queue, KFinish(Rx)),
                 Count(w0.queue, KWork(Rx)), RoleOf(w0.pc, Rx))
    && ChannelOk(s.tx, s.txPool, s.mode, s.txAt, Count(w.queue, KStart(Tx)), Count(w.queue, KFinish(Tx)),
                 Count(w.queue, KWork(Tx)), RoleOf(w.pc, Tx))
    && RxChainOk(s.rx, Count(w0.queue, KWork(Rx)), OwesRx(w0.pc), InRxBody(w0.pc))
  }

  predicate GlobalOk(c: Config, s: State) {
    && ChannelPhaseOk(c.rxOn, s.mode, s.rxAt, s.rx)
    && ChannelPhaseOk(c.txOn, s.mode, s.txAt, s.tx)
    && StoppedOk(s.mode, s.cleared, s.rxAt, s.stopped)
    && (!s.cleared ==> s.rxAt.Todo?) && (!s.rxAt.Done? ==> s.txAt.Todo?)
    && StreamOk(c, s.mode, s.stream, s.rx, s.tx)
    && FlagsOk(c, s.mode, s.cleared, s.stream, s.rx, s.tx, s.startedFlag, s.stoppedFlag)
    && HeldOk(c, s.mode, s.tx, s.rec.held)
    && ControlCallOk(c, s.mode, s.call)
  }

  /** The part that concerns the start/stop life cycle. */
  ghost predicate CycleOk(c: Config, s: State) {
    WorkerOk(c, s, 0) && WorkerOk(c, s, 1) && ChannelsOk(c, s) && GlobalOk(c, s)
  }

  /** The part that concerns tokens, acceptances and callbacks. */
  ghost predicate RecordsOk(c: Config, s: State) {
    && OwnersOk(s.rec.out, s.rec.held, s.w0.call, s.w1.call, s.call)
    && LineOk(s.rec, Requests(TxWk(c, s)))
    && FiredOk(s.rec, PhaseOf(TxWk(c, s).pc))
  }

  ghost predicate Inv(c: Config, s: State) {
    CycleOk(c, s) && RecordsOk(c, s) && DeliveryOk(s.rec, s.w0.pc)
  }

  // ---------------------------------------------------------------- facts about queues

  lemma {:induction false} CountAppend(q: seq<Job>, job: Job, k: Kind)
    ensures Count(q + [job], k) == Count(q, k) + (if KindOf(job) == k then 1 else 0)
  {
    if q == [] {
      assert q + [job] == [job];
    } else {
      assert (q + [job])[1..] == q[1..] + [job];
      CountAppend(q[1..], job, k);
    }
  }

  lemma {:induction false} CountZero(q: seq<Job>, k: Kind)
    ensures Count(q, k) == 0 <==> forall n :: 0 <= n < |q| ==> KindOf(q[n]) != k
  {
    if q != [] {
      CountZero(q[1..], k);
      assert forall n :: 1 <= n < |q| ==> q[n] == q[1..][n - 1];
      assert forall n :: 0 <= n < |q| - 1 ==> q[1..][n] == q[n + 1];
    }
  }

  lemma {:induction false} RequestsAppend(q: seq<Job>, job: Job)
    ensures QueueRequests(q + [job]) == QueueRequests(q) + (if job.TxF? then [job.req] else [])
  {
    if q == [] {
      assert q + [job] == [job];
    } else {
      assert (q + [job])[1..] == q[1..] + [job] && (q + [job])[0] == q[0];
      RequestsAppend(q[1..], job);
    }
  }
}
