/**
 * The asyncio stream (src/asyncio.c) as a transition system.
 *
 * One control thread calls asyncio_start and asyncio_stop; each configured channel runs its jobs on a dispatch
 * queue worker, and the two channels may share one worker.  A step is one atomic load, store, compare-and-swap,
 * flag operation, pool operation or post, taken by one thread.
 */
module AsyncioModel {
  import opened Basics

  datatype InitState = Uninitialized | Uninitializing | Initializing | Initialized

  datatype Channel = Rx | Tx

  /** Which channels have a worker, and whether both use the same one. */
  datatype Config = Config(rxOn: bool, txOn: bool, shared: bool)

  /** A transmit request: its pool block, a number identifying this acceptance, and whether a callback was given. */
  datatype Request = Request(tok: nat, id: nat, hasFn: bool)

  /** A dispatched function.  `gen` names the rx pool that existed when an rx_f was posted. */
  datatype Job =
    | Starter(ch: Channel)
    | Finisher(ch: Channel)
    | RxF(gen: nat)
    | TxF(req: Request)
    | Foreign

  /** A client's call of the token interface, between two of its steps. */
  datatype Call = NoCall | Allocating | SendOpened(tok: nat) | SendChecked(tok: nat)

  /** The steps of starter_f, trigger_start_completion included. */
  datatype StartStage = Create | Publish | PostRx | SeeRx | SeeTx | SetUp | TellUp

  /** The steps of finisher_f, trigger_stop_completion included. */
  datatype FinishStage = FinishCas | Destroy | CheckRx | CheckTx | SetDown | TellDown

  datatype RxStage = RxLoad | RxAlloc | RxCallback(data: nat) | RxRepost | RxRepostEmpty | RxFree

  datatype TxStage = TxLoad | TxWrite | TxCallback | TxFree

  /** What a worker is about to do. */
  datatype Pc =
    | Ready
    | Start(sst: StartStage, ch: Channel)
    | Finish(fst: FinishStage, ch: Channel)
    | RunRx(rst: RxStage, gen: nat)
    | RunTx(tst: TxStage, req: Request)

  /** `call` is the token call that the client callback running on the worker is inside of. */
  datatype Worker = Worker(queue: seq<Job>, pc: Pc, call: Call)

  /** The control thread is between calls (Down or Up), inside asyncio_start, or inside asyncio_stop. */
  datatype Mode = Down | Up | Starting | Stopping

  /** How far asyncio_start or asyncio_stop has got with one channel: its state is to be changed, its job is to be
      posted, or both are done. */
  datatype Progress = Todo | Pending | Done

  /** Who owns the reference to a tx pool block: a client between calls, a thread (0 and 1 are the workers, 2 is the
      control thread) inside a token call, or an acceptance. */
  datatype Owner = Owned | Caller(thread: nat) | Accepted(id: nat)

  datatype Records = Records(
    out: map<nat, Owner>,   // tx pool blocks whose retain count is one
    held: set<nat>,         // blocks clients obtained since the last asyncio_start and still own
    nextId: nat,            // acceptances so far
    asked: set<nat>,        // acceptances that supplied a callback
    passed: set<nat>,       // acceptances for which tx_f saw the stream Initialized
    written: seq<nat>,      // acceptances whose data was handed to the write function, oldest first
    fired: seq<nat>,        // callbacks made, oldest first
    dropped: seq<nat>,      // references dropped by tx_f, oldest first
    taken: nat,             // rx buffers allocated by rx_f
    freed: nat,             // rx buffers it has freed
    found: seq<nat>,        // what its reads have found, oldest first
    delivered: seq<nat>)    // what its callback was given, oldest first

  datatype State = State(
    stream: InitState, rx: InitState, tx: InitState,
    stopped: bool, startedFlag: bool, stoppedFlag: bool,
    rxPool: bool, txPool: bool, rxGen: nat,
    w0: Worker, w1: Worker,
    mode: Mode, cleared: bool, rxAt: Progress, txAt: Progress, call: Call,
    rec: Records)

  // ---------------------------------------------------------------- accessors

  function WorkerOf(c: Config, ch: Channel): nat {
    if ch.Rx? || c.shared then 0 else 1
  }

  predicate On(c: Config, ch: Channel) {
    if ch.Rx? then c.rxOn else c.txOn
  }

  function Chan(s: State, ch: Channel): InitState {
    if ch.Rx? then s.rx else s.tx
  }

  function Pool(s: State, ch: Channel): bool {
    if ch.Rx? then s.rxPool else s.txPool
  }

  function At(s: State, ch: Channel): Progress {
    if ch.Rx? then s.rxAt else s.txAt
  }

  function Wk(s: State, i: nat): Worker {
    if i == 0 then s.w0 else s.w1
  }

  function WithWk(s: State, i: nat, w: Worker): State {
    s.(w0 := if i == 0 then w else s.w0, w1 := if i == 0 then s.w1 else w)
  }

  function WithPc(s: State, i: nat, pc: Pc): State {
    WithWk(s, i, Wk(s, i).(pc := pc))
  }

  function WithChan(s: State, ch: Channel, st: InitState): State {
    s.(rx := if ch.Rx? then st else s.rx, tx := if ch.Rx? then s.tx else st)
  }

  function WithPool(s: State, ch: Channel, exists': bool): State {
    s.(rxPool := if ch.Rx? then exists' else s.rxPool, txPool := if ch.Rx? then s.txPool else exists')
  }

  /** dispatch_async_f: append a job to the queue of the channel's worker. */
  function Post(c: Config, s: State, ch: Channel, job: Job): State {
    var i := WorkerOf(c, ch);
    WithWk(s, i, Wk(s, i).(queue := Wk(s, i).queue + [job]))
  }

  // ---------------------------------------------------------------- steps

  function Init(): State {
    State(Uninitialized, Uninitialized, Uninitialized, true, false, false, false, false, 0,
          Worker([], Ready, NoCall), Worker([], Ready, NoCall), Down, false, Todo, Todo, NoCall,
          Records(map[], {}, 0, {}, {}, [], [], [], 0, 0, [], []))
  }

  /** What a client may do next in a token call. */
  datatype ClientOp =
    | AllocLoad | AllocTake(tok: nat) | AllocEmpty
    | SendOpen(tok: nat) | SendLoad | SendReject | SendPost(hasFn: bool)

  /** How the environment resolves a worker step: what the pool, the read and the client callback do. */
  datatype Choice = Go | NoBuffer | ReadNothing | ReadData(data: nat) | Client(op: ClientOp) | Return

  datatype Action =
    | CallStart | CallStop | Control | ControlClient(op: ClientOp)
    | Work(i: nat, choice: Choice)
    | PostForeign(i: nat)

  /** One step of asyncio_allocate_tx_token or asyncio_send_buffer, on the records: `up` says whether the tx channel is
      Initialized and `pool` whether its pool exists.  A client passes a token it owns to asyncio_send_buffer, unless
      the stream is stopped, when any token is refused. */
  function TokenStep(r: Records, stopped: bool, up: bool, pool: bool, thread: nat, call: Call, op: ClientOp)
    : Option<(Records, Call)>
  {
    match (call, op)
    case (NoCall, AllocLoad) => Some((r, if up then Allocating else NoCall))
    case (Allocating, AllocTake(tok)) =>
      if pool && tok !in r.out then Some((r.(out := r.out[tok := Owned], held := r.held + {tok}), NoCall))
      else None
    case (Allocating, AllocEmpty) => Some((r, NoCall))
    case (NoCall, SendOpen(tok)) =>
      if stopped then Some((r, NoCall))
      else if tok in r.held then
        Some((r.(out := r.out[tok := Caller(thread)], held := r.held - {tok}), SendOpened(tok)))
      else None
    case (SendOpened(tok), SendLoad) =>
      if up then Some((r, SendChecked(tok)))
      else Some((r.(out := r.out[tok := Owned], held := r.held + {tok}), NoCall))
    case (SendChecked(tok), SendReject) => Some((r.(out := r.out[tok := Owned], held := r.held + {tok}), NoCall))
    case (SendChecked(tok), SendPost(hasFn)) =>
      Some((r.(out := r.out[tok := Accepted(r.nextId)], nextId := r.nextId + 1,
               asked := if hasFn then r.asked + {r.nextId} else r.asked), NoCall))
    case _ => None
  }

  /** One step of a token call by `thread`; the accepting step posts tx_f. */
  function ClientStep(c: Config, s: State, thread: nat, call: Call, op: ClientOp): Option<(State, Call)> {
    match TokenStep(s.rec, s.stopped, s.tx.Initialized?, s.txPool, thread, call, op)
    case None => None
    case Some((r, call')) =>
      if op.SendPost? && call.SendChecked? then
        Some((Post(c, s, Tx, TxF(Request(call.tok, s.rec.nextId, op.hasFn))).(rec := r), call'))
      else
        Some((s.(rec := r), call'))
  }

  /** The next step of asyncio_start: clear the flag, start rx, start tx, open the stream, wait. */
  function StartingStep(c: Config, s: State): Option<State> {
    if !s.cleared then Some(s.(startedFlag := false, cleared := true))
    else if s.rxAt.Todo? then
      Some(s.(rx := if c.rxOn then Initializing else s.rx, rxAt := if c.rxOn then Pending else Done))
    else if s.rxAt.Pending? then Some(Post(c, s, Rx, Starter(Rx)).(rxAt := Done))
    else if s.txAt.Todo? then
      Some(s.(tx := if c.txOn then Initializing else s.tx, txAt := if c.txOn then Pending else Done))
    else if s.txAt.Pending? then Some(Post(c, s, Tx, Starter(Tx)).(txAt := Done))
    else if s.stopped then Some(s.(stopped := false))
    else if s.startedFlag then Some(s.(mode := Up))
    else None
  }

  /** The next step of asyncio_stop: clear the flag, mark the stream stopped, stop rx, stop tx, wait.  A stream
      already marked stopped is left as it is. */
  function StoppingStep(c: Config, s: State): Option<State> {
    if !s.cleared then Some(if s.stopped then s.(mode := Down) else s.(stoppedFlag := false, cleared := true))
    else if !s.stopped then Some(s.(stopped := true))
    else if s.rxAt.Todo? then
      var won := s.rx.Initialized?;
      Some(s.(rx := if won then Uninitializing else s.rx, rxAt := if won then Pending else Done))
    else if s.rxAt.Pending? then Some(Post(c, s, Rx, Finisher(Rx)).(rxAt := Done))
    else if s.txAt.Todo? then
      var won := s.tx.Initialized?;
      Some(s.(tx := if won then Uninitializing else s.tx, txAt := if won then Pending else Done))
    else if s.txAt.Pending? then Some(Post(c, s, Tx, Finisher(Tx)).(txAt := Done))
    else if s.stoppedFlag then Some(s.(mode := Down))
    else None
  }

  predicate Between(s: State) {
    s.mode.Down? || s.mode.Up?
  }

  /** The first step of a dispatched function. */
  function Entry(job: Job): Pc {
    match job
    case Starter(ch) => Start(Create, ch)
    case Finisher(ch) => Finish(FinishCas, ch)
    case RxF(gen) => RunRx(RxLoad, gen)
    case TxF(req) => RunTx(TxLoad, req)
    case Foreign => Ready
  }

  /** starter_f and trigger_start_completion. */
  function StartStep(c: Config, s: State, i: nat, stage: StartStage, ch: Channel): State {
    match stage
    case Create =>
      WithPc(WithPool(s, ch, true).(rxGen := if ch.Rx? then s.rxGen + 1 else s.rxGen,
                                    rec := if ch.Rx? then s.rec else s.rec.(out := map[])), i, Start(Publish, ch))
    case Publish => WithPc(WithChan(s, ch, Initialized), i, Start(if ch.Rx? then PostRx else SeeRx, ch))
    case PostRx => WithPc(Post(c, s, Rx, RxF(s.rxGen)), i, Start(SeeRx, ch))
    case SeeRx => WithPc(s, i, if !c.rxOn || s.rx.Initialized? then Start(SeeTx, ch) else Ready)
    case SeeTx => WithPc(s, i, if !c.txOn || s.tx.Initialized? then Start(SetUp, ch) else Ready)
    case SetUp => WithPc(s.(stream := Initialized), i, Start(TellUp, ch))
    case TellUp => WithPc(s.(startedFlag := true), i, Ready)
  }

  /** finisher_f and trigger_stop_completion. */
  function FinishStep(c: Config, s: State, i: nat, stage: FinishStage, ch: Channel): State {
    match stage
    case FinishCas =>
      var won := Chan(s, ch).Uninitializing?;
      WithPc(WithChan(s, ch, if won then Uninitialized else Chan(s, ch)), i,
             Finish(if won then Destroy else CheckRx, ch))
    case Destroy => WithPc(WithPool(s, ch, false), i, Finish(CheckRx, ch))
    case CheckRx => WithPc(s, i, if s.rx.Uninitialized? then Finish(CheckTx, ch) else Ready)
    case CheckTx => WithPc(s, i, if s.tx.Uninitialized? then Finish(SetDown, ch) else Ready)
    case SetDown => WithPc(s.(stream := Uninitialized), i, Finish(TellDown, ch))
    case TellDown => WithPc(s.(stoppedFlag := true), i, Ready)
  }

  /** A step of the client callback that worker `i` is running. */
  function CallbackStep(c: Config, s: State, i: nat, op: ClientOp): Option<State> {
    match ClientStep(c, s, i, Wk(s, i).call, op)
    case Some((s', call')) => Some(WithWk(s', i, Wk(s', i).(call := call')))
    case None => None
  }

  /** rx_f. */
  function RxStep(c: Config, s: State, i: nat, stage: RxStage, gen: nat, choice: Choice): Option<State> {
    match (stage, choice)
    case (RxLoad, Go) => Some(WithPc(s, i, if s.rx.Initialized? then RunRx(RxAlloc, gen) else Ready))
    case (RxAlloc, NoBuffer) => Some(WithPc(s, i, RunRx(RxRepostEmpty, gen)))
    case (RxAlloc, ReadNothing) =>
      Some(WithPc(s.(rec := s.rec.(taken := s.rec.taken + 1)), i, RunRx(RxRepost, gen)))
    case (RxAlloc, ReadData(data)) =>
      Some(WithPc(s.(rec := s.rec.(taken := s.rec.taken + 1, found := s.rec.found + [data])), i,
                  RunRx(RxCallback(data), gen)))
    case (RxCallback(_), Client(op)) => CallbackStep(c, s, i, op)
    case (RxCallback(data), Return) =>
      if Wk(s, i).call.NoCall? then
        Some(WithPc(s.(rec := s.rec.(delivered := s.rec.delivered + [data])), i, RunRx(RxRepost, gen)))
      else None
    case (RxRepost, Go) => Some(WithPc(Post(c, s, Rx, RxF(s.rxGen)), i, RunRx(RxFree, gen)))
    case (RxRepostEmpty, Go) => Some(WithPc(Post(c, s, Rx, RxF(s.rxGen)), i, Ready))
    case (RxFree, Go) => Some(WithPc(s.(rec := s.rec.(freed := s.rec.freed + 1)), i, Ready))
    case _ => None
  }

  /** tx_f. */
  function TxStep(c: Config, s: State, i: nat, stage: TxStage, req: Request, choice: Choice): Option<State> {
    match (stage, choice)
    case (TxLoad, Go) =>
      var pass := s.stream.Initialized?;
      Some(WithPc(s.(rec := s.rec.(passed := if pass then s.rec.passed + {req.id} else s.rec.passed)), i,
                  RunTx(if pass then TxWrite else TxFree, req)))
    case (TxWrite, Go) =>
      Some(WithPc(s.(rec := s.rec.(written := s.rec.written + [req.id],
                                   fired := if req.hasFn then s.rec.fired + [req.id] else s.rec.fired)), i,
                  RunTx(if req.hasFn then TxCallback else TxFree, req)))
    case (TxCallback, Client(op)) => CallbackStep(c, s, i, op)
    case (TxCallback, Return) =>
      if Wk(s, i).call.NoCall? then Some(WithPc(s, i, RunTx(TxFree, req))) else None
    case (TxFree, Go) =>
      Some(WithPc(s.(rec := s.rec.(out := s.rec.out - {req.tok}, dropped := s.rec.dropped + [req.id])), i, Ready))
    case _ => None
  }

  /** The worker loop of the dispatch queue takes its next job. */
  function Fetch(s: State, i: nat): Option<State> {
    var w := Wk(s, i);
    if w.queue != [] then
      Some(WithWk(s, i, w.(queue := w.queue[1..], pc := Entry(w.queue[0]))))
    else
      None
  }

  function WorkStep(c: Config, s: State, i: nat, choice: Choice): Option<State> {
    match Wk(s, i).pc
    case Ready => Fetch(s, i)
    case Start(stage, ch) => Some(StartStep(c, s, i, stage, ch))
    case Finish(stage, ch) => Some(FinishStep(c, s, i, stage, ch))
    case RunRx(stage, gen) => RxStep(c, s, i, stage, gen, choice)
    case RunTx(stage, req) => TxStep(c, s, i, stage, req, choice)
  }

  /** One step of the whole system; None when the action is not possible in `s`. */
  function Step(c: Config, s: State, a: Action): Option<State> {
    match a
    case CallStart =>
      if Between(s) && s.call.NoCall? then
        Some(if s.stream.Uninitialized? then
               s.(stream := Initializing, rec := s.rec.(held := {}),
                  mode := Starting, cleared := false, rxAt := Todo, txAt := Todo)
             else s)
      else None
    case CallStop =>
      if Between(s) && s.call.NoCall? then
        Some(if s.stream.Initialized? then
               s.(stream := Uninitializing, mode := Stopping, cleared := false, rxAt := Todo, txAt := Todo)
             else s)
      else None
    case Control =>
      if s.mode.Starting? then StartingStep(c, s)
      else if s.mode.Stopping? then StoppingStep(c, s)
      else None
    case ControlClient(op) =>
      if Between(s) then
        (match ClientStep(c, s, 2, s.call, op)
         case Some((s', call')) => Some(s'.(call := call'))
         case None => None)
      else None
    case Work(i, choice) => if i < 2 then WorkStep(c, s, i, choice) else None
    case PostForeign(i) =>
      if i < 2 then Some(WithWk(s, i, Wk(s, i).(queue := Wk(s, i).queue + [Foreign]))) else None
  }

  /** The state after a run, that is after a sequence of actions from the initial state; None if one was impossible. */
  function After(c: Config, run: seq<Action>): Option<State> {
    if run == [] then Some(Init())
    else
      match After(c, run[..|run| - 1])
      case None => None
      case Some(s) => Step(c, s, run[|run| - 1])
  }

  /** The steps at which the C code would fail one of its assertions: asyncio_stop finds a channel still
      Initializing, or pool_free finds a retain count of zero. */
  predicate AssertionFails(s: State, a: Action) {
    match a
    case Control =>
      && s.mode.Stopping? && s.cleared && s.stopped
      && ((s.rxAt.Todo? && s.rx.Initializing?) || (s.rxAt.Done? && s.txAt.Todo? && s.tx.Initializing?))
    case Work(i, _) =>
      i < 2 && Wk(s, i).pc.RunTx? && Wk(s, i).pc.tst.TxFree? && Wk(s, i).pc.req.tok !in s.rec.out
    case _ => false
  }
}
