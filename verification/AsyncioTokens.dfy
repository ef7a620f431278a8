/** Every step of the asyncio stream keeps the part of the invariant about tokens, acceptances and callbacks. */
module AsyncioTokens {
  import opened Basics
  import opened AsyncioModel
  import opened AsyncioInvariant
  import opened AsyncioCycle
  import AsyncioDelivery
  import opened AsyncioFrames

  // ---------------------------------------------------------------- workers that only move on

  /** Two states of a worker that are alike for the token records. */
  predicate Alike(w: Worker, w': Worker) {
    Requests(w') == Requests(w) && PhaseOf(w'.pc) == PhaseOf(w.pc) && w'.call == w.call
  }

  /** Nothing has been recorded but by rx_f. */
  predicate SameTokens(r: Records, r': Records) {
    r' == r.(taken := r'.taken, freed := r'.freed, found := r'.found, delivered := r'.delivered)
  }

  lemma TokensKeep(r: Records, r': Records, line: seq<Request>, p: TxPhase)
    requires LineOk(r, line) && FiredOk(r, p) && SameTokens(r, r')
    ensures LineOk(r', line) && FiredOk(r', p)
  {
  }

  lemma AlikeKeeps(c: Config, s: State, s': State)
    requires RecordsOk(c, s) && s'.call == s.call && Alike(s.w0, s'.w0) && Alike(s.w1, s'.w1)
    requires SameTokens(s.rec, s'.rec)
    ensures RecordsOk(c, s')
  {
    hide OwnersOk, LineOk, FiredOk;
    TokensKeep(s.rec, s'.rec, Requests(TxWk(c, s)), PhaseOf(TxWk(c, s).pc));
  }

  lemma QuietIsAlike(w: Worker, pc: Pc)
    requires !w.pc.RunTx? && !pc.RunTx?
    ensures Alike(w, w.(pc := pc))
  {
  }

  /** Queueing a job that is not a tx_f. */
  lemma PostIsAlike(w: Worker, job: Job, pc: Pc)
    requires !job.TxF? && (pc == w.pc || (!w.pc.RunTx? && !pc.RunTx?))
    ensures Alike(w, w.(queue := w.queue + [job], pc := pc))
  {
    RequestsAppend(w.queue, job);
  }

  lemma FetchedRequests(w: Worker)
    requires w.pc.Ready? && w.queue != []
    ensures Requests(w.(queue := w.queue[1..], pc := Entry(w.queue[0]))) == Requests(w)
  {
  }

  lemma FetchKeepsRecords(c: Config, s: State, i: nat)
    requires i < 2 && RecordsOk(c, s) && Wk(s, i).pc.Ready? && Fetch(s, i).Some?
    ensures RecordsOk(c, Fetch(s, i).value)
  {
    hide OwnersOk, LineOk;
    FetchedRequests(Wk(s, i));
  }

  // ---------------------------------------------------------------- the tx pool is created

  /** When tx's starter runs, nothing of an earlier cycle is left: no client owns a token of this cycle yet, no token
      call is in progress, and no tx_f is queued or running. */
  lemma CreateFindsNoReference(c: Config, s: State, i: nat)
    requires i < 2 && CycleOk(c, s) && Wk(s, i).pc == Start(Create, Tx)
    ensures s.rec.held == {} && s.call.NoCall? && s.w0.call.NoCall? && s.w1.call.NoCall? && !s.txPool
    ensures TxWk(c, s) == Wk(s, i) && Count(Wk(s, i).queue, KWork(Tx)) == 0
  {
  }

  lemma {:induction false} NoWorkNoRequests(q: seq<Job>)
    requires Count(q, KWork(Tx)) == 0
    ensures QueueRequests(q) == []
  {
    if q != [] {
      NoWorkNoRequests(q[1..]);
    }
  }

  lemma CreateKeepsRecords(c: Config, s: State, i: nat)
    requires i < 2 && CycleOk(c, s) && RecordsOk(c, s) && Wk(s, i).pc == Start(Create, Tx)
    ensures RecordsOk(c, StartStep(c, s, i, Create, Tx))
    ensures |s.rec.dropped| == s.rec.nextId
  {
    hide CycleOk;
    CreateFindsNoReference(c, s, i);
    NoWorkNoRequests(Wk(s, i).queue);
  }

  // ---------------------------------------------------------------- tx_f

  lemma LoadKeepsFired(r: Records, line: seq<Request>, pass: bool)
    requires line != [] && LineOk(r, line) && FiredOk(r, InTx(TxLoad))
    ensures FiredOk(r.(passed := if pass then r.passed + {line[0].id} else r.passed),
                    InTx(if pass then TxWrite else TxFree))
  {
  }

  lemma WriteKeepsFired(r: Records, line: seq<Request>)
    requires line != [] && LineOk(r, line) && FiredOk(r, InTx(TxWrite))
    ensures FiredOk(r.(written := r.written + [line[0].id],
                       fired := if line[0].hasFn then r.fired + [line[0].id] else r.fired),
                    InTx(if line[0].hasFn then TxCallback else TxFree))
  {
    assert forall j :: 0 <= j < |r.fired| ==> r.fired[j] in r.fired;
    assert forall j :: 0 <= j < |r.written| ==> r.written[j] in r.written;
  }

  lemma FreeKeepsFired(r: Records, line: seq<Request>, out: map<nat, Owner>)
    requires line != [] && LineOk(r, line) && FiredOk(r, InTx(TxFree))
    ensures FiredOk(r.(out := out, dropped := r.dropped + [line[0].id]), NotInTx)
  {
  }

  lemma FreeKeepsLine(r: Records, line: seq<Request>)
    requires line != [] && LineOk(r, line)
    ensures LineOk(r.(out := r.out - {line[0].tok}, dropped := r.dropped + [line[0].id]), line[1..])
  {
  }

  lemma ReturnKeepsFired(r: Records)
    requires FiredOk(r, InTx(TxCallback))
    ensures FiredOk(r, InTx(TxFree))
  {
  }

  /** tx_f goes on to `stage` with the records extended to `r`. */
  lemma StageKeepsRecords(c: Config, s: State, i: nat, stage: TxStage, r: Records)
    requires i < 2 && i == WorkerOf(c, Tx) && RecordsOk(c, s) && Wk(s, i).pc.RunTx?
    requires r == s.rec.(passed := r.passed, fired := r.fired, written := r.written) && FiredOk(r, InTx(stage))
    ensures RecordsOk(c, WithPc(s.(rec := r), i, RunTx(stage, Wk(s, i).pc.req)))
  {
    hide FiredOk, OwnersOk;
    var w, s' := Wk(s, i), WithPc(s.(rec := r), i, RunTx(stage, Wk(s, i).pc.req));
    assert TxWk(c, s') == w.(pc := RunTx(stage, w.pc.req)) && s'.w0.call == s.w0.call && s'.w1.call == s.w1.call;
    assert Requests(TxWk(c, s')) == Requests(w);
    assert LineOk(r, Requests(w));
  }

  lemma FreeKeepsOwners(out: map<nat, Owner>, held: set<nat>, call0: Call, call1: Call, call2: Call, tok: nat)
    requires OwnersOk(out, held, call0, call1, call2) && tok in out && out[tok].Accepted?
    ensures OwnersOk(out - {tok}, held, call0, call1, call2)
  {
  }

  lemma FreeKeepsRecords(c: Config, s: State, i: nat, req: Request)
    requires i < 2 && i == WorkerOf(c, Tx) && RecordsOk(c, s) && Wk(s, i).pc == RunTx(TxFree, req)
    ensures RecordsOk(c, TxStep(c, s, i, TxFree, req, Go).value)
    ensures req.tok in s.rec.out && req.id == |s.rec.dropped|
  {
    hide FiredOk;
    var line, s' := Requests(Wk(s, i)), TxStep(c, s, i, TxFree, req, Go).value;
    assert TxWk(c, s') == Wk(s, i).(pc := Ready) && s'.w0.call == s.w0.call && s'.w1.call == s.w1.call;
    assert line[0] == req && Requests(TxWk(c, s')) == line[1..];
    FreeKeepsFired(s.rec, line, s.rec.out - {req.tok});
    FreeKeepsLine(s.rec, line);
    FreeKeepsOwners(s.rec.out, s.rec.held, s.w0.call, s.w1.call, s.call, req.tok);
  }

  lemma LoadKeepsRecords(c: Config, s: State, i: nat, req: Request)
    requires i < 2 && i == WorkerOf(c, Tx) && RecordsOk(c, s) && Wk(s, i).pc == RunTx(TxLoad, req)
    ensures RecordsOk(c, TxStep(c, s, i, TxLoad, req, Go).value)
  {
    hide OwnersOk, LineOk, FiredOk, WithPc;
    assert Requests(Wk(s, i))[0] == req;
    if s.stream.Initialized? {
      LoadKeepsFired(s.rec, Requests(Wk(s, i)), true);
      StageKeepsRecords(c, s, i, TxWrite, s.rec.(passed := s.rec.passed + {req.id}));
    } else {
      LoadKeepsFired(s.rec, Requests(Wk(s, i)), false);
      StageKeepsRecords(c, s, i, TxFree, s.rec);
    }
  }

  lemma WriteKeepsRecords(c: Config, s: State, i: nat, req: Request)
    requires i < 2 && i == WorkerOf(c, Tx) && RecordsOk(c, s) && Wk(s, i).pc == RunTx(TxWrite, req)
    ensures RecordsOk(c, TxStep(c, s, i, TxWrite, req, Go).value)
  {
    hide OwnersOk, LineOk, FiredOk, WithPc;
    assert Requests(Wk(s, i))[0] == req;
    WriteKeepsFired(s.rec, Requests(Wk(s, i)));
    if req.hasFn {
      StageKeepsRecords(c, s, i, TxCallback,
                        s.rec.(written := s.rec.written + [req.id], fired := s.rec.fired + [req.id]));
    } else {
      StageKeepsRecords(c, s, i, TxFree, s.rec.(written := s.rec.written + [req.id]));
    }
  }

  lemma TxKeepsRecords(c: Config, s: State, i: nat, stage: TxStage, req: Request, choice: Choice)
    requires i < 2 && i == WorkerOf(c, Tx) && RecordsOk(c, s) && Wk(s, i).pc == RunTx(stage, req)
    requires !choice.Client? && TxStep(c, s, i, stage, req, choice).Some?
    ensures RecordsOk(c, TxStep(c, s, i, stage, req, choice).value)
  {
    match stage
    case TxLoad => LoadKeepsRecords(c, s, i, req);
    case TxWrite => WriteKeepsRecords(c, s, i, req);
    case TxCallback =>
      ReturnKeepsFired(s.rec);
      StageKeepsRecords(c, s, i, TxFree, s.rec);
    case TxFree => FreeKeepsRecords(c, s, i, req);
  }

  // ---------------------------------------------------------------- token calls

  function CallOf(call0: Call, call1: Call, call2: Call, thread: nat): Call {
    if thread == 0 then call0 else if thread == 1 then call1 else call2
  }

  /** The three calls in progress after thread `thread` has gone on to `call`. */
  ghost predicate OwnersOkAfter(r: Records, call0: Call, call1: Call, call2: Call, thread: nat, call: Call) {
    OwnersOk(r.out, r.held, if thread == 0 then call else call0, if thread == 1 then call else call1,
             if thread == 2 then call else call2)
  }

  lemma TokenStays(out: map<nat, Owner>, j: nat, call: Call, thread: nat, tok: nat, owner: Owner, call': Call)
    requires CallTokenOk(out, j, call) && (tok in out ==> out[tok] == Owned || out[tok] == Caller(thread))
    requires call'.SendOpened? || call'.SendChecked? ==> call'.tok == tok && owner == Caller(thread)
    ensures CallTokenOk(out[tok := owner], j, if thread == j then call' else call)
  {
  }

  /** A free token, one a client owns, or the one of the thread's own call gets a new owner. */
  lemma OwnerChanges(r: Records, call0: Call, call1: Call, call2: Call, thread: nat, tok: nat, owner: Owner,
                     r': Records, call': Call)
    requires thread < 3 && OwnersOk(r.out, r.held, call0, call1, call2)
    requires tok in r.out ==> r.out[tok] == Owned || r.out[tok] == Caller(thread)
    requires r'.out == r.out[tok := owner] && r'.held == (if owner == Owned then r.held + {tok} else r.held - {tok})
    requires call'.SendOpened? || call'.SendChecked? ==> call'.tok == tok && owner == Caller(thread)
    ensures OwnersOkAfter(r', call0, call1, call2, thread, call')
  {
    TokenStays(r.out, 0, call0, thread, tok, owner, call');
    TokenStays(r.out, 1, call1, thread, tok, owner, call');
    TokenStays(r.out, 2, call2, thread, tok, owner, call');
    hide CallTokenOk;
  }

  lemma TokenStepKeepsOwners(r: Records, stopped: bool, up: bool, pool: bool, call0: Call, call1: Call, call2: Call,
                             thread: nat, op: ClientOp, r': Records, call': Call)
    requires thread < 3 && OwnersOk(r.out, r.held, call0, call1, call2)
    requires TokenStep(r, stopped, up, pool, thread, CallOf(call0, call1, call2, thread), op) == Some((r', call'))
    ensures OwnersOkAfter(r', call0, call1, call2, thread, call')
  {
    var call := CallOf(call0, call1, call2, thread);
    if r' == r {
      assert CallTokenOk(r.out, thread, call');
    } else {
      hide OwnersOkAfter;
      var tok := if call.Allocating? || call.NoCall? then op.tok else call.tok;
      OwnerChanges(r, call0, call1, call2, thread, tok, r'.out[tok], r', call');
    }
  }

  /** A step changes owners only of tokens that no acceptance owns. */
  lemma TokenStepKeepsLine(r: Records, stopped: bool, up: bool, pool: bool, line: seq<Request>,
                           thread: nat, call: Call, op: ClientOp, r': Records, call': Call)
    requires CallTokenOk(r.out, thread, call)
    requires forall tok: nat :: tok in r.held ==> tok in r.out && r.out[tok] == Owned
    requires LineOk(r, line) && TokenStep(r, stopped, up, pool, thread, call, op) == Some((r', call'))
    ensures op.SendPost? ==> call.SendChecked? && LineOk(r', line + [Request(call.tok, r.nextId, op.hasFn)])
    ensures !op.SendPost? ==> LineOk(r', line)
  {
  }

  lemma TokenStepKeepsFired(r: Records, stopped: bool, up: bool, pool: bool, line: seq<Request>, p: TxPhase,
                            thread: nat, call: Call, op: ClientOp, r': Records, call': Call)
    requires LineOk(r, line) && FiredOk(r, p) && (p.InTx? ==> line != [])
    requires TokenStep(r, stopped, up, pool, thread, call, op) == Some((r', call'))
    ensures FiredOk(r', p)
  {
  }

  lemma PostedLine(w: Worker, req: Request)
    ensures Requests(w.(queue := w.queue + [TxF(req)])) == Requests(w) + [req]
  {
    RequestsAppend(w.queue, TxF(req));
  }

  /** Accepting a token puts its request at the end of the tx worker's line and changes nothing else of the workers. */
  lemma ClientStepLine(c: Config, s: State, thread: nat, call: Call, op: ClientOp, s': State, call': Call)
    requires ClientStep(c, s, thread, call, op) == Some((s', call'))
    ensures TokenStep(s.rec, s.stopped, s.tx.Initialized?, s.txPool, thread, call, op) == Some((s'.rec, call'))
    ensures forall j :: 0 <= j < 2 ==> Wk(s', j).call == Wk(s, j).call && Wk(s', j).pc == Wk(s, j).pc
    ensures s'.call == s.call && TxWk(c, s').pc == TxWk(c, s).pc
    ensures call.SendChecked? && op.SendPost? ==>
      Requests(TxWk(c, s')) == Requests(TxWk(c, s)) + [Request(call.tok, s.rec.nextId, op.hasFn)]
    ensures !op.SendPost? ==> Requests(TxWk(c, s')) == Requests(TxWk(c, s))
  {
    if op.SendPost? {
      PostedLine(TxWk(c, s), Request(call.tok, s.rec.nextId, op.hasFn));
    }
  }

  lemma TokenStepKeeps(r: Records, stopped: bool, up: bool, pool: bool, call0: Call, call1: Call, call2: Call,
                       line: seq<Request>, p: TxPhase, thread: nat, op: ClientOp, r': Records, call': Call)
    requires thread < 3 && OwnersOk(r.out, r.held, call0, call1, call2) && LineOk(r, line) && FiredOk(r, p)
    requires p.InTx? ==> line != []
    requires TokenStep(r, stopped, up, pool, thread, CallOf(call0, call1, call2, thread), op) == Some((r', call'))
    ensures OwnersOkAfter(r', call0, call1, call2, thread, call') && FiredOk(r', p)
    ensures
      var call := CallOf(call0, call1, call2, thread);
      if op.SendPost? then call.SendChecked? && LineOk(r', line + [Request(call.tok, r.nextId, op.hasFn)])
      else LineOk(r', line)
  {
    hide OwnersOkAfter, FiredOk, TokenStep;
    var call := CallOf(call0, call1, call2, thread);
    TokenStepKeepsOwners(r, stopped, up, pool, call0, call1, call2, thread, op, r', call');
    TokenStepKeepsLine(r, stopped, up, pool, line, thread, call, op, r', call');
    TokenStepKeepsFired(r, stopped, up, pool, line, p, thread, call, op, r', call');
  }

  /** The records are in order once thread `thread` has gone on to `call`. */
  ghost predicate ReadyFor(c: Config, s: State, thread: nat, call: Call) {
    && OwnersOkAfter(s.rec, s.w0.call, s.w1.call, s.call, thread, call)
    && LineOk(s.rec, Requests(TxWk(c, s))) && FiredOk(s.rec, PhaseOf(TxWk(c, s).pc))
  }

  lemma ClientKeepsRecords(c: Config, s: State, thread: nat, op: ClientOp, s': State, call': Call)
    requires thread < 3 && RecordsOk(c, s)
    requires ClientStep(c, s, thread, CallOf(s.w0.call, s.w1.call, s.call, thread), op) == Some((s', call'))
    ensures ReadyFor(c, s', thread, call')
  {
    hide OwnersOk, LineOk, FiredOk, TokenStep, OwnersOkAfter;
    var call, r, w := CallOf(s.w0.call, s.w1.call, s.call, thread), s.rec, TxWk(c, s);
    ClientStepLine(c, s, thread, call, op, s', call');
    TokenStepKeeps(r, s.stopped, s.tx.Initialized?, s.txPool, s.w0.call, s.w1.call, s.call, Requests(w), PhaseOf(w.pc),
                   thread, op, s'.rec, call');
  }

  lemma SetCallKeepsRecords(c: Config, s: State, i: nat, call: Call)
    requires i < 2 && ReadyFor(c, s, i, call)
    ensures RecordsOk(c, WithWk(s, i, Wk(s, i).(call := call)))
  {
    hide LineOk, FiredOk;
    var s' := WithWk(s, i, Wk(s, i).(call := call));
    assert Requests(TxWk(c, s')) == Requests(TxWk(c, s)) && TxWk(c, s').pc == TxWk(c, s).pc;
  }

  lemma CallbackKeepsRecords(c: Config, s: State, i: nat, op: ClientOp, s': State)
    requires i < 2 && RecordsOk(c, s) && CallbackStep(c, s, i, op) == Some(s')
    ensures RecordsOk(c, s')
  {
    hide RecordsOk, ReadyFor, TokenStep;
    var (s1, call') := ClientStep(c, s, i, Wk(s, i).call, op).value;
    ClientKeepsRecords(c, s, i, op, s1, call');
    SetCallKeepsRecords(c, s1, i, call');
  }

  lemma ControlClientKeepsRecords(c: Config, s: State, op: ClientOp, s': State)
    requires RecordsOk(c, s) && Step(c, s, ControlClient(op)) == Some(s')
    ensures RecordsOk(c, s')
  {
    hide OwnersOk, LineOk, FiredOk;
    var (s1, call') := ClientStep(c, s, 2, s.call, op).value;
    ClientKeepsRecords(c, s, 2, op, s1, call');
  }

  // ---------------------------------------------------------------- all steps

  lemma StartKeepsRecords(c: Config, s: State, i: nat, stage: StartStage, ch: Channel)
    requires i < 2 && CycleOk(c, s) && RecordsOk(c, s) && Wk(s, i).pc == Start(stage, ch)
    ensures RecordsOk(c, StartStep(c, s, i, stage, ch))
  {
    hide RecordsOk, ChannelsOk, GlobalOk;
    var s' := StartStep(c, s, i, stage, ch);
    if stage.Create? && ch.Tx? {
      CreateKeepsRecords(c, s, i);
    } else if stage.PostRx? {
      PostIsAlike(s.w0, RxF(s.rxGen), Wk(s', i).pc);
      AlikeKeeps(c, s, s');
    } else {
      QuietIsAlike(Wk(s, i), Wk(s', i).pc);
      AlikeKeeps(c, s, s');
    }
  }

  lemma RxKeepsRecords(c: Config, s: State, i: nat, stage: RxStage, gen: nat, choice: Choice)
    requires i < 2 && CycleOk(c, s) && RecordsOk(c, s) && Wk(s, i).pc == RunRx(stage, gen)
    requires !choice.Client? && RxStep(c, s, i, stage, gen, choice).Some?
    ensures RecordsOk(c, RxStep(c, s, i, stage, gen, choice).value)
  {
    hide RecordsOk, ChannelsOk, GlobalOk;
    var s' := RxStep(c, s, i, stage, gen, choice).value;
    if stage.RxRepost? || stage.RxRepostEmpty? {
      PostIsAlike(s.w0, RxF(s.rxGen), Wk(s', i).pc);
    } else {
      QuietIsAlike(Wk(s, i), Wk(s', i).pc);
    }
    AlikeKeeps(c, s, s');
  }

  lemma FinishKeepsRecords(c: Config, s: State, i: nat, stage: FinishStage, ch: Channel)
    requires i < 2 && RecordsOk(c, s) && Wk(s, i).pc == Finish(stage, ch)
    ensures RecordsOk(c, FinishStep(c, s, i, stage, ch))
  {
    hide RecordsOk;
    var s' := FinishStep(c, s, i, stage, ch);
    QuietIsAlike(Wk(s, i), Wk(s', i).pc);
    AlikeKeeps(c, s, s');
  }

  lemma TxRunsOnItsWorker(c: Config, s: State, i: nat)
    requires i < 2 && CycleOk(c, s) && Wk(s, i).pc.RunTx?
    ensures i == WorkerOf(c, Tx)
  {
    hide ChannelsOk, GlobalOk;
  }

  lemma WorkKeepsRecords(c: Config, s: State, i: nat, choice: Choice)
    requires i < 2 && CycleOk(c, s) && RecordsOk(c, s) && WorkStep(c, s, i, choice).Some?
    ensures RecordsOk(c, WorkStep(c, s, i, choice).value)
  {
    hide CycleOk, RecordsOk;
    var s' := WorkStep(c, s, i, choice).value;
    match Wk(s, i).pc
    case Ready => FetchKeepsRecords(c, s, i);
    case Start(stage, ch) => StartKeepsRecords(c, s, i, stage, ch);
    case Finish(stage, ch) => FinishKeepsRecords(c, s, i, stage, ch);
    case RunRx(stage, gen) =>
      if choice.Client? {
        CallbackKeepsRecords(c, s, i, choice.op, s');
      } else {
        RxKeepsRecords(c, s, i, stage, gen, choice);
      }
    case RunTx(stage, req) =>
      if choice.Client? {
        CallbackKeepsRecords(c, s, i, choice.op, s');
      } else {
        TxRunsOnItsWorker(c, s, i);
        TxKeepsRecords(c, s, i, stage, req, choice);
      }
  }

  lemma ControlPostKeepsRecords(c: Config, s: State, ch: Channel, job: Job, s': State)
    requires RecordsOk(c, s) && !job.TxF? && s' == Post(c, s, ch, job).(rxAt := s'.rxAt, txAt := s'.txAt)
    ensures RecordsOk(c, s')
  {
    hide RecordsOk;
    var i := WorkerOf(c, ch);
    PostIsAlike(Wk(s, i), job, Wk(s, i).pc);
    AlikeKeeps(c, s, s');
  }

  lemma StartingKeepsRecords(c: Config, s: State, s': State)
    requires RecordsOk(c, s) && StartingStep(c, s) == Some(s')
    ensures RecordsOk(c, s')
  {
    hide RecordsOk, Post;
    if s.cleared && s.rxAt.Pending? {
      ControlPostKeepsRecords(c, s, Rx, Starter(Rx), s');
    } else if s.cleared && s.rxAt.Done? && s.txAt.Pending? {
      ControlPostKeepsRecords(c, s, Tx, Starter(Tx), s');
    } else {
      StartingFrame(c, s, s');
      AlikeKeeps(c, s, s');
    }
  }

  lemma StoppingKeepsRecords(c: Config, s: State, s': State)
    requires RecordsOk(c, s) && StoppingStep(c, s) == Some(s')
    ensures RecordsOk(c, s')
  {
    hide RecordsOk, Post;
    if s.cleared && s.stopped && s.rxAt.Pending? {
      ControlPostKeepsRecords(c, s, Rx, Finisher(Rx), s');
    } else if s.cleared && s.stopped && s.rxAt.Done? && s.txAt.Pending? {
      ControlPostKeepsRecords(c, s, Tx, Finisher(Tx), s');
    } else {
      StoppingFrame(c, s, s');
      AlikeKeeps(c, s, s');
    }
  }

  lemma BeginFrame(c: Config, s: State, a: Action, s': State)
    requires (a.CallStart? || a.CallStop?) && Step(c, s, a) == Some(s')
    ensures s'.w0 == s.w0 && s'.w1 == s.w1 && s'.call == s.call
    ensures s'.rec == s.rec.(held := s'.rec.held) && s'.rec.held <= s.rec.held
  {
  }

  /** A client may forget what it owns, as it does when a cycle begins. */
  lemma ForgettingKeepsRecords(c: Config, s: State, s': State)
    requires RecordsOk(c, s) && s'.w0 == s.w0 && s'.w1 == s.w1 && s'.call == s.call
    requires s'.rec == s.rec.(held := s'.rec.held) && s'.rec.held <= s.rec.held
    ensures RecordsOk(c, s')
  {
    hide Requests, PhaseOf, CallTokenOk;
  }

  lemma ForeignKeepsRecords(c: Config, s: State, i: nat, s': State)
    requires RecordsOk(c, s) && Step(c, s, PostForeign(i)) == Some(s')
    ensures RecordsOk(c, s')
  {
    hide RecordsOk;
    PostIsAlike(Wk(s, i), Foreign, Wk(s, i).pc);
    AlikeKeeps(c, s, s');
  }

  lemma StepKeepsRecords(c: Config, s: State, a: Action)
    requires CycleOk(c, s) && RecordsOk(c, s) && Step(c, s, a).Some?
    ensures RecordsOk(c, Step(c, s, a).value)
  {
    hide CycleOk, RecordsOk;
    var s' := Step(c, s, a).value;
    match a
    case CallStart =>
      BeginFrame(c, s, a, s');
      ForgettingKeepsRecords(c, s, s');
    case CallStop =>
      BeginFrame(c, s, a, s');
      ForgettingKeepsRecords(c, s, s');
    case Control =>
      if s.mode.Starting? {
        StartingKeepsRecords(c, s, s');
      } else {
        StoppingKeepsRecords(c, s, s');
      }
    case ControlClient(op) => ControlClientKeepsRecords(c, s, op, s');
    case Work(i, choice) => WorkKeepsRecords(c, s, i, choice);
    case PostForeign(i) => ForeignKeepsRecords(c, s, i, s');
  }

  lemma StepKeepsInv(c: Config, s: State, a: Action)
    requires Inv(c, s) && Step(c, s, a).Some?
    ensures Inv(c, Step(c, s, a).value)
  {
    hide CycleOk, RecordsOk, DeliveryOk, Step;
    StepKeepsCycle(c, s, a);
    StepKeepsRecords(c, s, a);
    AsyncioDelivery.StepKeepsDelivery(c, s, a);
  }
}
