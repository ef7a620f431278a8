/** What single steps of the asyncio stream leave alone. */
module AsyncioFrames {
  import opened Basics
  import opened AsyncioModel

  lemma PostFrame(c: Config, s: State, ch: Channel, job: Job)
    ensures
      var s' := Post(c, s, ch, job);
      && s'.rec == s.rec && s'.mode == s.mode && s'.w0.pc == s.w0.pc && s'.w1.pc == s.w1.pc
  {
  }

  lemma StartingFrame(c: Config, s: State, s': State)
    requires StartingStep(c, s) == Some(s') && !(s.cleared && !s.rxAt.Todo? && (s.rxAt.Pending? || s.txAt.Pending?))
    ensures s'.rec == s.rec && s'.w0 == s.w0 && s'.w1 == s.w1 && s'.call == s.call
  {
    hide Post;
  }

  lemma StartingLeaves(c: Config, s: State, s': State)
    requires StartingStep(c, s) == Some(s')
    ensures s'.rec == s.rec && s'.w0.pc == s.w0.pc && s'.w1.pc == s.w1.pc
  {
    hide Post;
    if s.cleared && !s.rxAt.Todo? && (s.rxAt.Pending? || s.txAt.Pending?) {
      PostFrame(c, s, Rx, Starter(Rx));
      PostFrame(c, s, Tx, Starter(Tx));
    } else {
      StartingFrame(c, s, s');
    }
  }

  lemma StoppingFrame(c: Config, s: State, s': State)
    requires StoppingStep(c, s) == Some(s')
    requires !(s.cleared && s.stopped && !s.rxAt.Todo? && (s.rxAt.Pending? || s.txAt.Pending?))
    ensures s'.rec == s.rec && s'.w0 == s.w0 && s'.w1 == s.w1 && s'.call == s.call
  {
    hide Post;
  }

  lemma StoppingLeaves(c: Config, s: State, s': State)
    requires StoppingStep(c, s) == Some(s')
    ensures s'.rec == s.rec && s'.w0.pc == s.w0.pc && s'.w1.pc == s.w1.pc
  {
    hide Post;
    if s.cleared && s.stopped && !s.rxAt.Todo? && (s.rxAt.Pending? || s.txAt.Pending?) {
      PostFrame(c, s, Rx, Finisher(Rx));
      PostFrame(c, s, Tx, Finisher(Tx));
    } else {
      StoppingFrame(c, s, s');
    }
  }

  /** A worker goes on to `pc`; `s1` is what else the step has come to. */
  lemma MovesOn(s: State, s1: State, i: nat, pc: Pc, s': State)
    requires i < 2 && s1.rec == s.rec && s1.w0.pc == s.w0.pc && s1.w1.pc == s.w1.pc && s' == WithPc(s1, i, pc)
    ensures s'.rec == s.rec && Wk(s', 1 - i).pc == Wk(s, 1 - i).pc && Wk(s', i).pc == pc
  {
  }

  /** starter_f records nothing but a new pool. */
  lemma CreateLeaves(c: Config, s: State, i: nat, ch: Channel, s': State)
    requires i < 2 && s' == StartStep(c, s, i, Create, ch)
    ensures s'.rec == s.rec.(out := s'.rec.out) && Wk(s', 1 - i).pc == Wk(s, 1 - i).pc && Wk(s', i).pc.Start?
  {
  }

  lemma StartedLeaves(c: Config, s: State, i: nat, stage: StartStage, ch: Channel, s': State)
    requires i < 2 && s' == StartStep(c, s, i, stage, ch)
    requires !stage.Create?
    ensures s'.rec == s.rec && Wk(s', 1 - i).pc == Wk(s, 1 - i).pc
    ensures Wk(s', i).pc.Start? || Wk(s', i).pc.Ready?
  {
    hide WithPc, WithPool, Wk, Post;
    match stage
    case Publish => MovesOn(s, WithChan(s, ch, Initialized), i, Start(if ch.Rx? then PostRx else SeeRx, ch), s');
    case PostRx =>
      PostFrame(c, s, Rx, RxF(s.rxGen));
      MovesOn(s, Post(c, s, Rx, RxF(s.rxGen)), i, Start(SeeRx, ch), s');
    case SeeRx => MovesOn(s, s, i, if !c.rxOn || s.rx.Initialized? then Start(SeeTx, ch) else Ready, s');
    case SeeTx => MovesOn(s, s, i, if !c.txOn || s.tx.Initialized? then Start(SetUp, ch) else Ready, s');
    case SetUp => MovesOn(s, s.(stream := Initialized), i, Start(TellUp, ch), s');
    case TellUp => MovesOn(s, s.(startedFlag := true), i, Ready, s');
  }

  lemma StartLeaves(c: Config, s: State, i: nat, stage: StartStage, ch: Channel, s': State)
    requires i < 2 && s' == StartStep(c, s, i, stage, ch)
    ensures s'.rec == s.rec.(out := s'.rec.out) && Wk(s', 1 - i).pc == Wk(s, 1 - i).pc
    ensures Wk(s', i).pc.Start? || Wk(s', i).pc.Ready?
  {
    hide StartStep, Wk;
    if stage.Create? {
      CreateLeaves(c, s, i, ch, s');
    } else {
      StartedLeaves(c, s, i, stage, ch, s');
    }
  }

  lemma FinishLeaves(c: Config, s: State, i: nat, stage: FinishStage, ch: Channel, s': State)
    requires i < 2 && s' == FinishStep(c, s, i, stage, ch)
    ensures s'.rec == s.rec && Wk(s', 1 - i).pc == Wk(s, 1 - i).pc
    ensures Wk(s', i).pc.Finish? || Wk(s', i).pc.Ready?
  {
    hide WithPc, Wk;
    match stage
    case FinishCas =>
      var won := Chan(s, ch).Uninitializing?;
      MovesOn(s, WithChan(s, ch, if won then Uninitialized else Chan(s, ch)), i,
              Finish(if won then Destroy else CheckRx, ch), s');
    case Destroy => MovesOn(s, WithPool(s, ch, false), i, Finish(CheckRx, ch), s');
    case CheckRx => MovesOn(s, s, i, if s.rx.Uninitialized? then Finish(CheckTx, ch) else Ready, s');
    case CheckTx => MovesOn(s, s, i, if s.tx.Uninitialized? then Finish(SetDown, ch) else Ready, s');
    case SetDown => MovesOn(s, s.(stream := Uninitialized), i, Finish(TellDown, ch), s');
    case TellDown => MovesOn(s, s.(stoppedFlag := true), i, Ready, s');
  }
}
