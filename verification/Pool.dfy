/** Every interleaving of pool clients keeps each block in exactly one place. */
module PoolProofs {
  import opened Basics
  import opened PoolModel

  lemma {:induction false} OutstandingUpdate<D>(threads: seq<Thread<D>>, t: nat, th: Thread<D>, b: nat)
    requires t < |threads|
    ensures Outstanding(threads[t := th], b) + threads[t].refs[b] == Outstanding(threads, b) + th.refs[b]
    ensures Outstanding(threads, b) >= threads[t].refs[b]
  {
    if t == 0 {
      assert threads[t := th][1..] == threads[1..];
    } else {
      assert threads[t := th][1..] == threads[1..][t - 1 := th];
      OutstandingUpdate(threads[1..], t - 1, th, b);
    }
  }

  // ---------------------------------------------------------------- one thread goes on

  predicate SameSizes<D>(s: State<D>, s': State<D>) {
    Shaped(s.mem, |s.due|) && Shaped(s'.mem, |s.due|) && |s.ran| == |s.due| == |s'.due| == |s'.ran|
  }

  /** Nothing that concerns block `b` changes when thread `t` becomes `th`. */
  ghost predicate Same<D>(s: State<D>, s': State<D>, t: nat, th: Thread<D>, b: nat)
    requires t < |s.threads| && SameSizes(s, s') && b < |s.due|
  {
    && s'.due[b] == s.due[b] && s'.ran[b] == s.ran[b]
    && s'.mem.cnt[b] == s.mem.cnt[b] && s'.mem.dtor[b] == s.mem.dtor[b] && (b in s'.mem.free <==> b in s.mem.free)
    && th.refs[b] == s.threads[t].refs[b] && (InTransit(th, b) <==> InTransit(s.threads[t], b))
    && (th.pc == Zero(b) <==> s.threads[t].pc == Zero(b))
  }

  lemma OtherBlock<D>(s: State<D>, s': State<D>, t: nat, th: Thread<D>, b: nat)
    requires t < |s.threads| && SameSizes(s, s') && b < |s.due| && s'.threads == s.threads[t := th]
    requires BlockOk(s, b) && Same(s, s', t, th, b)
    ensures BlockOk(s', b)
  {
    OutstandingUpdate(s.threads, t, th, b);
    forall u | 0 <= u < |s.threads|
      ensures InTransit(s'.threads[u], b) <==> InTransit(s.threads[u], b)
      ensures s'.threads[u].pc == Zero(b) <==> s.threads[u].pc == Zero(b)
    {
    }
  }

  /** No thread other than `t` has block `b` in transit. */
  ghost predicate OnlyBy<D>(s: State<D>, t: nat, b: nat) {
    forall u :: 0 <= u < |s.threads| && u != t ==> !InTransit(s.threads[u], b)
  }

  lemma PlacedIsNotCarried<D>(s: State<D>, t: nat, b: nat)
    requires Inv(s) && t < |s.threads| && b < |s.due| && (b in s.mem.free || s.mem.cnt[b] > 0)
    ensures OnlyBy(s, t, b) && !InTransit(s.threads[t], b)
  {
    hide ThreadsOk;
    assert BlockOk(s, b);
  }

  lemma CarriedIsNotPlaced<D>(s: State<D>, t: nat)
    requires Inv(s) && t < |s.threads|
    requires s.threads[t].pc.Taken? || s.threads[t].pc.Zero? || s.threads[t].pc.Returning?
    ensures
      var b := s.threads[t].pc.b;
      b < |s.due| && OnlyBy(s, t, b) && s.mem.cnt[b] == 0 && b !in s.mem.free
  {
    var b := s.threads[t].pc.b;
    assert InTransit(s.threads[t], b) && BlockOk(s, b);
  }

  lemma OwnedIsHeld<D>(s: State<D>, t: nat, b: nat)
    requires Inv(s) && t < |s.threads| && b in s.threads[t].refs
    ensures b < |s.due| && s.mem.cnt[b] >= s.threads[t].refs[b] > 0
  {
    OutstandingUpdate(s.threads, t, s.threads[t], b);
    assert BlockOk(s, b);
  }

  /** Destructor runs still due for `b`, if only thread `t` can be about to make one. */
  ghost function Owed<D>(th: Thread<D>, d: Option<D>, b: nat): nat {
    if th.pc == Zero(b) && d.Some? then 1 else 0
  }

  lemma OwedBefore<D>(s: State<D>, t: nat, b: nat)
    requires Inv(s) && t < |s.threads| && b < |s.due| && OnlyBy(s, t, b)
    ensures s.due[b] == s.ran[b] + Owed(s.threads[t], s.mem.dtor[b], b)
  {
    hide ThreadsOk, Outstanding;
    assert BlockOk(s, b);
    forall u | 0 <= u < |s.threads| && s.threads[u].pc == Zero(b) ensures u == t {
      assert InTransit(s.threads[u], b);
    }
  }

  /** What the block that a step of thread `t` is about must satisfy after it. */
  lemma OwnBlock<D>(s: State<D>, s': State<D>, t: nat, th: Thread<D>, b: nat)
    requires Inv(s) && t < |s.threads| && SameSizes(s, s') && b < |s.due| && OnlyBy(s, t, b)
    requires s'.threads == s.threads[t := th] && s'.mem.cnt[b] + s.threads[t].refs[b] == s.mem.cnt[b] + th.refs[b]
    requires b in s'.mem.free || InTransit(th, b) <==> s'.mem.cnt[b] == 0
    requires InTransit(th, b) ==> b !in s'.mem.free
    requires s'.due[b] == s'.ran[b] + Owed(th, s'.mem.dtor[b], b)
    ensures BlockOk(s', b)
  {
    hide ThreadsOk;
    assert BlockOk(s, b);
    OutstandingUpdate(s.threads, t, th, b);
    forall u | 0 <= u < |s.threads| && InTransit(s'.threads[u], b) ensures u == t {
    }
    assert InTransit(th, b) ==> InTransit(s'.threads[t], b);
  }

  lemma ThreadMoves<D>(s: State<D>, s': State<D>, t: nat, th: Thread<D>)
    requires ThreadsOk(s) && t < |s.threads| && s'.threads == s.threads[t := th] && |s'.due| == |s.due|
    requires th.pc.Idle? || th.pc.b < |s.due|
    requires th.pc.Idle? || th.pc.Installing? || OnlyBy(s, t, th.pc.b)
    requires th.pc.Installing? ==> th.pc.b in th.refs && th.pc.d.Some?
    requires forall b :: b in th.refs ==> b < |s.due|
    ensures ThreadsOk(s')
  {
  }

  /** A step of thread `t` that concerns block `own` alone. */
  lemma StepOfOne<D>(s: State<D>, s': State<D>, t: nat, th: Thread<D>, own: nat)
    requires Inv(s) && t < |s.threads| && SameSizes(s, s') && s'.threads == s.threads[t := th] && ThreadsOk(s')
    requires Distinct(s'.mem.free) && forall k :: 0 <= k < |s'.mem.free| ==> s'.mem.free[k] < |s.due|
    requires own < |s.due| && BlockOk(s', own)
    requires forall b :: 0 <= b < |s.due| && b != own ==> Same(s, s', t, th, b)
    ensures Inv(s')
  {
    hide BlockOk, Same, ThreadsOk;
    forall b | 0 <= b < |s.due|
      ensures BlockOk(s', b)
    {
      if b != own {
        assert BlockOk(s, b);
        OtherBlock(s, s', t, th, b);
      }
    }
  }

  lemma TakeKeeps<D>(s: State<D>, t: nat, d: Option<D>)
    requires Inv(s) && Step(s, AllocTake(t, d)).Some?
    ensures Inv(Step(s, AllocTake(t, d)).value)
  {
    hide BlockOk;
    var b := s.mem.free[0];
    var th := s.threads[t].(pc := Taken(b, d));
    var s' := With(s, t, th, TakeFree(s.mem));
    assert Step(s, AllocTake(t, d)) == Some(s');
    hide Step;
    assert s.mem.free == [b] + s.mem.free[1..];
    HeadIsFree(s, b);
    PlacedIsNotCarried(s, t, b);
    OwedBefore(s, t, b);
    ThreadMoves(s, s', t, th);
    OwnBlock(s, s', t, th, b);
    StepOfOne(s, s', t, th, b);
  }

  lemma HeadIsFree<D>(s: State<D>, b: nat)
    requires Inv(s) && s.mem.free != [] && b == s.mem.free[0]
    ensures b < |s.due| && s.mem.cnt[b] == 0
  {
    hide ThreadsOk;
    assert BlockOk(s, b);
  }

  lemma CountKeeps<D>(s: State<D>, t: nat)
    requires Inv(s) && Step(s, AllocCount(t)).Some?
    ensures Inv(Step(s, AllocCount(t)).value)
  {
    hide BlockOk;
    var pc := s.threads[t].pc;
    var b := pc.b;
    var th := Thread(if pc.d.Some? then Installing(b, pc.d) else Idle, s.threads[t].refs + multiset{b});
    var s' := With(s, t, th, CountUp(s.mem, b));
    assert Step(s, AllocCount(t)) == Some(s');
    hide Step;
    CarriedIsNotPlaced(s, t);
    OwedBefore(s, t, b);
    ThreadMoves(s, s', t, th);
    OwnBlock(s, s', t, th, b);
    StepOfOne(s, s', t, th, b);
  }

  /** A destructor is put on a block that thread `t`, not about to run one, has a reference to. */
  lemma InstallingKeeps<D>(s: State<D>, t: nat, b: nat, d: Option<D>)
    requires Inv(s) && t < |s.threads| && b in s.threads[t].refs && b < |s.due|
    requires s.threads[t].pc.Idle? || s.threads[t].pc.Installing?
    ensures Inv(With(s, t, s.threads[t].(pc := Idle), Install(s.mem, b, d)))
  {
    var th := s.threads[t].(pc := Idle);
    var s' := With(s, t, th, Install(s.mem, b, d));
    hide BlockOk;
    OwnedIsHeld(s, t, b);
    PlacedIsNotCarried(s, t, b);
    OwedBefore(s, t, b);
    ThreadMoves(s, s', t, th);
    HeldIsNotFree(s, b);
    OwnBlock(s, s', t, th, b);
    StepOfOne(s, s', t, th, b);
  }

  lemma HeldIsNotFree<D>(s: State<D>, b: nat)
    requires Inv(s) && b < |s.due| && s.mem.cnt[b] > 0
    ensures b !in s.mem.free
  {
    hide ThreadsOk;
    assert BlockOk(s, b);
  }

  lemma InstallKeeps<D>(s: State<D>, t: nat)
    requires Inv(s) && Step(s, AllocInstall(t)).Some?
    ensures Inv(Step(s, AllocInstall(t)).value)
  {
    hide BlockOk;
    InstallingKeeps(s, t, s.threads[t].pc.b, s.threads[t].pc.d);
  }

  lemma SetDestructorKeeps<D>(s: State<D>, t: nat, b: nat, d: Option<D>)
    requires Inv(s) && Step(s, SetDestructor(t, b, d)).Some?
    ensures Inv(Step(s, SetDestructor(t, b, d)).value)
  {
    hide BlockOk;
    assert s.threads[t].(pc := Idle) == s.threads[t];
    InstallingKeeps(s, t, b, d);
  }

  lemma RetainKeeps<D>(s: State<D>, t: nat, b: nat)
    requires Inv(s) && Step(s, Retain(t, b)).Some?
    ensures Inv(Step(s, Retain(t, b)).value)
  {
    hide BlockOk;
    var th := s.threads[t].(refs := s.threads[t].refs + multiset{b});
    var s' := With(s, t, th, CountUp(s.mem, b));
    assert Step(s, Retain(t, b)) == Some(s');
    hide Step;
    OwnedIsHeld(s, t, b);
    PlacedIsNotCarried(s, t, b);
    HeldIsNotFree(s, b);
    OwedBefore(s, t, b);
    ThreadMoves(s, s', t, th);
    OwnBlock(s, s', t, th, b);
    StepOfOne(s, s', t, th, b);
  }

  /** The thread that drops a reference, and the drops to zero that found a destructor, afterwards. */
  function Dropper<D>(s: State<D>, t: nat, b: nat): Thread<D>
    requires t < |s.threads| && b < |s.mem.cnt|
  {
    Thread(if s.mem.cnt[b] == 1 then Zero(b) else Idle, s.threads[t].refs - multiset{b})
  }

  function DueAfter<D>(s: State<D>, b: nat): seq<nat>
    requires Shaped(s.mem, |s.due|) && b < |s.due|
  {
    if s.mem.cnt[b] == 1 && s.mem.dtor[b].Some? then s.due[b := s.due[b] + 1] else s.due
  }

  lemma DropFrame<D>(s: State<D>, t: nat, b: nat)
    requires Inv(s) && Step(s, FreeDrop(t, b)).Some?
    ensures t < |s.threads| && s.threads[t].pc.Idle? && b in s.threads[t].refs && b < |s.due| && s.mem.cnt[b] > 0
    ensures Step(s, FreeDrop(t, b)) ==
      Some(With(s, t, Dropper(s, t, b), CountDown(s.mem, b)).(due := DueAfter(s, b)))
  {
    hide BlockOk, ThreadsOk;
  }

  lemma DropMovesThread<D>(s: State<D>, t: nat, b: nat, s': State<D>)
    requires ThreadsOk(s) && t < |s.threads| && b < |s.due| <= |s.mem.cnt| && OnlyBy(s, t, b)
    requires s'.threads == s.threads[t := Dropper(s, t, b)] && |s'.due| == |s.due|
    ensures ThreadsOk(s')
  {
    ThreadMoves(s, s', t, Dropper(s, t, b));
  }

  lemma DropKeeps<D>(s: State<D>, t: nat, b: nat)
    requires Inv(s) && Step(s, FreeDrop(t, b)).Some?
    ensures Inv(Step(s, FreeDrop(t, b)).value)
  {
    hide Step, BlockOk, ThreadsOk;
    DropFrame(s, t, b);
    var th := Dropper(s, t, b);
    var s' := With(s, t, th, CountDown(s.mem, b)).(due := DueAfter(s, b));
    PlacedIsNotCarried(s, t, b);
    HeldIsNotFree(s, b);
    OwedBefore(s, t, b);
    DropMovesThread(s, t, b, s');
    hide OnlyBy;
    OwnBlock(s, s', t, th, b);
    StepOfOne(s, s', t, th, b);
  }

  lemma DestroyKeeps<D>(s: State<D>, t: nat)
    requires Inv(s) && Step(s, FreeDestroy(t)).Some?
    ensures Inv(Step(s, FreeDestroy(t)).value)
  {
    hide BlockOk;
    var b := s.threads[t].pc.b;
    var th := s.threads[t].(pc := Returning(b));
    var ran := if s.mem.dtor[b].Some? then s.ran[b := s.ran[b] + 1] else s.ran;
    var s' := With(s, t, th, s.mem).(ran := ran);
    assert Step(s, FreeDestroy(t)) == Some(s') && s.threads[t].pc.Zero?;
    hide Step;
    CarriedIsNotPlaced(s, t);
    OwedBefore(s, t, b);
    ThreadMoves(s, s', t, th);
    OwnBlock(s, s', t, th, b);
    StepOfOne(s, s', t, th, b);
  }

  lemma ReturnKeeps<D>(s: State<D>, t: nat)
    requires Inv(s) && Step(s, FreeReturn(t)).Some?
    ensures Inv(Step(s, FreeReturn(t)).value)
  {
    hide BlockOk;
    var b := s.threads[t].pc.b;
    var th := s.threads[t].(pc := Idle);
    var s' := With(s, t, th, PutFree(s.mem, b));
    assert Step(s, FreeReturn(t)) == Some(s') && s.threads[t].pc.Returning?;
    hide Step;
    CarriedIsNotPlaced(s, t);
    OwedBefore(s, t, b);
    ThreadMoves(s, s', t, th);
    OwnBlock(s, s', t, th, b);
    StepOfOne(s, s', t, th, b);
  }

  // ---------------------------------------------------------------- a reference changes hands

  lemma GivenOutstanding<D>(threads: seq<Thread<D>>, t: nat, u: nat, th: Thread<D>, uh: Thread<D>, b: nat)
    requires t < |threads| && u < |threads| && t != u
    requires th.refs[b] + uh.refs[b] == threads[t].refs[b] + threads[u].refs[b]
    ensures Outstanding(threads[t := th][u := uh], b) == Outstanding(threads, b)
  {
    OutstandingUpdate(threads, t, th, b);
    OutstandingUpdate(threads[t := th], u, uh, b);
  }

  lemma SamePcsKeepBlock<D>(s: State<D>, s': State<D>, b: nat)
    requires SameSizes(s, s') && b < |s.due| && BlockOk(s, b)
    requires s'.mem == s.mem && s'.due == s.due && s'.ran == s.ran && |s'.threads| == |s.threads|
    requires forall u :: 0 <= u < |s.threads| ==> s'.threads[u].pc == s.threads[u].pc
    requires Outstanding(s'.threads, b) == Outstanding(s.threads, b)
    ensures BlockOk(s', b)
  {
    hide Outstanding;
    forall u | 0 <= u < |s.threads| ensures InTransit(s'.threads[u], b) <==> InTransit(s.threads[u], b) {
    }
  }

  lemma ThreadsOkByPcs<D>(s: State<D>, s': State<D>)
    requires ThreadsOk(s) && |s'.threads| == |s.threads| && |s'.due| == |s.due|
    requires forall u :: 0 <= u < |s.threads| ==> s'.threads[u].pc == s.threads[u].pc
    requires forall u :: 0 <= u < |s.threads| && s'.threads[u].pc.Installing? ==>
      s'.threads[u].pc.b in s'.threads[u].refs
    requires forall u, b :: 0 <= u < |s.threads| && b in s'.threads[u].refs ==> b < |s.due|
    ensures ThreadsOk(s')
  {
    forall t, b | 0 <= t < |s.threads| ensures InTransit(s'.threads[t], b) <==> InTransit(s.threads[t], b) {
    }
  }

  lemma GiveFrame<D>(s: State<D>, t: nat, u: nat, b: nat)
    requires Inv(s) && Step(s, Give(t, u, b)).Some?
    ensures t < |s.threads| && u < |s.threads| && t != u && s.threads[t].pc.Idle? && b in s.threads[t].refs
    ensures
      var th := s.threads[t].(refs := s.threads[t].refs - multiset{b});
      var uh := s.threads[u].(refs := s.threads[u].refs + multiset{b});
      Step(s, Give(t, u, b)) == Some(s.(threads := s.threads[t := th][u := uh]))
  {
    hide BlockOk, ThreadsOk;
  }

  lemma GiveKeeps<D>(s: State<D>, t: nat, u: nat, b: nat)
    requires Inv(s) && Step(s, Give(t, u, b)).Some?
    ensures Inv(Step(s, Give(t, u, b)).value)
  {
    hide Step, BlockOk;
    GiveFrame(s, t, u, b);
    var th := s.threads[t].(refs := s.threads[t].refs - multiset{b});
    var uh := s.threads[u].(refs := s.threads[u].refs + multiset{b});
    var s' := s.(threads := s.threads[t := th][u := uh]);
    ThreadsOkByPcs(s, s');
    forall b' | 0 <= b' < |s.due|
      ensures BlockOk(s', b')
    {
      GivenOutstanding(s.threads, t, u, th, uh, b');
      assert BlockOk(s, b');
      SamePcsKeepBlock(s, s', b');
    }
  }

  lemma StepKeepsInv<D>(s: State<D>, a: Action<D>)
    requires Inv(s) && Step(s, a).Some?
    ensures Inv(Step(s, a).value)
  {
    hide Inv, Step;
    match a
    case AllocTake(t, d) => TakeKeeps(s, t, d);
    case AllocCount(t) => CountKeeps(s, t);
    case AllocInstall(t) => InstallKeeps(s, t);
    case Retain(t, b) => RetainKeeps(s, t, b);
    case Give(t, u, b) => GiveKeeps(s, t, u, b);
    case SetDestructor(t, b, d) => SetDestructorKeeps(s, t, b, d);
    case FreeDrop(t, b) => DropKeeps(s, t, b);
    case FreeDestroy(t) => DestroyKeeps(s, t);
    case FreeReturn(t) => ReturnKeeps(s, t);
  }

  // ---------------------------------------------------------------- every run

  /** The state of a pool of `n` blocks used by `k` threads after a run; None if an action was not possible. */
  ghost function After<D>(n: nat, k: nat, run: seq<Action<D>>): (r: Option<State<D>>)
    ensures r.Some? ==> Inv(r.value) && |r.value.due| == n
  {
    if run == [] then
      InitIsOk<D>(n, k);
      Some(Init(n, k))
    else
      var before := After(n, k, run[..|run| - 1]);
      if before.None? then None
      else
        var r := Step(before.value, run[|run| - 1]);
        if r.Some? then StepKeepsInv(before.value, run[|run| - 1]); r else None
  }

  lemma InitIsOk<D>(n: nat, k: nat)
    ensures Inv(Init<D>(n, k))
  {
    var s := Init<D>(n, k);
    forall b | 0 <= b < n
      ensures BlockOk(s, b)
    {
      NothingOutstanding(s.threads, b);
      assert s.mem.free[b] == b;
    }
  }

  lemma {:induction false} NothingOutstanding<D>(threads: seq<Thread<D>>, b: nat)
    requires forall t :: 0 <= t < |threads| ==> threads[t].refs == multiset{}
    ensures Outstanding(threads, b) == 0
  {
    if threads != [] {
      NothingOutstanding(threads[1..], b);
    }
  }

  ghost predicate Travelling<D>(s: State<D>, b: nat) {
    exists t :: 0 <= t < |s.threads| && InTransit(s.threads[t], b)
  }

  /** Every block is free, held or in transit, and only one of these; it is held with a count equal to the references
      outstanding, it is once in the queue, and only one thread carries it.  So no block is given out twice. */
  lemma EveryBlockHasOnePlace<D>(n: nat, k: nat, run: seq<Action<D>>, s: State<D>, b: nat)
    requires After(n, k, run) == Some(s) && b < n
    ensures
      || (b in s.mem.free && s.mem.cnt[b] == 0 && !Travelling(s, b))
      || (b !in s.mem.free && s.mem.cnt[b] > 0 && !Travelling(s, b))
      || (b !in s.mem.free && s.mem.cnt[b] == 0 && Travelling(s, b))
    ensures s.mem.cnt[b] == Outstanding(s.threads, b)
    ensures Distinct(s.mem.free)
    ensures forall t, u :: 0 <= t < u < |s.threads| && InTransit(s.threads[t], b) ==> !InTransit(s.threads[u], b)
  {
    assert BlockOk(s, b);
  }

  /** The assertion of pool_free holds for every reference a thread owns. */
  lemma OwnedReferenceIsCounted<D>(s: State<D>, t: nat, b: nat)
    requires Inv(s) && t < |s.threads| && b in s.threads[t].refs
    ensures b < |s.due| && s.mem.cnt[b] > 0
    ensures s.threads[t].pc.Idle? ==> Step(s, FreeDrop(t, b)).Some?
  {
    assert BlockOk(s, b);
    OutstandingUpdate(s.threads, t, s.threads[t], b);
  }

  /** The queue has room for a block that comes back. */
  lemma ReturnHasRoom<D>(s: State<D>, t: nat)
    requires Inv(s) && t < |s.threads| && s.threads[t].pc.Returning?
    ensures |s.mem.free| < |s.due| && Step(s, FreeReturn(t)).Some?
  {
    var b := s.threads[t].pc.b;
    assert BlockOk(s, b) && InTransit(s.threads[t], b);
    Pigeonhole(s.mem.free, |s.due|, b);
  }

  lemma FreeStepsSucceed<D>(s: State<D>, t: nat)
    requires Inv(s) && t < |s.threads|
    ensures s.threads[t].pc.Idle? ==> forall b :: b in s.threads[t].refs ==> Step(s, FreeDrop(t, b)).Some?
    ensures s.threads[t].pc.Zero? ==> Step(s, FreeDestroy(t)).Some?
    ensures s.threads[t].pc.Returning? ==> Step(s, FreeReturn(t)).Some?
  {
    if s.threads[t].pc.Idle? {
      forall b | b in s.threads[t].refs
        ensures Step(s, FreeDrop(t, b)).Some?
      {
        OwnedReferenceIsCounted(s, t, b);
      }
    } else if s.threads[t].pc.Returning? {
      ReturnHasRoom(s, t);
    }
  }

  /** pool_free fails for no reference a thread owns, at none of its steps. */
  lemma FreeNeverFails<D>(n: nat, k: nat, run: seq<Action<D>>, s: State<D>, t: nat)
    requires After(n, k, run) == Some(s) && t < |s.threads|
    ensures s.threads[t].pc.Idle? ==> forall b :: b in s.threads[t].refs ==> Step(s, FreeDrop(t, b)).Some?
    ensures s.threads[t].pc.Zero? ==> Step(s, FreeDestroy(t)).Some?
    ensures s.threads[t].pc.Returning? ==> Step(s, FreeReturn(t)).Some?
  {
    FreeStepsSucceed(s, t);
  }

  lemma Pigeonhole(s: seq<nat>, n: nat, b: nat)
    requires Distinct(s) && (forall k :: 0 <= k < |s| ==> s[k] < n) && b < n && b !in s
    ensures |s| < n
  {
    Cardinality(s);
    SubsetSize(Elements(s), Upto(n) - {b});
  }

  lemma AtMost(s: seq<nat>, n: nat)
    requires Distinct(s) && (forall k :: 0 <= k < |s| ==> s[k] < n)
    ensures |s| <= n
  {
    Cardinality(s);
    SubsetSize(Elements(s), Upto(n));
  }

  function Elements(s: seq<nat>): (r: set<nat>)
    ensures forall x :: x in r <==> x in s
  {
    if s == [] then {} else {s[0]} + Elements(s[1..])
  }

  function Upto(n: nat): (r: set<nat>)
    ensures |r| == n && forall x: nat :: x in r <==> x < n
  {
    if n == 0 then {} else Upto(n - 1) + {n - 1}
  }

  lemma {:induction false} Cardinality(s: seq<nat>)
    requires Distinct(s)
    ensures |Elements(s)| == |s|
  {
    if s != [] {
      Cardinality(s[1..]);
      assert s[0] !in s[1..] && Elements(s) == {s[0]} + Elements(s[1..]);
    }
  }

  lemma {:induction false} SubsetSize(a: set<nat>, b: set<nat>)
    requires a <= b
    ensures |a| <= |b|
  {
    if a != {} {
      var x :| x in a;
      SubsetSize(a - {x}, b - {x});
    }
  }

  /** While a thread carries the block elsewhere none is about to run its destructor. */
  lemma NobodyElseRuns<D>(s: State<D>, t: nat, b: nat)
    requires Inv(s) && t < |s.threads| && b < |s.due| && s.threads[t].pc != Zero(b) && InTransit(s.threads[t], b)
    ensures s.ran[b] == s.due[b]
  {
    hide BlockOk;
    CarriedIsNotPlaced(s, t);
    OwedBefore(s, t, b);
  }

  /** A destructor found by a drop to zero runs once for that drop, before any thread can have the block again: while no
      thread is between the drop and the run, the two counts agree. */
  lemma DestructorRunsOncePerDrop<D>(n: nat, k: nat, run: seq<Action<D>>, s: State<D>, b: nat)
    requires After(n, k, run) == Some(s) && b < n
    ensures s.ran[b] <= s.due[b] <= s.ran[b] + 1
    ensures (b in s.mem.free || s.mem.cnt[b] > 0) ==> s.ran[b] == s.due[b]
    ensures forall t ::
      0 <= t < |s.threads| && (s.threads[t].pc.Taken? || s.threads[t].pc.Returning?) && s.threads[t].pc.b == b ==>
        s.ran[b] == s.due[b]
  {
    hide After, ThreadsOk, Outstanding;
    assert BlockOk(s, b);
    forall t | 0 <= t < |s.threads| && s.threads[t].pc == Zero(b)
      ensures InTransit(s.threads[t], b)
    {
    }
    forall t | 0 <= t < |s.threads| && (s.threads[t].pc.Taken? || s.threads[t].pc.Returning?) && s.threads[t].pc.b == b
      ensures s.ran[b] == s.due[b]
    {
      NobodyElseRuns(s, t, b);
    }
  }

  lemma RetainIs<D>(s: State<D>, t: nat, b: nat)
    requires Inv(s) && t < |s.threads| && s.threads[t].pc.Idle? && b in s.threads[t].refs
    ensures b < |s.due| && b < |s.mem.cnt|
    ensures Step(s, Retain(t, b)) ==
      Some(s.(mem := s.mem.(cnt := s.mem.cnt[b := s.mem.cnt[b] + 1]),
              threads := s.threads[t := Thread(Idle, s.threads[t].refs + multiset{b})]))
  {
    hide BlockOk;
  }

  lemma SetDestructorIs<D>(s: State<D>, t: nat, b: nat, d: Option<D>)
    requires Inv(s) && t < |s.threads| && s.threads[t].pc.Idle? && b in s.threads[t].refs
    ensures b < |s.due| && b < |s.mem.dtor|
    ensures Step(s, SetDestructor(t, b, d)) == Some(s.(mem := s.mem.(dtor := s.mem.dtor[b := d])))
  {
    hide BlockOk;
    assert s.threads[t := s.threads[t]] == s.threads;
  }

  /** pool_retain gives a thread one more reference to a block it has one to, and pool_set_destructor puts the given
      destructor on it, or takes the old one off; neither can fail, or changes anything else. */
  lemma RetainAndSetDestructor<D>(n: nat, k: nat, run: seq<Action<D>>, s: State<D>, t: nat, b: nat, d: Option<D>)
    requires After(n, k, run) == Some(s) && t < |s.threads| && s.threads[t].pc.Idle? && b in s.threads[t].refs
    ensures b < n && Step(s, Retain(t, b)).Some? && Step(s, SetDestructor(t, b, d)).Some?
    ensures
      var s' := Step(s, Retain(t, b)).value;
      && s'.threads == s.threads[t := Thread(Idle, s.threads[t].refs + multiset{b})]
      && s'.mem == s.mem.(cnt := s.mem.cnt[b := s.mem.cnt[b] + 1]) && s'.due == s.due && s'.ran == s.ran
    ensures
      var s' := Step(s, SetDestructor(t, b, d)).value;
      s'.threads == s.threads && s'.mem == s.mem.(dtor := s.mem.dtor[b := d]) && s'.due == s.due && s'.ran == s.ran
  {
    hide After, Step;
    RetainIs(s, t, b);
    SetDestructorIs(s, t, b, d);
  }

  lemma CountedOutHasNoOwner<D>(s: State<D>, t: nat, b: nat)
    requires Inv(s) && t < |s.threads| && b < |s.due| && s.mem.cnt[b] == 0
    ensures b !in s.threads[t].refs
  {
    hide ThreadsOk;
    OutstandingUpdate(s.threads, t, s.threads[t], b);
    assert BlockOk(s, b);
  }

  /** Between a drop to zero and the destructor run nobody else can change the block's destructor or count. */
  lemma ZeroIsPrivate<D>(s: State<D>, a: Action<D>, s': State<D>, t: nat)
    requires Inv(s) && Step(s, a) == Some(s') && t < |s.threads| && t != a.t && s.threads[t].pc.Zero?
    ensures
      var b := s.threads[t].pc.b;
      && b < |s.due| && s'.threads[t].pc == Zero(b)
      && s'.mem.dtor[b] == s.mem.dtor[b] && s'.mem.cnt[b] == s.mem.cnt[b] == 0
  {
    hide BlockOk;
    var b := s.threads[t].pc.b;
    CarriedIsNotPlaced(s, t);
    CountedOutHasNoOwner(s, a.t, b);
    assert !InTransit(s.threads[a.t], b);
  }
}
