/** The block pool over its queue: what a call does between two waits is the effect of its steps in the model. */
module Pools {
  import opened Basics
  import opened TsQueues
  import opened PoolModel
  import PoolProofs

  /** Free blocks are free once, and have no references. */
  ghost predicate Tidy<D>(m: Memory<D>) {
    && Distinct(m.free)
    && (forall k :: 0 <= k < |m.free| ==> m.free[k] < |m.cnt| && m.cnt[m.free[k]] == 0)
  }

  /** pool_alloc: dequeue, count, install a destructor if one is given. */
  function Allocated<D>(m: Memory<D>, d: Option<D>): Memory<D>
    requires m.free != [] && m.free[0] < |m.cnt| == |m.dtor|
  {
    var counted := CountUp(TakeFree(m), m.free[0]);
    if d.Some? then Install(counted, m.free[0], d) else counted
  }

  /** pool_free: count down, and enqueue a block without references. */
  function Freed<D>(m: Memory<D>, b: nat): Memory<D>
    requires b < |m.cnt| && m.cnt[b] > 0
  {
    if m.cnt[b] == 1 then PutFree(CountDown(m, b), b) else CountDown(m, b)
  }

  /** Without interference the steps of pool_alloc amount to Allocated, and give the caller one reference. */
  lemma AllocIsItsSteps<D>(s: State<D>, t: nat, d: Option<D>)
    requires PoolModel.Inv(s) && t < |s.threads| && s.threads[t].pc.Idle? && s.mem.free != []
    ensures Step(s, AllocTake(t, d)).Some?
    ensures
      var s1 := Step(s, AllocTake(t, d)).value;
      && Shaped(s1.mem, |s1.due|) && |s1.ran| == |s1.due| && Step(s1, AllocCount(t)).Some?
      && var s2 := Step(s1, AllocCount(t)).value;
      && Shaped(s2.mem, |s2.due|) && |s2.ran| == |s2.due|
      && var last := if d.Some? then Step(s2, AllocInstall(t)) else Some(s2);
      && last.Some? && last.value.mem == Allocated(s.mem, d)
      && last.value.threads == s.threads[t := Thread(Idle, s.threads[t].refs + multiset{s.mem.free[0]})]
  {
  }

  /** Without interference the steps of pool_free amount to Freed. */
  lemma FreeIsItsSteps<D>(s: State<D>, t: nat, b: nat)
    requires PoolModel.Inv(s) && t < |s.threads| && s.threads[t].pc.Idle? && b in s.threads[t].refs
    ensures Step(s, FreeDrop(t, b)).Some? && b < |s.mem.cnt| && s.mem.cnt[b] > 0
    ensures
      var s1 := Step(s, FreeDrop(t, b)).value;
      && s1.threads[t].refs == s.threads[t].refs - multiset{b}
      && if s.mem.cnt[b] > 1 then s1.mem == Freed(s.mem, b) && s1.due == s.due && s1.ran == s.ran
      else
        && Shaped(s1.mem, |s1.due|) && |s1.ran| == |s1.due| && Step(s1, FreeDestroy(t)).Some?
        && var s2 := Step(s1, FreeDestroy(t)).value;
        && s2.ran == (if s.mem.dtor[b].Some? then s.ran[b := s.ran[b] + 1] else s.ran)
        && Shaped(s2.mem, |s2.due|) && |s2.ran| == |s2.due| && Step(s2, FreeReturn(t)).Some?
        && Step(s2, FreeReturn(t)).value.mem == Freed(s.mem, b)
  {
    PoolProofs.OwnedReferenceIsCounted(s, t, b);
    var s1 := Step(s, FreeDrop(t, b)).value;
    PoolProofs.StepKeepsInv(s, FreeDrop(t, b));
    if s.mem.cnt[b] == 1 {
      PoolProofs.StepKeepsInv(s1, FreeDestroy(t));
      PoolProofs.ReturnHasRoom(Step(s1, FreeDestroy(t)).value, t);
    }
  }

  // ---------------------------------------------------------------- calls that wait

  /** A call that another thread makes; retaining, freeing and setting a destructor only with a reference. */
  datatype Call<D> = AllocCall(d: Option<D>) | RetainCall(b: nat) | SetCall(b: nat, d: Option<D>) | FreeCall(b: nat)

  function CallStep<D>(m: Memory<D>, c: Call<D>): (r: Memory<D>)
    requires |m.cnt| == |m.dtor|
    ensures |r.cnt| == |r.dtor| == |m.cnt|
  {
    match c
    case AllocCall(d) => if m.free != [] && m.free[0] < |m.cnt| then Allocated(m, d) else m
    case RetainCall(b) => if b < |m.cnt| && m.cnt[b] > 0 then CountUp(m, b) else m
    case SetCall(b, d) => if b < |m.cnt| && m.cnt[b] > 0 then Install(m, b, d) else m
    case FreeCall(b) => if b < |m.cnt| && m.cnt[b] > 0 then Freed(m, b) else m
  }

  function CallsRun<D>(m: Memory<D>, calls: seq<Call<D>>): (r: Memory<D>)
    requires |m.cnt| == |m.dtor|
    ensures |r.cnt| == |r.dtor| == |m.cnt|
  {
    if calls == [] then m else CallStep(CallsRun(m, calls[..|calls| - 1]), calls[|calls| - 1])
  }

  /** While a thread waits, others make calls; then the wait returns. */
  datatype PoolWake<D> = PoolWake(others: seq<Call<D>>, rval: WaitResult)

  function AllocOutcome<D>(m: Memory<D>, rval: WaitResult): Outcome {
    if rval.TimedOut? then Refused else if m.free == [] then MustWait else if rval.Failed? then Refused else Moved
  }

  /** pool_alloc_blocking: waits for a block that comes back, and takes it when the wait has ended well. */
  function AllocRun<D>(m: Memory<D>, d: Option<D>, rval: WaitResult, wakes: seq<PoolWake<D>>)
    : (Memory<D>, Outcome, Option<nat>)
    requires |m.cnt| == |m.dtor|
    decreases |wakes|
  {
    var o := AllocOutcome(m, rval);
    if o.MustWait? && wakes != [] then AllocRun(CallsRun(m, wakes[0].others), d, wakes[0].rval, wakes[1..])
    else if o.Moved? && m.free[0] < |m.cnt| then (Allocated(m, d), o, Some(m.free[0]))
    else (m, o, None)
  }

  lemma CallKeepsTidy<D>(m: Memory<D>, c: Call<D>)
    requires |m.cnt| == |m.dtor| && Tidy(m)
    ensures Tidy(CallStep(m, c))
  {
  }

  lemma {:induction false} CallsKeepTidy<D>(m: Memory<D>, calls: seq<Call<D>>)
    requires |m.cnt| == |m.dtor| && Tidy(m)
    ensures Tidy(CallsRun(m, calls))
  {
    if calls != [] {
      CallsKeepTidy(m, calls[..|calls| - 1]);
      CallKeepsTidy(CallsRun(m, calls[..|calls| - 1]), calls[|calls| - 1]);
    }
  }

  /** Whatever the others do meanwhile, the call ends with a block that is no longer free and has one reference, or
      with nothing, and then some wait timed out or failed. */
  lemma {:induction false} AllocGivesOneReference<D>(
      m: Memory<D>, d: Option<D>, rval: WaitResult, wakes: seq<PoolWake<D>>)
    requires |m.cnt| == |m.dtor| && Tidy(m)
    ensures
      var (m', o, b) := AllocRun(m, d, rval, wakes);
      && Tidy(m') && (o.Moved? <==> b.Some?)
      && (b.Some? ==> b.value < |m'.cnt| && b.value !in m'.free && m'.cnt[b.value] == 1)
      && (b.Some? && d.Some? ==> |m'.dtor| == |m'.cnt| && m'.dtor[b.value] == d)
      && (o.MustWait? ==> m'.free == [])
      && (o.Refused? ==> rval != Awake || exists k :: 0 <= k < |wakes| && wakes[k].rval != Awake)
    decreases |wakes|
  {
    if AllocOutcome(m, rval).MustWait? && wakes != [] {
      CallsKeepTidy(m, wakes[0].others);
      AllocGivesOneReference(CallsRun(m, wakes[0].others), d, wakes[0].rval, wakes[1..]);
      assert forall k :: 0 <= k < |wakes[1..]| ==> wakes[1..][k] == wakes[k + 1];
    }
  }

  /** The pool after the first `i` waits of an allocation. */
  function PoolAt<D>(m: Memory<D>, wakes: seq<PoolWake<D>>, i: nat): (r: Memory<D>)
    requires |m.cnt| == |m.dtor| && i <= |wakes|
    ensures |r.cnt| == |r.dtor|
  {
    if i == 0 then m else CallsRun(PoolAt(m, wakes, i - 1), wakes[i - 1].others)
  }

  lemma {:induction false} PoolBehind<D>(m: Memory<D>, wakes: seq<PoolWake<D>>, i: nat)
    requires |m.cnt| == |m.dtor| && 0 < i <= |wakes|
    ensures PoolAt(m, wakes, i) == PoolAt(CallsRun(m, wakes[0].others), wakes[1..], i - 1)
  {
    if i > 1 {
      PoolBehind(m, wakes, i - 1);
    }
  }

  lemma AllocEndsAtOnce<D>(m: Memory<D>, d: Option<D>, rval: WaitResult, wakes: seq<PoolWake<D>>)
    requires |m.cnt| == |m.dtor| && Tidy(m) && (!AllocOutcome(m, rval).MustWait? || wakes == [])
    ensures
      var (m', o, b) := AllocRun(m, d, rval, wakes);
      if rval.TimedOut? then o.Refused? && m' == m && b == None
      else if m.free == [] then o.MustWait? && wakes == [] && m' == m && b == None
      else if rval.Failed? then o.Refused? && m' == m && b == None
      else o.Moved? && m.free[0] < |m.cnt| && m' == Allocated(m, d) && b == Some(m.free[0])
  {
    hide Allocated;
  }

  lemma AllocWaits<D>(m: Memory<D>, d: Option<D>, rval: WaitResult, wakes: seq<PoolWake<D>>)
    requires |m.cnt| == |m.dtor| && AllocOutcome(m, rval).MustWait? && wakes != []
    ensures AllocRun(m, d, rval, wakes) == AllocRun(CallsRun(m, wakes[0].others), d, wakes[0].rval, wakes[1..])
  {
  }

  /** An allocation makes `n` waits, each while no block is free. It gives up iff the last one timed out, or failed
      with a block there, and then the pool is as the others have left it; it still waits iff its wake-ups are used up
      and no block is free; otherwise it takes the block that has been free longest. */
  lemma {:induction false} AllocEnds<D>(m: Memory<D>, d: Option<D>, rval: WaitResult, wakes: seq<PoolWake<D>>)
      returns (n: nat)
    requires |m.cnt| == |m.dtor| && Tidy(m)
    ensures n <= |wakes| && (rval.TimedOut? ==> n == 0)
    ensures forall i :: 0 <= i < n ==> PoolAt(m, wakes, i).free == []
    ensures forall i :: 0 <= i < n - 1 ==> !wakes[i].rval.TimedOut?
    ensures
      var q, (m', o, b) := PoolAt(m, wakes, n), AllocRun(m, d, rval, wakes);
      var last := if n > 0 then wakes[n - 1].rval else rval;
      if last.TimedOut? then o.Refused? && m' == q && b == None
      else if q.free == [] then o.MustWait? && n == |wakes| && m' == q && b == None
      else if last.Failed? then o.Refused? && m' == q && b == None
      else o.Moved? && q.free[0] < |q.cnt| && m' == Allocated(q, d) && b == Some(q.free[0])
    decreases |wakes|
  {
    hide AllocRun, Allocated, CallsRun, Tidy;
    n := 0;
    if !AllocOutcome(m, rval).MustWait? || wakes == [] {
      AllocEndsAtOnce(m, d, rval, wakes);
    } else {
      var now := CallsRun(m, wakes[0].others);
      AllocWaits(m, d, rval, wakes);
      CallsKeepTidy(m, wakes[0].others);
      var rest := AllocEnds(now, d, wakes[0].rval, wakes[1..]);
      n := rest + 1;
      forall i | 0 < i <= n ensures PoolAt(m, wakes, i) == PoolAt(now, wakes[1..], i - 1) {
        PoolBehind(m, wakes, i);
      }
    }
  }

  class Pool<D(0)> {
    const q: TsQueue<nat>
    const cnt: array<nat>
    const dtor: array<Option<D>>

    ghost function View(): Memory<D>
      reads q, q.slots, cnt, dtor
      requires q.Valid()
    {
      Memory(q.fifo.put[|q.fifo.taken|..], cnt[..], dtor[..])
    }

    ghost predicate Valid()
      reads this, q, q.slots, cnt, dtor
    {
      && q.slots != cnt && q.slots as object != dtor && cnt as object != dtor
      && q.Valid() && cnt.Length == dtor.Length == q.size && Tidy(View())
    }

    constructor (q: TsQueue<nat>, cnt: array<nat>, dtor: array<Option<D>>)
      ensures this.q == q && this.cnt == cnt && this.dtor == dtor
    {
      this.q, this.cnt, this.dtor := q, cnt, dtor;
    }

    /** pool_alloc_blocking from the end of one wait to the next, entered with the result of the last wait. */
    method AllocSection(d: Option<D>, rval: WaitResult) returns (o: Outcome, r: Option<nat>)
      requires Valid()
      modifies q, cnt, dtor
      ensures Valid()
      ensures o == AllocOutcome(old(View()), rval)
      ensures if o.Moved? then r == Some(old(View()).free[0]) && View() == Allocated(old(View()), d)
              else r == None && View() == old(View())
    {
      o, r := q.TakeSection(rval);
      if o.Moved? {
        var b := r.value;
        assert b == old(View()).free[0];
        assert View().free == old(View()).free[1..];
        cnt[b] := cnt[b] + 1;
        if d.Some? {
          dtor[b] := d;
        }
        assert View() == Allocated(old(View()), d);
      }
    }

    /** What another thread does while one waits. */
    method Other(c: Call<D>)
      requires Valid()
      modifies q, q.slots, cnt, dtor
      ensures Valid() && View() == CallStep(old(View()), c)
    {
      match c
      case AllocCall(d) =>
        var _, _ := AllocSection(d, Awake);
      case RetainCall(b) =>
        if b < cnt.Length && cnt[b] > 0 {
          Retain(b);
        }
      case SetCall(b, d) =>
        if b < cnt.Length && cnt[b] > 0 {
          SetDestructor(b, d);
        }
      case FreeCall(b) =>
        if b < cnt.Length && cnt[b] > 0 {
          var _ := Free(b);
        }
    }

    method Others(calls: seq<Call<D>>)
      requires Valid()
      modifies q, q.slots, cnt, dtor
      ensures Valid() && View() == CallsRun(old(View()), calls)
    {
      for n := 0 to |calls|
        invariant Valid() && View() == CallsRun(old(View()), calls[..n])
      {
        Other(calls[n]);
        assert calls[..n + 1][..n] == calls[..n];
      }
      assert calls[..|calls|] == calls;
    }

    /** pool_alloc_blocking; without time to sleep the first wait times out. */
    method Alloc(d: Option<D>, wakes: seq<PoolWake<D>>) returns (o: Outcome, r: Option<nat>)
      requires Valid()
      modifies q, q.slots, cnt, dtor
      ensures Valid()
      ensures (View(), o, r) == AllocRun(old(View()), d, Awake, wakes)
    {
      var rval, k := Awake, 0;
      o, r := AllocSection(d, rval);
      while o.MustWait? && k < |wakes|
        invariant Valid() && k <= |wakes|
        invariant o.MustWait? ==> AllocOutcome(View(), rval).MustWait? && r == None
        invariant AllocRun(old(View()), d, Awake, wakes)
               == if o.MustWait? then AllocRun(View(), d, rval, wakes[k..]) else (View(), o, r)
      {
        Others(wakes[k].others);
        rval := wakes[k].rval;
        o, r := AllocSection(d, rval);
        k := k + 1;
      }
    }

    /** pool_retain. */
    method Retain(b: nat)
      requires Valid() && b < cnt.Length && b !in View().free
      modifies cnt
      ensures Valid()
      ensures View() == CountUp(old(View()), b)
    {
      cnt[b] := cnt[b] + 1;
    }

    /** pool_set_destructor. */
    method SetDestructor(b: nat, d: Option<D>)
      requires Valid() && b < cnt.Length
      modifies dtor
      ensures Valid()
      ensures View() == Install(old(View()), b, d)
    {
      dtor[b] := d;
    }

    /** pool_free; `ran` is the destructor it calls. */
    method Free(b: nat) returns (ran: Option<D>)
      requires Valid() && b < cnt.Length && cnt[b] > 0
      modifies q, q.slots, cnt
      ensures Valid()
      ensures View() == Freed(old(View()), b)
      ensures ran == if old(cnt[b]) == 1 then dtor[b] else None
    {
      var before := cnt[b];
      ran := None;
      cnt[b] := before - 1;
      if before == 1 {
        ran := dtor[b];
        PoolProofs.Pigeonhole(old(View()).free, q.size, b);
        var o := q.PutSection(b, Awake);
        assert o.Moved?;
        assert View() == Freed(old(View()), b);
      }
    }
  }

  lemma FreshIs<D>(m: Memory<D>, n: nat)
    requires |m.free| == |m.cnt| == |m.dtor| == n
    requires forall k :: 0 <= k < n ==> m.free[k] == k && m.cnt[k] == 0 && m.dtor[k] == None
    ensures m == Fresh(n) && Tidy(m)
  {
    assert m.free == Fresh<D>(n).free;
    assert m.cnt == Fresh<D>(n).cnt;
    assert m.dtor == Fresh<D>(n).dtor;
  }

  /** One round of the loop of pool_create. */
  method AddBlock<D(0)>(q: TsQueue<nat>, cnt: array<nat>, dtor: array<Option<D>>, i: nat)
    requires q.Valid() && q.slots != cnt && q.slots as object != dtor && cnt as object != dtor
    requires i < q.size == cnt.Length == dtor.Length && q.fifo.taken == [] && |q.fifo.put| == i
    modifies q, q.slots, cnt, dtor
    ensures q.Valid() && q.fifo == Fifo(old(q.fifo.put) + [i], [])
    ensures cnt[..] == old(cnt[..])[i := 0] && dtor[..] == old(dtor[..])[i := None]
  {
    cnt[i] := 0;
    dtor[i] := None;
    var o := q.PutSection(i, Awake);
    assert o.Moved?;
  }

  /** pool_create; it fails when the queue cannot be made. */
  method Create<D(0)>(slots: array<nat>, cnt: array<nat>, dtor: array<Option<D>>, made: bool)
    returns (p: Option<Pool<D>>)
    requires slots.Length == cnt.Length == dtor.Length
    requires slots != cnt && slots as object != dtor && cnt as object != dtor
    modifies slots, cnt, dtor
    ensures p.Some? <==> IsPowerOfTwo(slots.Length) && made
    ensures p.Some? ==> p.value.Valid() && p.value.View() == Fresh(slots.Length)
  {
    var queue := TsQueues.Init(slots, made);
    if queue.None? {
      return None;
    }
    var q := queue.value;
    var pool := new Pool(q, cnt, dtor);
    for i := 0 to cnt.Length
      invariant q.Valid() && q.slots == slots && q.fifo.taken == [] && |q.fifo.put| == i
      invariant forall k :: 0 <= k < i ==> q.fifo.put[k] == k
      invariant forall k :: 0 <= k < i ==> cnt[..][k] == 0 && dtor[..][k] == None
    {
      AddBlock(q, cnt, dtor, i);
    }
    assert q.fifo.put[0..] == q.fifo.put;
    FreshIs(pool.View(), slots.Length);
    p := Some(pool);
  }
}
