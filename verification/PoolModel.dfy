/**
 * The reference-counted block pool (inc/cutils/pool.h) as a transition system: any number of threads interleave at
 * every queue operation, count update and destructor access.
 */
module PoolModel {
  import opened Basics

  // ---------------------------------------------------------------- the shared memory of a pool

  /** Blocks are numbered from 0.  `free` is the backing queue; `cnt` and `dtor` are the fields of the block headers. */
  datatype Memory<D> = Memory(free: seq<nat>, cnt: seq<nat>, dtor: seq<Option<D>>)

  predicate Shaped<D>(m: Memory<D>, n: nat) {
    |m.cnt| == n && |m.dtor| == n
  }

  function TakeFree<D>(m: Memory<D>): Memory<D>
    requires m.free != []
  {
    m.(free := m.free[1..])
  }

  function CountUp<D>(m: Memory<D>, b: nat): Memory<D>
    requires b < |m.cnt|
  {
    m.(cnt := m.cnt[b := m.cnt[b] + 1])
  }

  function CountDown<D>(m: Memory<D>, b: nat): Memory<D>
    requires b < |m.cnt| && m.cnt[b] > 0
  {
    m.(cnt := m.cnt[b := m.cnt[b] - 1])
  }

  function Install<D>(m: Memory<D>, b: nat, d: Option<D>): Memory<D>
    requires b < |m.dtor|
  {
    m.(dtor := m.dtor[b := d])
  }

  function PutFree<D>(m: Memory<D>, b: nat): Memory<D> {
    m.(free := m.free + [b])
  }

  function Fresh<D>(n: nat): Memory<D> {
    Memory(seq(n, b => b), seq(n, _ => 0), seq(n, _ => None))
  }

  // ---------------------------------------------------------------- threads and steps

  /** Inside pool_alloc: a block is dequeued but not counted, or counted but its destructor not installed.  Inside
      pool_free: the count has dropped to zero, or the destructor has run and the block is to be enqueued. */
  datatype Pc<D> =
    Idle | Taken(b: nat, d: Option<D>) | Installing(b: nat, d: Option<D>) | Zero(b: nat) | Returning(b: nat)

  /** `refs` are the references the thread owns. */
  datatype Thread<D> = Thread(pc: Pc<D>, refs: multiset<nat>)

  /** `due` counts, for each block, the drops to zero that found a destructor; `ran` counts destructor runs. */
  datatype State<D> = State(mem: Memory<D>, threads: seq<Thread<D>>, due: seq<nat>, ran: seq<nat>)

  datatype Action<D> =
    | AllocTake(t: nat, d: Option<D>)
    | AllocCount(t: nat)
    | AllocInstall(t: nat)
    | Retain(t: nat, b: nat)
    | Give(t: nat, u: nat, b: nat)
    | SetDestructor(t: nat, b: nat, d: Option<D>)
    | FreeDrop(t: nat, b: nat)
    | FreeDestroy(t: nat)
    | FreeReturn(t: nat)

  function With<D>(s: State<D>, t: nat, th: Thread<D>, m: Memory<D>): State<D>
    requires t < |s.threads|
  {
    s.(mem := m, threads := s.threads[t := th])
  }

  /** One step of thread `a.t`; None when it is not possible.  Clients only use references they own. */
  function Step<D>(s: State<D>, a: Action<D>): Option<State<D>>
    requires Shaped(s.mem, |s.due|) && |s.ran| == |s.due|
  {
    if a.t >= |s.threads| then None else
    var th, n := s.threads[a.t], |s.due|;
    match (a, th.pc)
    case (AllocTake(t, d), Idle) =>
      if s.mem.free != [] then Some(With(s, t, th.(pc := Taken(s.mem.free[0], d)), TakeFree(s.mem))) else None
    case (AllocCount(t), Taken(b, d)) =>
      if b < n then
        Some(With(s, t, Thread(if d.Some? then Installing(b, d) else Idle, th.refs + multiset{b}), CountUp(s.mem, b)))
      else None
    case (AllocInstall(t), Installing(b, d)) =>
      if b < n then Some(With(s, t, th.(pc := Idle), Install(s.mem, b, d))) else None
    case (Retain(t, b), Idle) =>
      if b in th.refs && b < n then
        Some(With(s, t, th.(refs := th.refs + multiset{b}), CountUp(s.mem, b)))
      else None
    case (Give(t, u, b), Idle) =>
      if b in th.refs && u < |s.threads| && u != t then
        var s' := With(s, t, th.(refs := th.refs - multiset{b}), s.mem);
        Some(With(s', u, s.threads[u].(refs := s.threads[u].refs + multiset{b}), s.mem))
      else None
    case (SetDestructor(t, b, d), Idle) =>
      if b in th.refs && b < n then Some(With(s, t, th, Install(s.mem, b, d))) else None
    case (FreeDrop(t, b), Idle) =>
      if b in th.refs && b < n && s.mem.cnt[b] > 0 then
        var last := s.mem.cnt[b] == 1;
        var s' := With(s, t, Thread(if last then Zero(b) else Idle, th.refs - multiset{b}), CountDown(s.mem, b));
        Some(s'.(due := if last && s.mem.dtor[b].Some? then s.due[b := s.due[b] + 1] else s.due))
      else None
    case (FreeDestroy(t), Zero(b)) =>
      if b < n then
        var s' := With(s, t, th.(pc := Returning(b)), s.mem);
        Some(s'.(ran := if s.mem.dtor[b].Some? then s.ran[b := s.ran[b] + 1] else s.ran))
      else None
    case (FreeReturn(t), Returning(b)) =>
      if |s.mem.free| < n then Some(With(s, t, th.(pc := Idle), PutFree(s.mem, b))) else None
    case _ => None
  }

  /** A pool of `n` blocks just created, used by `k` threads. */
  function Init<D>(n: nat, k: nat): State<D> {
    State(Fresh(n), seq(k, _ => Thread(Idle, multiset{})), seq(n, _ => 0), seq(n, _ => 0))
  }

  // ---------------------------------------------------------------- where a block is

  /** The thread has the block between queue and count. */
  predicate InTransit<D>(th: Thread<D>, b: nat) {
    (th.pc.Taken? || th.pc.Zero? || th.pc.Returning?) && th.pc.b == b
  }

  /** References to `b` owned by the threads. */
  function Outstanding<D>(threads: seq<Thread<D>>, b: nat): nat {
    if threads == [] then 0 else threads[0].refs[b] + Outstanding(threads[1..], b)
  }

  predicate Distinct(s: seq<nat>) {
    forall i, j :: 0 <= i < j < |s| ==> s[i] != s[j]
  }

  /** Free with count zero, held with a positive count, or in transit in one thread with count zero. */
  ghost predicate BlockOk<D>(s: State<D>, b: nat)
    requires Shaped(s.mem, |s.due|) && |s.ran| == |s.due| && b < |s.due|
  {
    && s.mem.cnt[b] == Outstanding(s.threads, b)
    && (b in s.mem.free ==> s.mem.cnt[b] == 0)
    && (forall t :: 0 <= t < |s.threads| && InTransit(s.threads[t], b) ==> s.mem.cnt[b] == 0 && b !in s.mem.free)
    && (s.mem.cnt[b] == 0 && b !in s.mem.free ==>
          exists t :: 0 <= t < |s.threads| && InTransit(s.threads[t], b))
    && (if exists t :: 0 <= t < |s.threads| && s.threads[t].pc == Zero(b) && s.mem.dtor[b].Some?
        then s.due[b] == s.ran[b] + 1 else s.due[b] == s.ran[b])
  }

  ghost predicate ThreadsOk<D>(s: State<D>) {
    && (forall t, u, b :: 0 <= t < u < |s.threads| && InTransit(s.threads[t], b) ==> !InTransit(s.threads[u], b))
    && (forall t :: 0 <= t < |s.threads| && !s.threads[t].pc.Idle? ==> s.threads[t].pc.b < |s.due|)
    && (forall t :: 0 <= t < |s.threads| && s.threads[t].pc.Installing? ==>
          s.threads[t].pc.b in s.threads[t].refs && s.threads[t].pc.d.Some?)
    && (forall t, b :: 0 <= t < |s.threads| && b in s.threads[t].refs ==> b < |s.due|)
  }

  ghost predicate Inv<D>(s: State<D>) {
    && Shaped(s.mem, |s.due|) && |s.ran| == |s.due|
    && Distinct(s.mem.free) && (forall k :: 0 <= k < |s.mem.free| ==> s.mem.free[k] < |s.due|)
    && ThreadsOk(s)
    && (forall b :: 0 <= b < |s.due| ==> BlockOk(s, b))
  }
}
