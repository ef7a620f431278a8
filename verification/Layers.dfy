/**
 * The dispatch queue takes a pool or queue operation for one step.  That step is one of the operation's own steps in
 * the layer below: the one that takes the block out of the pool's queue or puts it back, and the section that moves
 * the item.
 */
module Layers {
  import opened Basics
  import P = PoolModel
  import opened PoolProofs
  import Q = TsQueues
  import D = DispatchQueues

  lemma {:induction false} ElementsAppend(s: seq<nat>, b: nat)
    ensures Elements(s + [b]) == Elements(s) + {b}
  {
    if s != [] {
      assert (s + [b])[1..] == s[1..] + [b];
      ElementsAppend(s[1..], b);
    }
  }

  /** Allocating is possible at both levels or at neither, and the dequeue is what takes the block. */
  lemma AllocationIsItsTake<T, J>(p: P.State<T>, t: nat, d: Option<T>, n: nat, s: D.State<J>, i: nat)
    requires P.Inv(p) && t < |p.threads| && p.threads[t].pc.Idle?
    requires s.free == Elements(p.mem.free) && i < |s.posts| && s.posts[i].Checked? && !s.released
    ensures P.Step(p, P.AllocTake(t, d)).Some? <==> exists b :: D.Step(n, s, D.PostAlloc(i, b)).Some?
    ensures p.mem.free != [] ==>
      var b := p.mem.free[0];
      && D.Step(n, s, D.PostAlloc(i, b)).Some? && P.Step(p, P.AllocTake(t, d)).Some?
      && D.Step(n, s, D.PostAlloc(i, b)).value.free == Elements(P.Step(p, P.AllocTake(t, d)).value.mem.free)
  {
    if p.mem.free != [] {
      assert p.mem.free[0] in s.free;
      assert D.Step(n, s, D.PostAlloc(i, p.mem.free[0])).Some?;
    }
  }

  lemma ReturnAppends<T>(p: P.State<T>, t: nat)
    requires P.Inv(p) && t < |p.threads| && p.threads[t].pc.Returning?
    ensures P.Step(p, P.FreeReturn(t)).Some?
    ensures P.Step(p, P.FreeReturn(t)).value.mem.free == p.mem.free + [p.threads[t].pc.b]
  {
    hide P.BlockOk, P.ThreadsOk;
    ReturnHasRoom(p, t);
  }

  /** Releasing is what puts the block back. */
  lemma ReleaseIsItsReturn<T, J>(p: P.State<T>, t: nat, n: nat, s: D.State<J>)
    requires P.Inv(p) && t < |p.threads| && s.free == Elements(p.mem.free)
    requires s.worker.Releasing? && p.threads[t].pc == P.Returning(s.worker.b)
    ensures P.Step(p, P.FreeReturn(t)).Some? && D.Step(n, s, D.WorkerRelease).Some?
    ensures D.Step(n, s, D.WorkerRelease).value.free == Elements(P.Step(p, P.FreeReturn(t)).value.mem.free)
  {
    hide P.Inv, P.Step;
    ReturnAppends(p, t);
    ElementsAppend(p.mem.free, s.worker.b);
  }

  /** No other step of the pool changes which blocks are free. */
  lemma OtherStepsKeepFree<T>(p: P.State<T>, a: P.Action<T>)
    requires P.Inv(p) && P.Step(p, a).Some? && !a.AllocTake? && !a.FreeReturn?
    ensures P.Step(p, a).value.mem.free == p.mem.free
  {
  }

  /** What a queue holds. */
  function Live<T>(f: Q.Fifo<T>): seq<T>
    requires |f.taken| <= |f.put|
  {
    f.put[|f.taken|..]
  }

  /** An enqueue that does not wait moves its item iff the queue is shorter than its size, and then appends it. */
  lemma EnqueueIsItsSection(f: Q.Fifo<D.Entry>, n: nat, e: D.Entry)
    requires Q.FifoOk(f, n)
    ensures Q.PutOutcome(f, n, Q.Awake).Moved? <==> |Live(f)| < n
    ensures |Live(f)| < n ==>
      var f' := Q.FifoStep(f, n, Q.Put(e, Q.Awake));
      |f'.taken| <= |f'.put| && Live(f') == Live(f) + [e]
  {
  }

  /** A dequeue moves an item iff there is one, the first. */
  lemma DequeueIsItsSection(f: Q.Fifo<D.Entry>, n: nat)
    requires Q.FifoOk(f, n)
    ensures Q.TakeOutcome(f, Q.Awake).Moved? <==> Live(f) != []
    ensures Live(f) != [] ==>
      var f' := Q.FifoStep(f, n, Q.Take(Q.Awake));
      |f'.taken| <= |f'.put| && Live(f') == Live(f)[1..] && f'.taken == f.taken + [Live(f)[0]]
  {
  }
}
