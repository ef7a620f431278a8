/**
 * The thread-safe bounded queue (inc/cutils/pthread/ts_queue.h).
 *
 * Every access happens in a section of code that holds the mutex: from taking it, or waking up with it, to releasing
 * it or waiting.  An interleaving of any number of producers and consumers is a sequence of such sections, so what
 * holds after every sequence of sections holds in every interleaving, whatever wake-ups and timeouts occur.
 */
module TsQueues {
  import opened Basics
  import opened Arithmetic

  // ---------------------------------------------------------------- masking

  /** Bitwise conjunction. */
  function And(a: nat, b: nat): nat {
    if a == 0 || b == 0 then 0 else 2 * And(a / 2, b / 2) + if a % 2 == 1 && b % 2 == 1 then 1 else 0
  }

  predicate IsPowerOfTwo(n: nat) {
    n == 1 || (n > 0 && n % 2 == 0 && IsPowerOfTwo(n / 2))
  }

  lemma {:induction false} AndSelf(a: nat)
    ensures And(a, a) == a
  {
    if a > 0 {
      AndSelf(a / 2);
    }
  }

  /** The size check of ts_queue_init accepts exactly the powers of two. */
  lemma {:induction false} SizeCheckIsPowerOfTwo(n: nat)
    requires n > 0
    ensures And(n, n - 1) == 0 <==> IsPowerOfTwo(n)
  {
    if n % 2 == 0 {
      assert (n - 1) / 2 == n / 2 - 1;
      SizeCheckIsPowerOfTwo(n / 2);
    } else if n > 1 {
      assert (n - 1) / 2 == n / 2;
      AndSelf(n / 2);
    }
  }

  /** For the accepted sizes, masking with size - 1 is the remainder by size. */
  lemma {:induction false} MaskIsModulo(h: nat, n: nat)
    requires n > 0 && And(n, n - 1) == 0
    ensures And(h, n - 1) == h % n
  {
    SizeCheckIsPowerOfTwo(n);
    if n > 1 {
      var m := n / 2;
      SizeCheckIsPowerOfTwo(m);
      MaskIsModulo(h / 2, m);
      assert n == 2 * m && (n - 1) / 2 == m - 1 && (n - 1) % 2 == 1;
      assert h == 2 * (h / 2) + h % 2;
      ModDouble(h, m);
    }
  }

  lemma ModDouble(h: nat, m: nat)
    requires m > 0
    ensures h % (2 * m) == 2 * (h / 2 % m) + h % 2
  {
    var q, r := h / 2 / m, h / 2 % m;
    assert h / 2 == q * m + r;
    assert h == q * (2 * m) + (2 * r + h % 2);
    ModIs(h, 2 * m, q, 2 * r + h % 2);
  }

  // ---------------------------------------------------------------- the bounded FIFO that the queue implements

  /** What the last wait of a thread returned; Awake also before any wait. */
  datatype WaitResult = Awake | TimedOut | Failed

  /** How a section ends: the item was moved, the thread waits, or the call gives up. */
  datatype Outcome = Moved | MustWait | Refused

  datatype Section<T> = Put(item: T, rval: WaitResult) | Take(rval: WaitResult)

  /** All items ever put and all items ever taken, oldest first. */
  datatype Fifo<T> = Fifo(put: seq<T>, taken: seq<T>)

  predicate FifoOk<T(==)>(f: Fifo<T>, size: nat) {
    |f.taken| <= |f.put| <= |f.taken| + size && f.taken == f.put[..|f.taken|]
  }

  function PutOutcome<T>(f: Fifo<T>, size: nat, rval: WaitResult): Outcome {
    if rval.TimedOut? then Refused else if |f.put| - |f.taken| >= size then MustWait else Moved
  }

  function TakeOutcome<T>(f: Fifo<T>, rval: WaitResult): Outcome {
    if rval.TimedOut? then Refused
    else if |f.put| <= |f.taken| then MustWait
    else if rval.Failed? then Refused
    else Moved
  }

  function FifoStep<T>(f: Fifo<T>, size: nat, section: Section<T>): Fifo<T> {
    match section
    case Put(item, rval) => if PutOutcome(f, size, rval).Moved? then f.(put := f.put + [item]) else f
    case Take(rval) =>
      if TakeOutcome(f, rval).Moved? && |f.taken| < |f.put| then f.(taken := f.taken + [f.put[|f.taken|]]) else f
  }

  function FifoRun<T>(f: Fifo<T>, size: nat, sections: seq<Section<T>>): Fifo<T> {
    if sections == [] then f
    else FifoStep(FifoRun(f, size, sections[..|sections| - 1]), size, sections[|sections| - 1])
  }

  /** In every interleaving, what has been taken is a prefix of what has been put, at most `size` items are between the
      two, and neither record ever loses an item. */
  lemma {:induction false} FifoInEveryInterleaving<T>(f: Fifo<T>, size: nat, sections: seq<Section<T>>)
    requires FifoOk(f, size)
    ensures FifoOk(FifoRun(f, size, sections), size)
    ensures f.put <= FifoRun(f, size, sections).put && f.taken <= FifoRun(f, size, sections).taken
  {
    if sections != [] {
      FifoInEveryInterleaving(f, size, sections[..|sections| - 1]);
    }
  }

  // ---------------------------------------------------------------- whole calls

  /** While a thread waits, other threads run sections; then the wait returns. */
  datatype Wake<T> = Wake(others: seq<Section<T>>, rval: WaitResult)

  /** A thread's sections, each after the wait before it; MustWait if it is still waiting when `wakes` runs out. */
  function CallRun<T>(f: Fifo<T>, size: nat, section: Section<T>, wakes: seq<Wake<T>>): (Fifo<T>, Outcome)
    decreases |wakes|
  {
    var o := if section.Put? then PutOutcome(f, size, section.rval) else TakeOutcome(f, section.rval);
    var f' := FifoStep(f, size, section);
    if o.MustWait? && wakes != [] then
      CallRun(FifoRun(f', size, wakes[0].others), size, section.(rval := wakes[0].rval), wakes[1..])
    else
      (f', o)
  }

  predicate NeverGivenUp<T>(rval: WaitResult, wakes: seq<Wake<T>>) {
    rval.Awake? && forall k :: 0 <= k < |wakes| ==> wakes[k].rval.Awake?
  }

  /** A call that moved its item did so in its last section, on top of whatever the others did; a call gives up only
      after a wait that did not end with a plain wake-up, and then has moved nothing in its last section. */
  lemma {:induction false} CallInEveryInterleaving<T>(f: Fifo<T>, size: nat, section: Section<T>, wakes: seq<Wake<T>>)
    requires FifoOk(f, size)
    ensures FifoOk(CallRun(f, size, section, wakes).0, size)
    ensures f.put <= CallRun(f, size, section, wakes).0.put && f.taken <= CallRun(f, size, section, wakes).0.taken
    ensures CallRun(f, size, section, wakes).1.Moved? ==>
      var f' := CallRun(f, size, section, wakes).0;
      if section.Put? then |f'.put| > |f.put| && f'.put[|f'.put| - 1] == section.item else |f'.taken| > |f.taken|
    ensures CallRun(f, size, section, wakes).1.Refused? ==> !NeverGivenUp(section.rval, wakes)
    decreases |wakes|
  {
    var o := if section.Put? then PutOutcome(f, size, section.rval) else TakeOutcome(f, section.rval);
    if o.MustWait? && wakes != [] {
      var f' := FifoRun(f, size, wakes[0].others);
      FifoInEveryInterleaving(f, size, wakes[0].others);
      CallInEveryInterleaving(f', size, section.(rval := wakes[0].rval), wakes[1..]);
    }
  }

  /** The queue after the first `i` waits of a call that has not moved anything. */
  function QueueAt<T>(f: Fifo<T>, size: nat, wakes: seq<Wake<T>>, i: nat): Fifo<T>
    requires i <= |wakes|
  {
    if i == 0 then f else FifoRun(QueueAt(f, size, wakes, i - 1), size, wakes[i - 1].others)
  }

  lemma {:induction false} QueueBehind<T>(f: Fifo<T>, size: nat, wakes: seq<Wake<T>>, i: nat)
    requires 0 < i <= |wakes|
    ensures QueueAt(f, size, wakes, i) == QueueAt(FifoRun(f, size, wakes[0].others), size, wakes[1..], i - 1)
  {
    if i > 1 {
      QueueBehind(f, size, wakes, i - 1);
    }
  }

  /** An enqueue makes `n` waits, each while the queue is full.  It is refused iff the last one timed out, and then the
      queue is as the others have left it; it still waits iff its wake-ups are used up and the queue is full; otherwise
      it appends its item. */
  lemma {:induction false} PutEnds<T>(f: Fifo<T>, size: nat, item: T, rval: WaitResult, wakes: seq<Wake<T>>)
      returns (n: nat)
    ensures n <= |wakes| && (rval.TimedOut? ==> n == 0)
    ensures forall i :: 0 <= i < n ==> |QueueAt(f, size, wakes, i).put| >= |QueueAt(f, size, wakes, i).taken| + size
    ensures forall i :: 0 <= i < n - 1 ==> !wakes[i].rval.TimedOut?
    ensures
      var q, (f', o) := QueueAt(f, size, wakes, n), CallRun(f, size, Put(item, rval), wakes);
      if (if n > 0 then wakes[n - 1].rval else rval).TimedOut? then o.Refused? && f' == q
      else if |q.put| >= |q.taken| + size then o.MustWait? && n == |wakes| && f' == q
      else o.Moved? && f' == Fifo(q.put + [item], q.taken)
    decreases |wakes|
  {
    n := 0;
    if PutOutcome(f, size, rval).MustWait? && wakes != [] {
      var now := FifoRun(f, size, wakes[0].others);
      assert CallRun(f, size, Put(item, rval), wakes) == CallRun(now, size, Put(item, wakes[0].rval), wakes[1..]);
      hide CallRun, FifoStep, FifoRun;
      var rest := PutEnds(now, size, item, wakes[0].rval, wakes[1..]);
      n := rest + 1;
      forall i | 0 < i <= n ensures QueueAt(f, size, wakes, i) == QueueAt(now, size, wakes[1..], i - 1) {
        QueueBehind(f, size, wakes, i);
      }
    }
  }

  lemma TakeWaits<T>(f: Fifo<T>, size: nat, rval: WaitResult, wakes: seq<Wake<T>>)
    requires TakeOutcome(f, rval).MustWait? && wakes != []
    ensures
      CallRun(f, size, Take(rval), wakes) ==
      CallRun(FifoRun(f, size, wakes[0].others), size, Take(wakes[0].rval), wakes[1..])
  {
    hide FifoRun;
  }

  lemma TakeEndsAtOnce<T>(f: Fifo<T>, size: nat, rval: WaitResult, wakes: seq<Wake<T>>)
    requires !TakeOutcome(f, rval).MustWait? || wakes == []
    ensures
      var (f', o) := CallRun(f, size, Take(rval), wakes);
      if rval.TimedOut? then o.Refused? && f' == f
      else if |f.put| <= |f.taken| then o.MustWait? && wakes == [] && f' == f
      else if rval.Failed? then o.Refused? && f' == f
      else o.Moved? && f' == Fifo(f.put, f.taken + [f.put[|f.taken|]])
  {
  }

  /** A dequeue makes `n` waits, each while the queue is empty. It is refused iff the last one timed out, or failed
      with an item there, and then the queue is as the others have left it; it still waits iff its wake-ups are used
      up and the queue is empty; otherwise it takes the oldest item. */
  lemma {:induction false} TakeEnds<T>(f: Fifo<T>, size: nat, rval: WaitResult, wakes: seq<Wake<T>>) returns (n: nat)
    ensures n <= |wakes| && (rval.TimedOut? ==> n == 0)
    ensures forall i :: 0 <= i < n ==> |QueueAt(f, size, wakes, i).put| <= |QueueAt(f, size, wakes, i).taken|
    ensures forall i :: 0 <= i < n - 1 ==> !wakes[i].rval.TimedOut?
    ensures
      var q, (f', o) := QueueAt(f, size, wakes, n), CallRun(f, size, Take(rval), wakes);
      var last := if n > 0 then wakes[n - 1].rval else rval;
      if last.TimedOut? then o.Refused? && f' == q
      else if |q.put| <= |q.taken| then o.MustWait? && n == |wakes| && f' == q
      else if last.Failed? then o.Refused? && f' == q
      else o.Moved? && f' == Fifo(q.put, q.taken + [q.put[|q.taken|]])
    decreases |wakes|
  {
    hide CallRun, FifoStep, FifoRun;
    n := 0;
    if !TakeOutcome(f, rval).MustWait? || wakes == [] {
      TakeEndsAtOnce(f, size, rval, wakes);
    } else {
      var now := FifoRun(f, size, wakes[0].others);
      TakeWaits(f, size, rval, wakes);
      var rest := TakeEnds(now, size, wakes[0].rval, wakes[1..]);
      n := rest + 1;
      forall i | 0 < i <= n ensures QueueAt(f, size, wakes, i) == QueueAt(now, size, wakes[1..], i - 1) {
        QueueBehind(f, size, wakes, i);
      }
    }
  }

  // ---------------------------------------------------------------- the queue

  class TsQueue<T(0)> {
    const slots: array<T>
    const size: nat
    var count: nat
    var head: nat
    var tail: nat
    ghost var fifo: Fifo<T>

    ghost predicate Valid()
      reads this, slots
    {
      && slots.Length == size > 0 && And(size, size - 1) == 0
      && FifoOk(fifo, size) && head == |fifo.put| && tail == |fifo.taken| && count == head - tail
      && (forall k :: tail <= k < head ==> slots[k % size] == fifo.put[k])
    }

    constructor (slots: array<T>)
      requires slots.Length > 0 && And(slots.Length, slots.Length - 1) == 0
      ensures Valid() && this.slots == slots && fifo == Fifo([], [])
    {
      this.slots, size := slots, slots.Length;
      count, head, tail := 0, 0, 0;
      fifo := Fifo([], []);
    }

    /** The item goes to the slot behind the others. */
    method Store(item: T)
      requires Valid() && head < tail + size
      modifies this, slots
      ensures Valid() && fifo == Fifo(old(fifo).put + [item], old(fifo).taken)
    {
      hide And;
      MaskIsModulo(head, size);
      forall k | tail <= k < head
        ensures k % size != head % size
      {
        ModDistinct(k, head, size);
      }
      slots[And(head, size - 1)] := item;
      head := head + 1;
      count := count + 1;
      fifo := fifo.(put := fifo.put + [item]);
    }

    /** One mutex-protected section of ts_queue_enqueue, entered with the result of the last wait. */
    method PutSection(item: T, rval: WaitResult) returns (o: Outcome)
      requires Valid()
      modifies this, slots
      ensures Valid()
      ensures o == PutOutcome(old(fifo), size, rval)
      ensures fifo == FifoStep(old(fifo), size, Put(item, rval))
    {
      if tail + size <= head && rval != TimedOut {
        return MustWait;
      }
      if rval != TimedOut {
        Store(item);
        return Moved;
      }
      return Refused;
    }

    /** One mutex-protected section of ts_queue_dequeue. */
    method TakeSection(rval: WaitResult) returns (o: Outcome, item: Option<T>)
      requires Valid()
      modifies this
      ensures Valid()
      ensures o == TakeOutcome(old(fifo), rval)
      ensures fifo == FifoStep(old(fifo), size, Take(rval))
      ensures item == if o.Moved? then Some(old(fifo).put[|old(fifo).taken|]) else None
    {
      item := None;
      if tail >= head && rval != TimedOut {
        return MustWait, None;
      }
      if rval == Awake {
        MaskIsModulo(tail, size);
        item := Some(slots[And(tail, size - 1)]);
        fifo := fifo.(taken := fifo.taken + [fifo.put[tail]]);
        tail := tail + 1;
        count := count - 1;
        return Moved, item;
      }
      return Refused, None;
    }

    /** What the other threads do while one of them waits. */
    method RunSections(sections: seq<Section<T>>)
      requires Valid()
      modifies this, slots
      ensures Valid()
      ensures fifo == FifoRun(old(fifo), size, sections)
    {
      for n := 0 to |sections|
        invariant Valid()
        invariant fifo == FifoRun(old(fifo), size, sections[..n])
      {
        match sections[n] {
          case Put(item, rval) => var _ := PutSection(item, rval);
          case Take(rval) => var _, _ := TakeSection(rval);
        }
        assert sections[..n + 1][..n] == sections[..n];
      }
      assert sections[..|sections|] == sections;
    }

    /** ts_queue_enqueue; a missing item is refused. */
    method Enqueue(item: Option<T>, wakes: seq<Wake<T>>) returns (o: Outcome)
      requires Valid()
      modifies this, slots
      ensures Valid()
      ensures item.None? ==> o.Refused? && fifo == old(fifo)
      ensures item.Some? ==> (fifo, o) == CallRun(old(fifo), size, Put(item.value, Awake), wakes)
    {
      if item.None? {
        return Refused;
      }
      var rval, k := Awake, 0;
      o := PutSection(item.value, rval);
      while o.MustWait? && k < |wakes|
        invariant Valid() && k <= |wakes|
        invariant o.MustWait? ==> PutOutcome(fifo, size, rval).MustWait?
        invariant CallRun(old(fifo), size, Put(item.value, Awake), wakes)
               == if o.MustWait? then CallRun(fifo, size, Put(item.value, rval), wakes[k..]) else (fifo, o)
      {
        RunSections(wakes[k].others);
        rval := wakes[k].rval;
        o := PutSection(item.value, rval);
        k := k + 1;
      }
    }

    /** ts_queue_dequeue. */
    method Dequeue(wakes: seq<Wake<T>>) returns (o: Outcome, item: Option<T>)
      requires Valid()
      modifies this, slots
      ensures Valid()
      ensures (fifo, o) == CallRun(old(fifo), size, Take(Awake), wakes)
      ensures o.Moved? ==> |fifo.taken| > 0 && item == Some(fifo.taken[|fifo.taken| - 1])
      ensures !o.Moved? ==> item == None
    {
      var rval, k := Awake, 0;
      o, item := TakeSection(rval);
      while o.MustWait? && k < |wakes|
        invariant Valid() && k <= |wakes|
        invariant o.MustWait? ==> TakeOutcome(fifo, rval).MustWait?
        invariant if o.Moved? then |fifo.taken| > 0 && item == Some(fifo.taken[|fifo.taken| - 1]) else item == None
        invariant CallRun(old(fifo), size, Take(Awake), wakes)
               == if o.MustWait? then CallRun(fifo, size, Take(rval), wakes[k..]) else (fifo, o)
      {
        RunSections(wakes[k].others);
        rval := wakes[k].rval;
        o, item := TakeSection(rval);
        k := k + 1;
      }
    }
  }

  /** ts_queue_init: no queue unless the size is a power of two and the mutex and the conditions could be made, which
      `made` says. */
  method Init<T(0)>(slots: array<T>, made: bool) returns (q: Option<TsQueue<T>>)
    ensures q.Some? <==> IsPowerOfTwo(slots.Length) && made
    ensures q.Some? ==> q.value.Valid() && q.value.slots == slots && q.value.fifo == Fifo([], []) && fresh(q.value)
  {
    if slots.Length > 0 {
      SizeCheckIsPowerOfTwo(slots.Length);
    }
    if slots.Length > 0 && And(slots.Length, slots.Length - 1) == 0 && made {
      var queue := new TsQueue(slots);
      q := Some(queue);
    } else {
      q := None;
    }
  }
}
