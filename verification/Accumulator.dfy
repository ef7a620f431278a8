/** The overwriting byte window and its iterators (inc/cutils/accumulator.h). */
module Accumulators {
  import opened Basics
  import opened Rings

  /** The largest buffer for which the sum of two positions fits into 32 bits. */
  const MAX_SIZE: nat := 0x8000_0000

  predicate SumFits(i: nat, k: nat) {
    U32(i + k) == i + k
  }

  lemma SumsFitIffSmall(total: nat)
    ensures (forall i: nat, k: nat :: i < total && k < total ==> SumFits(i, k)) <==> total <= MAX_SIZE
  {
    if total > MAX_SIZE {
      assert !SumFits(MAX_SIZE, MAX_SIZE);
    }
  }

  // ---------------------------------------------------------------- positions

  /** accumulator_bytes_contained_from: bytes from position `i` up to position `inPos`. */
  function BytesFrom(total: nat, inPos: nat, i: nat): (n: nat)
    requires inPos < total && i < total
    ensures n < total && (n == 0 <==> i == inPos)
  {
    if inPos >= i then inPos - i else total - (i - inPos)
  }

  /** Going forward by no more than the bytes there are brings a position closer to their end by as much. */
  lemma BytesFromForward(total: nat, inPos: nat, i: nat, k: nat)
    requires inPos < total && i < total && k <= BytesFrom(total, inPos, i)
    ensures BytesFrom(total, inPos, Place(i + k, total)) == BytesFrom(total, inPos, i) - k
  {
    PlaceAdd(i, k, total);
  }

  /** Going forward by more comes out behind their end. */
  lemma BytesFromBeyond(total: nat, inPos: nat, i: nat, k: nat)
    requires inPos < total && i < total && BytesFrom(total, inPos, i) < k < total
    ensures BytesFrom(total, inPos, Place(i + k, total)) == BytesFrom(total, inPos, i) + total - k
  {
    PlaceAdd(i, k, total);
  }

  // ---------------------------------------------------------------- iterators

  predicate IteratorValid(inPos: nat, outPos: nat, i: nat) {
    inPos != outPos && i != inPos
  }

  /** accumulator_iterator_next; None when it returns false. */
  function IteratorNext(total: nat, inPos: nat, outPos: nat, i: nat): Option<nat>
    requires total > 0
  {
    if IteratorValid(inPos, outPos, i) then Some(Place(Add32(i, 1), total)) else None
  }

  /** accumulator_iterator_advance. */
  function IteratorAdvance(total: nat, inPos: nat, i: nat, k: nat): Option<nat>
    requires inPos < total && i < total
  {
    var j := Place(Add32(i, k), total);
    if k <= BytesFrom(total, inPos, i) && j != inPos then Some(j) else None
  }

  function NextTimes(total: nat, inPos: nat, outPos: nat, i: nat, k: nat): Option<nat>
    requires total > 0
    decreases k
  {
    if k == 0 then Some(i)
    else
      match IteratorNext(total, inPos, outPos, i)
      case None => None
      case Some(j) => NextTimes(total, inPos, outPos, j, k - 1)
  }

  /** From a valid iterator, advancing by `k` succeeds iff bytes remain behind the `k` that are skipped. */
  lemma AdvanceIff(total: nat, inPos: nat, outPos: nat, i: nat, k: nat)
    requires inPos < total <= MAX_SIZE && outPos < total && i < total && IteratorValid(inPos, outPos, i)
    ensures IteratorAdvance(total, inPos, i, k).Some? <==> k < BytesFrom(total, inPos, i)
  {
    if k <= BytesFrom(total, inPos, i) {
      BytesFromForward(total, inPos, i, k);
    }
  }

  /** It then does what `k` single steps do. */
  lemma {:induction false} AdvanceIsNextTimes(total: nat, inPos: nat, outPos: nat, i: nat, k: nat)
    requires inPos < total <= MAX_SIZE && outPos < total && i < total && IteratorValid(inPos, outPos, i)
    requires k < BytesFrom(total, inPos, i)
    ensures IteratorAdvance(total, inPos, i, k) == NextTimes(total, inPos, outPos, i, k)
    decreases k
  {
    AdvanceIff(total, inPos, outPos, i, k);
    if k > 0 {
      var j := Place(i + 1, total);
      BytesFromForward(total, inPos, i, 1);
      AdvanceIff(total, inPos, outPos, j, k - 1);
      AdvanceIsNextTimes(total, inPos, outPos, j, k - 1);
      PlaceOfPlace(i + 1, k - 1, total);
    }
  }

  /** The bytes accumulator_peek_at copies out. */
  function PeekedAt(buf: seq<Byte>, inPos: nat, i: nat, size: nat): seq<Byte>
    requires inPos < |buf|
  {
    if i >= |buf| then [] else Around(buf, i, Min(size, BytesFrom(|buf|, inPos, i)))
  }

  /** The loop "peek at one byte, go to the next", from iterator `i` until going to the next is refused. */
  function Collected(buf: seq<Byte>, inPos: nat, outPos: nat, i: nat): seq<Byte>
    requires inPos < |buf| <= MAX_SIZE && outPos < |buf| && i < |buf|
    decreases BytesFrom(|buf|, inPos, i)
  {
    match IteratorNext(|buf|, inPos, outPos, i)
    case None => []
    case Some(j) =>
      BytesFromForward(|buf|, inPos, i, 1);
      PeekedAt(buf, inPos, i, 1) + Collected(buf, inPos, outPos, j)
  }

  /** Iterating from a position of non-empty contents collects exactly the bytes from there to their end, one a step. */
  lemma {:induction false} IterationCollects(buf: seq<Byte>, inPos: nat, outPos: nat, i: nat)
    requires inPos < |buf| <= MAX_SIZE && outPos < |buf| && i < |buf| && (inPos == outPos ==> i == outPos)
    ensures Collected(buf, inPos, outPos, i) == Around(buf, i, BytesFrom(|buf|, inPos, i))
    decreases BytesFrom(|buf|, inPos, i)
  {
    if IteratorValid(inPos, outPos, i) {
      BytesFromForward(|buf|, inPos, i, 1);
      IterationCollects(buf, inPos, outPos, Place(i + 1, |buf|));
      AroundFirst(buf, i, BytesFrom(|buf|, inPos, i));
    }
  }

  /** Every position is moved in this way. */
  method Forward(total: nat, i: nat, k: nat) returns (j: nat)
    requires i < total <= MAX_SIZE && k < total
    ensures j == Place(i + k, total)
  {
    PlaceIsMod(i + k, total);
    j := U32(i + k) % total;
  }

  // ---------------------------------------------------------------- the accumulator

  class Accumulator {
    const buf: array<Byte>
    var inPos: nat
    var outPos: nat

    ghost predicate Valid()
      reads this
    {
      buf.Length <= MAX_SIZE && inPos < buf.Length && outPos < buf.Length
    }

    /** The window, oldest byte first. */
    ghost function Contents(): seq<Byte>
      requires Valid()
      reads this, buf
    {
      Around(buf[..], outPos, BytesFrom(buf.Length, inPos, outPos))
    }

    /** accumulator_create. */
    constructor (buf: array<Byte>)
      requires 0 < buf.Length <= MAX_SIZE
      ensures Valid() && this.buf == buf && Contents() == []
    {
      this.buf := buf;
      inPos, outPos := 0, 0;
    }

    /** accumulator_bytes_contained. */
    function BytesContained(): (n: nat)
      requires Valid()
      reads this, buf
      ensures n == |Contents()|
    {
      BytesFrom(buf.Length, inPos, outPos)
    }

    /** accumulator_bytes_left: one place always stays free. */
    function BytesLeft(): (n: nat)
      requires Valid()
      reads this, buf
      ensures BytesContained() + n == buf.Length - 1
    {
      (if inPos >= outPos then buf.Length - (inPos - outPos) else outPos - inPos) - 1
    }

    method Clear()
      requires Valid()
      modifies this
      ensures Valid() && Contents() == []
    {
      inPos, outPos := 0, 0;
    }

    /** Moves the out position on, as overwriting and extracting do; `k` bytes leave the window. */
    method Drop(k: nat)
      requires Valid() && k <= BytesContained()
      modifies this`outPos
      ensures Valid() && Contents() == old(Contents())[k..]
    {
      BytesFromForward(buf.Length, inPos, outPos, k);
      AroundSplit(buf[..], outPos, BytesContained(), k);
      AroundPlace(buf[..], outPos + k, BytesContained() - k);
      outPos := Forward(buf.Length, outPos, k);
    }

    /** What storing `src` at the in position and moving it on does. */
    lemma Appended(memory: seq<Byte>, src: seq<Byte>)
      requires Valid() && |src| <= BytesLeft() && |memory| == buf.Length
      requires Written(memory, buf[..], inPos, src)
      ensures BytesFrom(buf.Length, Place(inPos + |src|, buf.Length), outPos) == BytesContained() + |src|
      ensures Around(buf[..], outPos, BytesContained() + |src|) == Around(memory, outPos, BytesContained()) + src
    {
      hide Around, Place;
      PlaceAdd(inPos, |src|, buf.Length);
      PlaceAdd(outPos, BytesContained(), buf.Length);
      AroundWritten(memory, buf[..], outPos, BytesContained(), src);
    }

    method Store(src: seq<Byte>)
      requires Valid() && |src| <= BytesLeft()
      modifies this`inPos, buf
      ensures Valid() && Contents() == old(Contents()) + src
    {
      ghost var memory := buf[..];
      CopyRound(buf, inPos, src);
      Appended(memory, src);
      inPos := Forward(buf.Length, inPos, |src|);
    }

    /** The first step of accumulator_insert: the oldest bytes make room. */
    method MakeRoom(size: nat)
      requires Valid() && size < buf.Length
      modifies this`outPos
      ensures Valid() && size <= BytesLeft()
      ensures Contents() == Last(old(Contents()), buf.Length - 1 - size)
    {
      if size > BytesLeft() {
        Drop(size - BytesLeft());
      }
    }

    /** accumulator_insert: any insertion shorter than the buffer succeeds, the oldest bytes making room. */
    method Insert(src: seq<Byte>) returns (ok: bool)
      requires Valid()
      modifies this, buf
      ensures Valid()
      ensures ok <==> |src| < buf.Length
      ensures Contents() == if ok then Last(old(Contents()) + src, buf.Length - 1) else old(Contents())
    {
      hide Around, BytesFrom, Last;
      ok := false;
      if |src| < buf.Length {
        ghost var before := Contents();
        MakeRoom(|src|);
        ghost var kept := Contents();
        if |src| <= BytesLeft() {
          Store(src);
          LastAppended(before, kept, src, buf.Length - 1, Contents());
          ok := true;
        }
      }
    }

    /** accumulator_peek. */
    method Peek(dst: array<Byte>, size: nat) returns (ok: bool)
      requires Valid() && size <= dst.Length && dst != buf
      modifies dst
      ensures ok <==> size <= |Contents()|
      ensures dst[..] == if ok then Contents()[..size] + old(dst[size..]) else old(dst[..])
    {
      ok := false;
      if size <= BytesContained() {
        AroundSplit(buf[..], outPos, BytesContained(), size);
        FetchRound(dst, buf, outPos, size);
        ok := true;
      }
    }

    /** accumulator_extract: takes out exactly what peeking shows. */
    method Extract(dst: array<Byte>, size: nat) returns (ok: bool)
      requires Valid() && size <= dst.Length && dst != buf
      modifies this, dst
      ensures Valid()
      ensures ok <==> size <= |old(Contents())|
      ensures dst[..] == if ok then old(Contents())[..size] + old(dst[size..]) else old(dst[..])
      ensures Contents() == if ok then old(Contents())[size..] else old(Contents())
    {
      ok := Peek(dst, size);
      if ok {
        Drop(size);
      }
    }

    /** accumulator_advance drops `size` bytes, but does not look how many there are: asked for more, it puts what is in
        the free places from there on in front of the window instead. It returns false in any case. */
    method Advance(size: nat) returns (ok: bool)
      requires Valid()
      modifies this`outPos
      ensures Valid() && !ok
      ensures
        var k := Min(size, buf.Length - 1);
        if k <= |old(Contents())| then Contents() == old(Contents())[k..]
        else Contents() == Around(buf[..], old(outPos), buf.Length)[k..] + old(Contents())
      ensures |Contents()| > |old(Contents())| <==> Min(size, buf.Length - 1) > |old(Contents())|
    {
      var k := Min(size, buf.Length - 1);
      if k <= BytesContained() {
        Drop(k);
      } else {
        BytesFromBeyond(buf.Length, inPos, outPos, k);
        AroundOnce(buf[..], outPos, k, BytesContained());
        outPos := Forward(buf.Length, outPos, k);
      }
      ok := false;
    }

    /** What an iterator at the byte `k` of the window peeks at: the bytes from there on, as many as asked for. */
    lemma PeekedAtIs(k: nat, size: nat)
      requires Valid() && k <= BytesContained()
      ensures PeekedAt(buf[..], inPos, Place(outPos + k, buf.Length), size)
           == Contents()[k..k + Min(size, BytesContained() - k)]
    {
      var n := Min(size, BytesContained() - k);
      BytesFromForward(buf.Length, inPos, outPos, k);
      AroundPlace(buf[..], outPos + k, n);
      AroundSlice(buf[..], outPos, BytesContained(), k, n);
    }

    /** accumulator_peek_at. */
    method PeekAt(i: nat, dst: array<Byte>, size: nat) returns (n: nat)
      requires Valid() && size <= dst.Length && dst != buf
      modifies dst
      ensures i >= buf.Length ==> n == 0
      ensures n == |PeekedAt(buf[..], inPos, i, size)|
      ensures dst[..] == PeekedAt(buf[..], inPos, i, size) + old(dst[n..])
    {
      if i >= buf.Length {
        return 0;
      }
      n := Min(size, BytesFrom(buf.Length, inPos, i));
      FetchRound(dst, buf, i, n);
    }
  }
}
