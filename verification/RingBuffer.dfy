/**
 * The single-producer single-consumer byte ring (inc/cutils/ring_buffer.h, src/ring_buffer.c), one call at a time.
 *
 * The 64-bit offsets are unbounded here; every truncation to 32 bits is written out.
 */
module RingBuffers {
  import opened Basics
  import opened Arithmetic
  import opened Rings

  datatype Range = Range(location: nat, length: nat)

  /** A stretch of the ring's memory, handed out without copying. */
  datatype Region = Region(at: nat, length: nat)

  datatype RingData = RingData(regions: seq<Region>, total: nat)

  function LocationInRange(loc: nat, range: Range): bool {
    loc >= range.location && U32(loc - range.location) < range.length
  }

  function MaxOfRange(range: Range): nat {
    U32(range.location + range.length)
  }

  /** At most two regions, inside a memory of `size`. */
  predicate Inside(regions: seq<Region>, size: nat) {
    |regions| <= 2 && forall k :: 0 <= k < |regions| ==> regions[k].at + regions[k].length <= size
  }

  function Piece(memory: seq<Byte>, r: Region): seq<Byte>
    requires r.at + r.length <= |memory|
  {
    memory[r.at..r.at + r.length]
  }

  /** The bytes that the regions denote. */
  function Denoted(memory: seq<Byte>, regions: seq<Region>): seq<Byte>
    requires Inside(regions, |memory|)
  {
    if |regions| == 0 then []
    else if |regions| == 1 then Piece(memory, regions[0])
    else Piece(memory, regions[0]) + Piece(memory, regions[1])
  }

  /** One or two regions: the second when `n` bytes from offset `from` pass the end of the memory. */
  function RegionsFrom(size: nat, from: nat, n: nat): seq<Region>
    requires 0 < size && n <= size
  {
    var at := Place(from, size);
    if n > size - at then [Region(at, size - at), Region(0, n - (size - at))] else [Region(at, n)]
  }

  lemma RegionsDenoteAround(memory: seq<Byte>, from: nat, n: nat)
    requires 0 < |memory| && n <= |memory|
    ensures Inside(RegionsFrom(|memory|, from, n), |memory|)
    ensures Denoted(memory, RegionsFrom(|memory|, from, n)) == Around(memory, from, n)
  {
    AroundPieces(memory, Place(from, |memory|), n);
    AroundPlace(memory, from, n);
  }

  /** ring_buffer_get_data_at_range hands out something when there are unread bytes and the location is among them. */
  predicate Finds(read: nat, avail: nat, location: nat) {
    avail > 0 && LocationInRange(location, Range(U32(read), avail))
  }

  /** What it hands out: the length is limited by all unread bytes, wherever in them the location is. */
  function FetchedAt(size: nat, read: nat, avail: nat, requested: Range): RingData
    requires 0 < avail <= size
  {
    var n := Min(requested.length, avail);
    RingData(RegionsFrom(size, read + U32(requested.location - U32(read)), n), n)
  }

  /** The length of a region of the data; a region that is not there is zeroed. */
  function LengthOf(d: RingData, k: nat): nat {
    if k < |d.regions| then d.regions[k].length else 0
  }

  /** The three assertions that then follow, in 32-bit arithmetic. */
  predicate AllAsserted(d: RingData, move: nat, current: Range, requested: Range) {
    && d.total == U32(LengthOf(d, 0) + LengthOf(d, 1))
    && U32(current.location + move) == requested.location
    && U32(requested.location + d.total) <= MaxOfRange(current)
  }

  /** What they come to: the last one only depends on the offsets and the lengths asked for and available. */
  predicate AssertionsHold(read: nat, avail: nat, requested: Range) {
    U32(requested.location + Min(requested.length, avail)) <= MaxOfRange(Range(U32(read), avail))
  }

  lemma MovedThere(read: nat, location: nat)
    requires location < TWO32
    ensures U32(U32(read) + U32(location - U32(read))) == location
  {
  }

  /** The first two always hold. */
  lemma OnlyTheLastCanFail(size: nat, read: nat, avail: nat, requested: Range)
    requires 0 < avail <= size < TWO32 && requested.location < TWO32
    ensures
      var move, current := U32(requested.location - U32(read)), Range(U32(read), avail);
      var d := FetchedAt(size, read, avail, requested);
      AllAsserted(d, move, current, requested) <==> AssertionsHold(read, avail, requested)
  {
    LengthsAddUp(size, read + U32(requested.location - U32(read)), Min(requested.length, avail));
    MovedThere(read, requested.location);
    hide RegionsFrom, LengthOf, U32;
  }

  lemma LengthsAddUp(size: nat, from: nat, n: nat)
    requires 0 < size && n <= size < TWO32
    ensures var d := RingData(RegionsFrom(size, from, n), n); U32(LengthOf(d, 0) + LengthOf(d, 1)) == n
  {
  }

  lemma GetDataFindsFirst(memory: seq<Byte>, read: nat, avail: nat, length: nat)
    requires avail <= |memory| < TWO32
    ensures Finds(read, avail, U32(read)) <==> avail > 0
    ensures avail > 0 ==>
      var d := FetchedAt(|memory|, read, avail, Range(U32(read), length));
      && d.total == Min(length, avail) && Inside(d.regions, |memory|)
      && Denoted(memory, d.regions) == Around(memory, read, d.total)
  {
    if avail > 0 {
      RegionsDenoteAround(memory, read, Min(length, avail));
    }
  }

  /** Of the unread bytes, those can be found whose position does not carry the 32-bit read offset past 2^32. */
  lemma FindsUnlessLocationWraps(read: nat, avail: nat, k: nat)
    requires k < avail < TWO32
    ensures Finds(read, avail, U32(read + k)) <==> U32(read) + k < TWO32
  {
    ModAdd(read, k, TWO32);
  }

  lemma RangeInsideIsFound(size: nat, read: nat, avail: nat, k: nat, length: nat)
    requires k + length <= avail <= size && k < avail && U32(read) + size < TWO32
    ensures Finds(read, avail, U32(read) + k) && AssertionsHold(read, avail, Range(U32(read) + k, length))
    ensures FetchedAt(size, read, avail, Range(U32(read) + k, length)) ==
      RingData(RegionsFrom(size, read + k, length), length)
  {
    hide RegionsFrom, Place;
  }

  /** A found range inside the unread bytes is handed out exactly, and the assertions hold. */
  lemma RangeInsideIsExact(memory: seq<Byte>, read: nat, avail: nat, k: nat, length: nat)
    requires k + length <= avail <= |memory| && k < avail && U32(read) + |memory| < TWO32
    ensures
      var requested := Range(U32(read) + k, length);
      var d := FetchedAt(|memory|, read, avail, requested);
      && Finds(read, avail, requested.location) && AssertionsHold(read, avail, requested)
      && d.total == length
      && Inside(d.regions, |memory|)
      && Denoted(memory, d.regions) == Around(memory, read, avail)[k..k + length]
  {
    RangeInsideIsFound(|memory|, read, avail, k, length);
    RegionsDenoteAround(memory, read + k, length);
    AroundSlice(memory, read, avail, k, length);
  }

  /** A range that starts at position `k` is cut at the number of unread bytes, not at their end: what is handed out
      stays inside them exactly when the assertions hold. */
  lemma AssertionsHoldIffInside(read: nat, avail: nat, k: nat, length: nat)
    requires k < avail && U32(read) + k + avail < TWO32
    ensures AssertionsHold(read, avail, Range(U32(read) + k, length)) <==> k + Min(length, avail) <= avail
  {
  }

  /** At position zero everything handed out is unread, but the assertions compare 32-bit sums: they fail exactly when
      the end of the unread bytes passes 2^32 and the end of what is handed out does not. */
  lemma GetDataAssertions(read: nat, avail: nat, length: nat)
    requires 0 < avail < TWO32
    ensures AssertionsHold(read, avail, Range(U32(read), length)) <==>
      !(U32(read) + Min(length, avail) < TWO32 <= U32(read) + avail)
  {
    ModAdd(U32(read), Min(length, avail), TWO32);
    ModAdd(U32(read), avail, TWO32);
  }

  /** Such a case: eight unread bytes at offset 2^32 - 4, of which two are asked for. */
  lemma GetDataAssertionCanFail()
    ensures !AssertionsHold(TWO32 - 4, 8, Range(U32(TWO32 - 4), 2))
  {
    GetDataAssertions(TWO32 - 4, 8, 2);
  }

  function Overwritten<T>(s: seq<T>, at: nat, t: seq<T>): seq<T>
    requires at + |t| <= |s|
  {
    s[..at] + t + s[at + |t|..]
  }

  lemma OverwrittenTwice<T>(s: seq<T>, a: seq<T>, b: seq<T>)
    requires |a| + |b| <= |s|
    ensures Overwritten(Overwritten(s, 0, a), |a|, b) == Overwritten(s, 0, a + b)
  {
  }

  class RingBuffer {
    const data: array<Byte>
    var readOffset: nat
    var writeOffset: nat

    ghost predicate Valid()
      reads this
    {
      data.Length < TWO32 && readOffset <= writeOffset <= readOffset + data.Length
    }

    /** The unread bytes, oldest first. */
    ghost function Contents(): seq<Byte>
      requires Valid()
      reads this, data
    {
      Around(data[..], readOffset, writeOffset - readOffset)
    }

    constructor (data: array<Byte>)
      requires data.Length < TWO32
      ensures Valid() && this.data == data && Contents() == []
    {
      this.data := data;
      readOffset, writeOffset := 0, 0;
    }

    function AvailableForRead(): (n: nat)
      requires Valid()
      reads this
      ensures n == writeOffset - readOffset
    {
      U32(writeOffset - readOffset)
    }

    function AvailableForWrite(): (n: nat)
      requires Valid()
      reads this
      ensures n == readOffset + data.Length - writeOffset
    {
      U32(data.Length - AvailableForRead())
    }

    function CurrentRange(): Range
      requires Valid()
      reads this
    {
      Range(U32(readOffset), AvailableForRead())
    }

    method ResetAtOffset(offset: nat)
      requires data.Length < TWO32
      modifies this
      ensures Valid() && Contents() == [] && readOffset == offset
    {
      readOffset, writeOffset := offset, offset;
    }

    /** ring_buffer_write_data: stores as much of `src` as there is room for, and returns how much. */
    method WriteData(src: seq<Byte>) returns (n: nat)
      requires Valid() && |src| < TWO32
      modifies this, data
      ensures Valid() && readOffset == old(readOffset)
      ensures n == Min(|src|, data.Length - |old(Contents())|)
      ensures Contents() == old(Contents()) + src[..n]
    {
      if AvailableForWrite() == 0 || |src| == 0 {
        return 0;
      }
      var at := writeOffset % data.Length;
      PlaceIsMod(writeOffset, data.Length);
      n := Min(|src|, AvailableForWrite());
      CopyRound(data, at, src[..n]);
      AroundWritten(old(data[..]), data[..], readOffset, writeOffset - readOffset, src[..n]);
      writeOffset := writeOffset + n;
    }

    /** ring_buffer_clear_data. */
    method ClearData(length: nat)
      requires Valid()
      modifies this
      ensures Valid() && writeOffset == old(writeOffset)
      ensures Contents() == old(Contents())[Min(length, |old(Contents())|)..]
    {
      readOffset := readOffset + Min(length, AvailableForRead());
    }

    /** The regions of ring_buffer_get_data_at_range. */
    method HandOut(from: nat, n: nat) returns (d: RingData)
      requires 0 < data.Length && n <= data.Length
      ensures d == RingData(RegionsFrom(data.Length, from, n), n)
    {
      var at := from % data.Length;
      PlaceIsMod(from, data.Length);
      var rest := data.Length - at;
      if n > rest {
        d := RingData([Region(at, rest), Region(0, n - rest)], n);
      } else {
        d := RingData([Region(at, n)], n);
      }
    }

    /** Its assertions. */
    method Assert(d: RingData, move: nat, requested: Range) returns (ok: bool)
      requires Valid()
      ensures ok <==> AllAsserted(d, move, CurrentRange(), requested)
    {
      ok := d.total == U32(LengthOf(d, 0) + LengthOf(d, 1));
      ok := ok && U32(CurrentRange().location + move) == requested.location;
      ok := ok && U32(requested.location + d.total) <= MaxOfRange(CurrentRange());
    }

    /** ring_buffer_get_data_at_range; `ok` says whether its assertions hold. */
    method GetDataAtRange(requested: Range, peek: bool) returns (d: RingData, ok: bool)
      requires Valid() && requested.location < TWO32
      modifies this
      ensures Valid() && writeOffset == old(writeOffset)
      ensures
        var r, avail := old(readOffset), old(writeOffset - readOffset);
        if Finds(r, avail, requested.location) then
          && d == FetchedAt(data.Length, r, avail, requested)
          && (ok <==> AllAsserted(d, U32(requested.location - U32(r)), Range(U32(r), avail), requested))
          && (ok <==> AssertionsHold(r, avail, requested))
          && readOffset == r + if peek then 0 else d.total
        else
          d == RingData([], 0) && ok && readOffset == r
    {
      hide U32, RegionsFrom, AllAsserted, AssertionsHold;
      var avail := AvailableForRead();
      if avail == 0 || !LocationInRange(requested.location, CurrentRange()) {
        return RingData([], 0), true;
      }
      var move := U32(requested.location - CurrentRange().location);
      var n := Min(requested.length, avail);
      d := HandOut(readOffset + move, n);
      OnlyTheLastCanFail(data.Length, readOffset, avail, requested);
      ok := Assert(d, move, requested);
      if !peek {
        readOffset := readOffset + n;
      }
    }

    /** ring_buffer_get_data: whatever the offsets, the regions denote the first bytes of the contents. */
    method GetData(length: nat, peek: bool) returns (d: RingData, ok: bool)
      requires Valid()
      modifies this
      ensures Valid() && writeOffset == old(writeOffset)
      ensures d.total == Min(length, |old(Contents())|)
      ensures Inside(d.regions, data.Length)
      ensures Denoted(data[..], d.regions) == old(Contents())[..d.total]
      ensures Contents() == old(Contents())[if peek then 0 else d.total..]
      ensures old(Contents()) != [] ==>
        (ok <==> AssertionsHold(old(readOffset), |old(Contents())|, Range(U32(old(readOffset)), length)))
    {
      hide U32, Place, AllAsserted, AssertionsHold, RegionsFrom;
      ghost var r, avail := readOffset, writeOffset - readOffset;
      GetDataFindsFirst(data[..], r, avail, length);
      d, ok := GetDataAtRange(Range(U32(readOffset), length), peek);
      AroundSplit(data[..], r, avail, d.total);
    }

    method CopyRegion(r: Region, dst: array<Byte>, at: nat)
      requires dst != data && r.at + r.length <= data.Length && at + r.length <= dst.Length
      modifies dst
      ensures dst[..] == Overwritten(old(dst[..]), at, Piece(data[..], r))
    {
      CopyIn(dst, at, data[r.at..r.at + r.length]);
    }

    /** copy_ring_data_to_buffer. */
    method CopyOut(d: RingData, dst: array<Byte>)
      requires dst != data && Inside(d.regions, data.Length)
      requires |Denoted(data[..], d.regions)| <= dst.Length
      modifies dst
      ensures dst[..] == Overwritten(old(dst[..]), 0, Denoted(data[..], d.regions))
    {
      if |d.regions| == 0 {
        assert dst[..] == Overwritten(old(dst[..]), 0, []);
        return;
      }
      CopyRegion(d.regions[0], dst, 0);
      if |d.regions| == 2 {
        OverwrittenTwice(old(dst[..]), Piece(data[..], d.regions[0]), Piece(data[..], d.regions[1]));
        CopyRegion(d.regions[1], dst, d.regions[0].length);
      }
    }
  }
}
