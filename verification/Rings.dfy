/** Reading a memory round its end. */
module Rings {
  import opened Basics
  import opened Arithmetic

  /** The place of offset `h` in a memory of `n`: the remainder of `h`, in a form that needs no division. */
  function Place(h: nat, n: nat): (p: nat)
    requires n > 0
    ensures p < n
    ensures h < n ==> p == h
  {
    if h < n then h else Place(h - n, n)
  }

  lemma {:induction false} PlaceDivides(h: nat, n: nat) returns (q: nat)
    requires n > 0
    ensures h == q * n + Place(h, n)
    decreases h
  {
    if h < n {
      q := 0;
    } else {
      var before := PlaceDivides(h - n, n);
      q := before + 1;
      assert q * n == before * n + n;
    }
  }

  lemma PlaceIsMod(h: nat, n: nat)
    requires n > 0
    ensures Place(h, n) == h % n
  {
    var q := PlaceDivides(h, n);
    ModIs(h, n, q, Place(h, n));
  }

  /** Going on by `k` moves the place by `k`, round the end once at most. */
  lemma {:induction false} PlaceAdd(h: nat, k: nat, n: nat)
    requires n > 0 && k <= n
    ensures Place(h + k, n) == if Place(h, n) + k < n then Place(h, n) + k else Place(h, n) + k - n
    decreases h
  {
    if h >= n {
      PlaceAdd(h - n, k, n);
    }
  }

  /** The `n` elements from offset `from` on, going round the memory. */
  function Around<T>(memory: seq<T>, from: nat, n: nat): (r: seq<T>)
    requires n <= |memory|
    ensures |r| == n
  {
    seq(n, k requires 0 <= k < n => memory[Place(from + k, |memory|)])
  }

  lemma AroundSplit<T>(memory: seq<T>, from: nat, n: nat, k: nat)
    requires k <= n <= |memory|
    ensures Around(memory, from, n)[..k] == Around(memory, from, k)
    ensures Around(memory, from, n)[k..] == Around(memory, from + k, n - k)
  {
  }

  lemma AroundSlice<T>(memory: seq<T>, from: nat, n: nat, k: nat, length: nat)
    requires k + length <= n <= |memory|
    ensures Around(memory, from, n)[k..k + length] == Around(memory, from + k, length)
  {
  }

  lemma PlaceOfPlace(h: nat, k: nat, n: nat)
    requires n > 0 && k <= n
    ensures Place(Place(h, n) + k, n) == Place(h + k, n)
  {
    PlaceAdd(h, k, n);
    PlaceAdd(Place(h, n), k, n);
  }

  /** Offsets with the same place are read the same way. */
  lemma AroundPlace<T>(memory: seq<T>, from: nat, n: nat)
    requires 0 < |memory| && n <= |memory|
    ensures Around(memory, Place(from, |memory|), n) == Around(memory, from, n)
  {
    forall k | 0 <= k < n
      ensures Around(memory, Place(from, |memory|), n)[k] == Around(memory, from, n)[k]
    {
      PlaceOfPlace(from, k, |memory|);
    }
  }

  lemma AroundFirst<T>(memory: seq<T>, from: nat, n: nat)
    requires from < |memory| && 0 < n <= |memory|
    ensures Around(memory, from, n) == [memory[from]] + Around(memory, Place(from + 1, |memory|), n - 1)
    ensures Around(memory, from, 1) == [memory[from]]
  {
    AroundPlace(memory, from + 1, n - 1);
    AroundSplit(memory, from, n, 1);
    AroundPieces(memory, from, 1);
    assert Around(memory, from, n) == Around(memory, from, n)[..1] + Around(memory, from, n)[1..];
  }

  /** What lies between `k` places on and `n` places after one round. */
  lemma AroundOnce<T>(memory: seq<T>, from: nat, k: nat, n: nat)
    requires 0 < |memory| && n < k <= |memory|
    ensures Around(memory, Place(from + k, |memory|), |memory| - k + n) ==
      Around(memory, from, |memory|)[k..] + Around(memory, from, n)
  {
    hide Around;
    var size := |memory|;
    AroundPlace(memory, from + k, size - k + n);
    AroundSplit(memory, from + k, size - k + n, size - k);
    AroundSplit(memory, from, size, k);
    PlaceAdd(from, size, size);
    AroundPlace(memory, from + size, n);
    AroundPlace(memory, from, n);
    var all := Around(memory, from + k, size - k + n);
    assert all == all[..size - k] + all[size - k..];
  }

  /** A stretch is contiguous, or goes on at the start of the memory. */
  lemma AroundPieces<T>(memory: seq<T>, at: nat, n: nat)
    requires at < |memory| && n <= |memory|
    ensures at + n <= |memory| ==> Around(memory, at, n) == memory[at..at + n]
    ensures at + n > |memory| ==> Around(memory, at, n) == memory[at..] + memory[..at + n - |memory|]
  {
    forall k | 0 <= k < n
      ensures Around(memory, at, n)[k] == memory[if at + k < |memory| then at + k else at + k - |memory|]
    {
      PlaceAdd(at, k, |memory|);
    }
  }

  /** `src` has been written from position `at` on, going on at the start, and nothing else has changed. */
  ghost predicate Written<T>(memory: seq<T>, memory': seq<T>, at: nat, src: seq<T>)
    requires at < |memory| == |memory'| && |src| <= |memory|
  {
    forall p :: 0 <= p < |memory| ==>
      (memory'[p] ==
        if at <= p < at + |src| then src[p - at]
        else if p < at + |src| - |memory| then src[|memory| - at + p]
        else memory[p])
  }

  /** Writing `src` behind `n` elements, as far as it fits before coming round to the first, appends it. */
  lemma AroundWritten<T>(memory: seq<T>, memory': seq<T>, from: nat, n: nat, src: seq<T>)
    requires 0 < |memory| == |memory'| && n + |src| <= |memory|
    requires Written(memory, memory', Place(from + n, |memory|), src)
    ensures Around(memory', from, n + |src|) == Around(memory, from, n) + src
  {
    forall k | 0 <= k < n + |src|
      ensures Around(memory', from, n + |src|)[k] == (Around(memory, from, n) + src)[k]
    {
      PlaceAdd(from, n, |memory|);
      PlaceAdd(from, k, |memory|);
    }
  }

  /** The copy in two parts by which both byte rings store `src` from position `at` on. */
  method CopyRound<T>(dst: array<T>, at: nat, src: seq<T>)
    requires at < dst.Length && |src| <= dst.Length
    modifies dst
    ensures Written(old(dst[..]), dst[..], at, src)
  {
    if |src| > dst.Length - at {
      var room := dst.Length - at;
      CopyIn(dst, at, src[..room]);
      CopyIn(dst, 0, src[room..]);
    } else {
      CopyIn(dst, at, src);
    }
  }

  /** The copy in two parts by which they fetch `n` elements from position `at` on. */
  method FetchRound<T>(dst: array<T>, src: array<T>, at: nat, n: nat)
    requires at < src.Length && n <= src.Length && n <= dst.Length && dst != src
    modifies dst
    ensures dst[..] == Around(src[..], at, n) + old(dst[n..])
  {
    AroundPieces(src[..], at, n);
    if at + n > src.Length {
      var room := src.Length - at;
      CopyIn(dst, 0, src[at..]);
      CopyIn(dst, room, src[..n - room]);
    } else {
      CopyIn(dst, 0, src[at..at + n]);
    }
  }

  /** The last `n` elements, or all of them. */
  function Last<T>(s: seq<T>, n: nat): (r: seq<T>)
    ensures |r| <= n && |r| <= |s|
  {
    if |s| <= n then s else s[|s| - n..]
  }

  lemma LastAppend<T>(s: seq<T>, t: seq<T>, n: nat)
    requires |t| <= n
    ensures Last(s + t, n) == Last(s, n - |t|) + t
  {
  }

  lemma LastAppended<T>(s: seq<T>, kept: seq<T>, t: seq<T>, n: nat, r: seq<T>)
    requires |t| <= n && kept == Last(s, n - |t|) && r == kept + t
    ensures r == Last(s + t, n)
  {
    LastAppend(s, t, n);
  }

  /** Keeping the last `n` after each of two additions is keeping the last `n` after both. */
  lemma LastLast<T>(s: seq<T>, t: seq<T>, n: nat)
    ensures Last(Last(s, n) + t, n) == Last(s + t, n)
  {
  }
}
