/** Small datatypes and helpers shared by every model. */
module Basics {
  datatype Option<+T> = None | Some(value: T)

  newtype Byte = x: int | 0 <= x < 256

  const TWO32: nat := 0x1_0000_0000

  /** Truncation to 32 bits. */
  function U32(x: int): (r: nat)
    ensures r < TWO32
  {
    x % TWO32
  }

  /** The sum of two 32-bit numbers, in 32 bits. */
  function Add32(a: nat, b: nat): nat {
    if a + b < TWO32 then a + b else a + b - TWO32
  }

  lemma Add32Truncates(a: nat, b: nat)
    requires a < TWO32 && b < TWO32
    ensures Add32(a, b) == U32(a + b)
  {
  }

  function Min(a: nat, b: nat): nat {
    if a < b then a else b
  }

  lemma Associates<T>(a: seq<T>, b: seq<T>, c: seq<T>)
    ensures a + (b + c) == a + b + c
  {
  }

  /** memcpy into part of an array. */
  method CopyIn<T>(dst: array<T>, at: nat, src: seq<T>)
    requires at + |src| <= dst.Length
    modifies dst
    ensures forall k :: 0 <= k < dst.Length ==>
      dst[k] == if at <= k < at + |src| then src[k - at] else old(dst[k])
  {
    for k := 0 to |src|
      invariant forall j :: 0 <= j < dst.Length ==> dst[j] == if at <= j < at + k then src[j - at] else old(dst[j])
    {
      dst[at + k] := src[k];
    }
  }
}
