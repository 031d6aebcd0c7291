/** Byte buffers, the byte view of strings, and the in-place wipe. */
module Bytes {
  newtype byte = x: int | 0 <= x < 256

  type Bytes = seq<byte>

  /** Every char is one byte, as in a Go string. */
  predicate Latin(s: string) {
    forall i :: 0 <= i < |s| ==> s[i] as int < 256
  }

  function Encode(s: string): (b: Bytes)
    ensures |b| == |s|
  {
    seq(|s|, i requires 0 <= i < |s| => (s[i] as int % 256) as byte)
  }

  function Decode(b: Bytes): (s: string)
    ensures |s| == |b| && Latin(s)
  {
    seq(|b|, i requires 0 <= i < |b| => b[i] as char)
  }

  lemma DecodeEncode(s: string)
    requires Latin(s)
    ensures Decode(Encode(s)) == s
  {
    assert forall i :: 0 <= i < |s| ==> Decode(Encode(s))[i] == s[i];
  }

  function Zeros(n: nat): (z: Bytes)
    ensures |z| == n
  {
    seq(n, _ => 0)
  }

  /** Sets every byte of `b` to zero. */
  method ClearBytes(b: array<byte>)
    modifies b
    ensures b[..] == Zeros(b.Length)
  {
    for i := 0 to b.Length
      invariant forall k :: 0 <= k < i ==> b[k] == 0
    {
      b[i] := 0;
    }
  }

  /** Sets `b[lo..hi]`, a slice sharing storage with `b`, to zero. */
  method ClearSlice(b: array<byte>, lo: nat, hi: nat)
    requires lo <= hi <= b.Length
    modifies b
    ensures b[lo..hi] == Zeros(hi - lo)
    ensures b[..lo] == old(b[..lo]) && b[hi..] == old(b[hi..])
  {
    for i := lo to hi
      invariant forall k :: lo <= k < i ==> b[k] == 0
      invariant b[..lo] == old(b[..lo]) && b[hi..] == old(b[hi..])
    {
      b[i] := 0;
    }
  }
}
