/**
 * Byte buffers: what memcpy into a buffer does, as a function on sequences
 * and as a method on arrays.
 */
module Bytes {

  /** d with the bytes of s written from offset off on (memcpy(d + off, s, |s|)). */
  function Overwrite(d: seq<bv8>, off: nat, s: seq<bv8>): (r: seq<bv8>)
    requires off + |s| <= |d|
    ensures |r| == |d|
    ensures forall i :: off <= i < off + |s| ==> r[i] == s[i - off]
    ensures forall i :: 0 <= i < |d| && !(off <= i < off + |s|) ==> r[i] == d[i]
  {
    d[..off] + s + d[off + |s|..]
  }

  /** Writing nothing changes nothing. */
  lemma OverwriteEmpty(d: seq<bv8>, off: nat)
    requires off <= |d|
    ensures Overwrite(d, off, []) == d
  {
  }

  /** memcpy(dst + dstOff, src + srcOff, n) on arrays. */
  method CopyBytes(dst: array<bv8>, dstOff: nat, src: array<bv8>, srcOff: nat, n: nat)
    requires dst != src
    requires dstOff + n <= dst.Length && srcOff + n <= src.Length
    modifies dst
    ensures dst[..] == Overwrite(old(dst[..]), dstOff, src[srcOff..srcOff + n])
  {
    var k := 0;
    while k < n
      invariant 0 <= k <= n
      invariant forall i :: 0 <= i < dst.Length && !(dstOff <= i < dstOff + k) ==> dst[i] == old(dst[i])
      invariant forall i :: dstOff <= i < dstOff + k ==> dst[i] == src[srcOff + i - dstOff]
    {
      dst[dstOff + k] := src[srcOff + k];
      k := k + 1;
    }
    assert dst[..] == Overwrite(old(dst[..]), dstOff, src[srcOff..srcOff + n]);
  }

  /** Replaces the whole contents of a with s (what a library call that fills a buffer leaves in it). */
  method Store(a: array<bv8>, s: seq<bv8>)
    requires |s| == a.Length
    modifies a
    ensures a[..] == s
  {
    forall i | 0 <= i < a.Length {
      a[i] := s[i];
    }
  }
}
