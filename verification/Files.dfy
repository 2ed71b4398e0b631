/** File contents and what a write at an offset does to them. */
module Files {
  import opened Bytes

  function Zeros(n: nat): seq<byte> { seq(n, _ => 0) }

  /** The file after `d` was written at `off`; a gap reads as zeros. */
  function Patch(f: seq<byte>, off: nat, d: seq<byte>): (g: seq<byte>) {
    if d == [] then f
    else
      var base := if |f| < off then f + Zeros(off - |f|) else f;
      base[..off] + d + (if off + |d| < |base| then base[off + |d|..] else [])
  }

  /** Writing piece after piece is writing the whole. */
  lemma PatchAppend(f: seq<byte>, off: nat, a: seq<byte>, b: seq<byte>)
    ensures Patch(Patch(f, off, a), off + |a|, b) == Patch(f, off, a + b)
  {
    if a == [] {
      assert a + b == b;
    } else if b == [] {
      assert a + b == a;
    } else {
      var g, h := Patch(Patch(f, off, a), off + |a|, b), Patch(f, off, a + b);
      assert |g| == |h|;
      assert forall i :: 0 <= i < |g| ==> g[i] == h[i];
    }
  }
}
