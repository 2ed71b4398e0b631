/** The fixed-size byte buffer that every framing loop fills and flushes. */
module Buffers {
  import opened Bytes

  class Buffer {
    const data: array<byte>
    var written: nat

    ghost predicate Valid()
      reads this
    {
      written <= data.Length
    }

    ghost function Contents(): (s: seq<byte>)
      requires Valid()
      reads this, data
    {
      data[..written]
    }

    constructor (size: nat)
      ensures Valid() && fresh(data) && data.Length == size && Contents() == []
    {
      data := new byte[size](_ => 0);
      written := 0;
    }

    /** Appends as much of `d` as fits; `short` is io.ErrShortWrite. */
    method Write(d: seq<byte>) returns (n: nat, short: bool)
      requires Valid()
      modifies this`written, data
      ensures Valid()
      ensures n == Min(|d|, data.Length - old(written)) && (short <==> n < |d|)
      ensures Contents() == old(Contents()) + d[..n]
    {
      var size := |d|;
      short := false;
      if size > data.Length - written {
        size, short := data.Length - written, true;
      }
      forall i | 0 <= i < size {
        data[written + i] := d[i];
      }
      n := size;
      written := written + n;
      assert data[..written] == old(data[..written]) + d[..n];
    }

    /** Hands out what was written and starts over. */
    method Done() returns (d: seq<byte>)
      requires Valid()
      modifies this`written
      ensures Valid() && d == old(Contents()) && Contents() == []
    {
      var n := written;
      written := 0;
      d := data[..n];
    }

    /** Counts `n` bytes that were placed directly behind the written part. */
    method Grow(n: nat)
      requires Valid() && written + n <= data.Length
      modifies this`written
      ensures Valid() && Contents() == old(data[..written + n])
    {
      written := written + n;
    }

    method Reset()
      requires Valid()
      modifies this`written
      ensures Valid() && Contents() == []
    {
      written := 0;
    }

    /** `Bytes[i] = b` on an already written position. */
    method Patch(i: nat, b: byte)
      requires Valid() && i < written
      modifies data
      ensures Valid() && Contents() == old(Contents())[i := b]
    {
      data[i] := b;
    }
  }
}
