/** Commands that carry a payload: their frames, and reading the payload into a fixed buffer. */
module Payloads {
  import opened Bytes
  import opened Protocol
  import opened Codec
  import opened WriteStream

  // ---- The two stream commands ----

  const STREAM_OPEN := Struct([Num(4, false), Num(8, false), Blob])
  const STREAM_DATA := Struct([Num(1, false), Blob])

  /** A stream data command survives the wire, and fits a message exactly up to the payload limit. */
  lemma StreamDataFrame(isEnd: nat, data: seq<byte>)
    requires isEnd < 0x100
    ensures var v := StructV([NumV(isEnd), BytesV(data)]);
      var o := Encode(STREAM_DATA, v);
      && o.ok && |o.bytes| == RequiredSize(STREAM_DATA, v) && Decode(STREAM_DATA, o.bytes) == Some((v, []))
      && (2 + |o.bytes| <= MAX_MSG <==> |data| <= MAX_DATA_PAYLOAD)
  {
    Widths();
    var v, fs := StructV([NumV(isEnd), BytesV(data)]), STREAM_DATA.fields;
    assert HasType(fs[0], v.vs[0]) && HasType(fs[1], v.vs[1]);
    assert RequiredSizes(fs, v.vs, 1) == |data|;
    assert RequiredSizes(fs, v.vs, 0) == 1 + |data|;
    assert forall i :: 0 <= i < 2 ==> StringsFit(fs[i], v.vs[i]);
    EncodeOkIff(STREAM_DATA, v);
    RequiredSizeIsLength(STREAM_DATA, v);
    assert FlattenFields(fs, 2) == [] && FlattenFields(fs, 1) == [Blob];
    assert FlattenFields(fs, 0) == [Num(1, false), Blob];
    RoundTripBlobLast(STREAM_DATA, v);
  }

  lemma StreamOpenFrame(fd: nat, offset: nat, data: seq<byte>)
    requires fd < 0x1_0000_0000 && offset < 0x1_0000_0000_0000_0000
    ensures var v := StructV([NumV(fd), NumV(offset), BytesV(data)]);
      var o := Encode(STREAM_OPEN, v);
      && o.ok && |o.bytes| == RequiredSize(STREAM_OPEN, v) && Decode(STREAM_OPEN, o.bytes) == Some((v, []))
      && (2 + |o.bytes| <= MAX_MSG <==> |data| <= MAX_OPEN_PAYLOAD)
  {
    Widths();
    var v, fs := StructV([NumV(fd), NumV(offset), BytesV(data)]), STREAM_OPEN.fields;
    assert HasType(fs[0], v.vs[0]) && HasType(fs[1], v.vs[1]) && HasType(fs[2], v.vs[2]);
    assert RequiredSizes(fs, v.vs, 2) == |data|;
    assert RequiredSizes(fs, v.vs, 1) == 8 + |data|;
    assert RequiredSizes(fs, v.vs, 0) == 12 + |data|;
    assert forall i :: 0 <= i < 3 ==> StringsFit(fs[i], v.vs[i]);
    EncodeOkIff(STREAM_OPEN, v);
    RequiredSizeIsLength(STREAM_OPEN, v);
    assert FlattenFields(fs, 3) == [] && FlattenFields(fs, 2) == [Blob];
    assert FlattenFields(fs, 1) == [Num(8, false), Blob];
    assert FlattenFields(fs, 0) == [Num(4, false), Num(8, false), Blob];
    RoundTripBlobLast(STREAM_OPEN, v);
  }

  // ---- readAllToBuffer ----

  /** What a Read call would like to do: give `want` bytes (at least one while there are any), with
      the end reported at once or only by the next call; nothing at all and no error; or fail. */
  datatype Call = Give(want: nat, eager: bool) | Nothing | Broken

  type Reader = nat -> Call

  function Taken(call: Call, rest: seq<byte>, room: nat): nat {
    if !call.Give? || rest == [] || room == 0 then 0 else Max(1, Min(call.want, Min(room, |rest|)))
  }

  predicate Ends(call: Call, rest: seq<byte>, taken: nat)
    requires taken <= |rest|
  {
    call.Give? && taken == |rest| && (taken == 0 || call.eager)
  }

  /** The payload, io.ErrShortBuffer, the reader's own error, or neither data nor error. */
  datatype Outcome = Filled(n: nat) | ShortBuffer | Failed | NoData

  /**
   However the reader cuts its data up, the buffer ends up holding all of it, or there is
   more than fits. Only a reader that gives nothing on the very call that asks whether
   there is more makes the result neither: the payload fills the buffer and is dropped.
   */
  method ReadAllToBuffer(input: seq<byte>, r: Reader, ghost quiet: nat, buf: array<byte>) returns (out: Outcome)
    requires forall k :: k >= quiet ==> r(k) != Nothing
    modifies buf
    ensures out.Filled? ==> out.n == |input| <= buf.Length && buf[..out.n] == input
    ensures out.ShortBuffer? ==> |input| > buf.Length
    ensures out.Failed? ==> exists k :: r(k) == Broken
    ensures out.NoData? ==> |input| >= buf.Length && buf[..] == input[..buf.Length] && exists k :: r(k) == Nothing
  {
    var n, call := 0, 0;
    while n < buf.Length
      invariant n <= buf.Length && n <= |input| && buf[..n] == input[..n] && call >= 0
      decreases buf.Length - n, if call < quiet then quiet - call else 0
    {
      var rest := input[n..];
      if r(call).Broken? {
        return Failed;
      }
      var k := Taken(r(call), rest, buf.Length - n);
      forall i | 0 <= i < k {
        buf[n + i] := rest[i];
      }
      assert buf[..n + k] == input[..n + k];
      n := n + k;
      if Ends(r(call), rest, k) {
        return Filled(n);
      }
      call := call + 1;
    }
    var rest := input[n..];
    if Taken(r(call), rest, 1) > 0 {
      return ShortBuffer;
    }
    match r(call)
    case Broken => out := Failed;
    case Nothing => out := NoData;
    case Give(_, _) => out := Filled(n);
  }
}
