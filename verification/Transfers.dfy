/**
 Reads and copies that are split into many requests or messages but must amount
 to one operation. What the system calls return is chosen by an oracle, clamped
 to what pread and copy_file_range can return at all.
 */
module Transfers {
  import opened Bytes
  import opened Protocol
  import opened Files

  const MAX_READ := MAX_MSG - 2
  const MAX_COPY_CHUNK := 0x200_0000

  type ErrCode = c: byte | c >= 2 witness 2

  /** One system call: how many bytes it would like to transfer, or an error. */
  datatype IO = Count(n: nat) | Error(code: ErrCode)

  type Oracle = nat -> IO

  function Available(file: seq<byte>, off: nat): nat { if off <= |file| then |file| - off else 0 }

  function Slice(file: seq<byte>, off: nat, n: nat): (s: seq<byte>)
    requires n <= Available(file, off)
    ensures |s| == n
  {
    if n == 0 then [] else file[off..off + n]
  }

  function Transferred(wish: nat, asked: nat, file: seq<byte>, off: nat): (n: nat)
    ensures n <= asked && n <= Available(file, off)
  {
    Min(wish, Min(asked, Available(file, off)))
  }

  // ---- Segmented reads ----

  datatype Msg = Msg(code: byte, data: seq<byte>)

  /** The description bytes of an error response. */
  const ERROR_TEXT: seq<byte> := [13, 0, 115, 121, 115, 99, 97, 108, 108, 32, 101, 114, 114, 111, 114]

  /** readAtAndSend: one pread, one message; the call number is `k`. */
  function ReadOnce(file: seq<byte>, off: nat, size: nat, partial: bool, io: Oracle, k: nat): Msg {
    match io(k)
    case Error(code) => Msg(code, ERROR_TEXT)
    case Count(wish) =>
      var n := Transferred(wish, size, file, off);
      Msg(if partial && n == size then PARTIAL else OK, Slice(file, off, n))
  }

  /** The segment loop with `segments` full reads to go and `tail` bytes after them. */
  function Segments(file: seq<byte>, off: nat, segments: nat, tail: nat, io: Oracle, k: nat): (ms: seq<Msg>)
    ensures ms != []
    decreases segments
  {
    if segments == 0 then
      [if tail == 0 then Msg(OK, []) else ReadOnce(file, off, tail, false, io, k)]
    else
      var m := ReadOnce(file, off, MAX_READ, true, io, k);
      if m.code == PARTIAL then [m] + Segments(file, off + MAX_READ, segments - 1, tail, io, k + 1) else [m]
  }

  function ReadReply(file: seq<byte>, off: nat, size: nat, io: Oracle): seq<Msg> {
    if size < MAX_READ then [ReadOnce(file, off, size, false, io, 0)]
    else Segments(file, off, size / MAX_READ, size % MAX_READ, io, 0)
  }

  /** cmdReadAt on a valid descriptor. */
  method ServeReadAt(file: seq<byte>, offset: nat, size: nat, io: Oracle) returns (sent: seq<Msg>)
    ensures sent == ReadReply(file, offset, size, io)
  {
    if size < MAX_READ {
      return [ReadOnce(file, offset, size, false, io, 0)];
    }
    sent := [];
    var off, tail := offset, size % MAX_READ;
    for k := 0 to size / MAX_READ
      invariant off == offset + k * MAX_READ
      invariant sent + Segments(file, off, size / MAX_READ - k, tail, io, k) == Segments(file, offset, size / MAX_READ, tail, io, 0)
    {
      var m := ReadOnce(file, off, MAX_READ, true, io, k);
      Reassociate(sent, [m], Segments(file, off + MAX_READ, size / MAX_READ - k - 1, tail, io, k + 1));
      sent := sent + [m];
      if m.code != PARTIAL {
        return;
      }
      off := off + MAX_READ;
    }
    if tail == 0 {
      sent := sent + [Msg(OK, [])];
    } else {
      sent := sent + [ReadOnce(file, off, tail, false, io, size / MAX_READ)];
    }
  }

  datatype Received = Received(dest: seq<byte>, n: nat, code: byte) | StillWaiting | SlicePanic

  /** copy(dest[off:], data) */
  function CopyInto(dest: seq<byte>, off: nat, data: seq<byte>): (d: seq<byte>)
    requires off <= |dest|
    ensures |d| == |dest|
    ensures forall i :: 0 <= i < |d| ==> d[i] == if off <= i < off + |data| then data[i - off] else dest[i]
  {
    seq(|dest|, i requires 0 <= i < |dest| => if off <= i < off + |data| then data[i - off] else dest[i])
  }

  function Reassemble(msgs: seq<Msg>, dest: seq<byte>, off: nat): Received
    decreases |msgs|
  {
    if msgs == [] then StillWaiting
    else if off > |dest| then SlicePanic
    else
      var m, d := msgs[0], CopyInto(dest, off, msgs[0].data);
      if m.code == PARTIAL then Reassemble(msgs[1..], d, off + |m.data|)
      else Received(d, off + |m.data|, m.code)
  }

  method CopyAt(dest: array<byte>, off: nat, data: seq<byte>)
    requires off <= dest.Length
    modifies dest
    ensures dest[..] == CopyInto(old(dest[..]), off, data)
  {
    var count := Min(|data|, dest.Length - off);
    forall i | 0 <= i < count {
      dest[off + i] := data[i];
    }
  }

  /** The receive loop of CmdReadAt and CmdRead, copying into the caller's buffer. */
  method ReceiveInto(dest: array<byte>, msgs: seq<Msg>) returns (done: bool, n: nat, code: byte)
    requires Reassemble(msgs, dest[..], 0) != SlicePanic
    modifies dest
    ensures match Reassemble(msgs, old(dest[..]), 0)
            case Received(d, n', c) => done && n == n' && code == c && dest[..] == d
            case _ => !done
  {
    var off := 0;
    for k := 0 to |msgs|
      invariant off >= 0
      invariant Reassemble(msgs[k..], dest[..], off) == Reassemble(msgs, old(dest[..]), 0)
    {
      var m := msgs[k];
      assert msgs[k..][0] == m && msgs[k..][1..] == msgs[k + 1..];
      CopyAt(dest, off, m.data);
      if m.code != PARTIAL {
        return true, off + |m.data|, m.code;
      }
      off := off + |m.data|;
    }
    return false, 0, OK;
  }

  /** Only full partial messages, then exactly one terminal, all within the message size. */
  predicate WellFramed(ms: seq<Msg>) {
    && ms != []
    && (forall i :: 0 <= i < |ms| - 1 ==> ms[i].code == PARTIAL && |ms[i].data| == MAX_READ)
    && ms[|ms| - 1].code != PARTIAL
    && (forall i :: 0 <= i < |ms| ==> 2 + |ms[i].data| <= MAX_MSG)
  }

  lemma {:induction false} SegmentsFramed(file: seq<byte>, off: nat, segments: nat, tail: nat, io: Oracle, k: nat)
    requires tail < MAX_READ
    ensures WellFramed(Segments(file, off, segments, tail, io, k))
    decreases segments
  {
    if segments > 0 { SegmentsFramed(file, off + MAX_READ, segments - 1, tail, io, k + 1); }
  }

  /** `d` differs from `dest` only in [at, at + n), where it holds file[from..from + n). */
  ghost predicate HoldsSlice(d: seq<byte>, dest: seq<byte>, at: nat, n: nat, file: seq<byte>, from: nat) {
    && |d| == |dest| && at + n <= |dest| && n <= Available(file, from)
    && (forall i :: 0 <= i < |d| ==> d[i] == if at <= i < at + n then file[from + (i - at)] else dest[i])
  }

  lemma HoldsJoin(d: seq<byte>, mid: seq<byte>, dest: seq<byte>, at: nat, a: nat, b: nat, file: seq<byte>, from: nat)
    requires HoldsSlice(mid, dest, at, a, file, from) && HoldsSlice(d, mid, at + a, b, file, from + a)
    ensures HoldsSlice(d, dest, at, a + b, file, from)
  {}

  lemma HoldsFromStart(d: seq<byte>, dest: seq<byte>, n: nat, file: seq<byte>, from: nat)
    requires HoldsSlice(d, dest, 0, n, file, from)
    ensures d == Slice(file, from, n) + dest[n..]
  {
    assert |d| == |Slice(file, from, n) + dest[n..]|;
    assert forall i :: 0 <= i < |d| ==> d[i] == (Slice(file, from, n) + dest[n..])[i];
  }

  /** Every pread returns as much as it can. */
  ghost predicate FullReads(io: Oracle) {
    forall k :: io(k).Count? && io(k).n >= MAX_READ
  }

  /** What the client has when a reply that started at `at` ends. */
  ghost predicate ReadsUp(r: Received, dest: seq<byte>, at: nat, want: nat, io: Oracle, file: seq<byte>, off: nat) {
    && r.Received? && r.code != PARTIAL
    && (r.code == OK ==> at <= r.n <= |dest| && HoldsSlice(r.dest, dest, at, r.n - at, file, off))
    && (FullReads(io) ==> r.code == OK && r.n - at == Min(want, Available(file, off)))
  }

  /** One message on its own. */
  lemma OnceReassembles(file: seq<byte>, off: nat, size: nat, partial: bool, io: Oracle, k: nat, dest: seq<byte>, at: nat)
    requires at + size <= |dest| && size <= MAX_READ
    ensures var m := ReadOnce(file, off, size, partial, io, k);
            && (m.code == OK || m.code == PARTIAL ==>
                  |m.data| <= size && HoldsSlice(CopyInto(dest, at, m.data), dest, at, |m.data|, file, off))
            && (m.code == PARTIAL ==> |m.data| == size)
            && (FullReads(io) ==> |m.data| == Min(size, Available(file, off)) && m.code in {OK, PARTIAL})
  {
    var m := ReadOnce(file, off, size, partial, io, k);
    if FullReads(io) { assert io(k).n >= MAX_READ; }
  }

  function Total(segments: nat, tail: nat): nat { if segments == 0 then tail else MAX_READ + Total(segments - 1, tail) }

  lemma {:induction false} TotalIs(segments: nat, tail: nat)
    ensures Total(segments, tail) == segments * MAX_READ + tail
  {
    if segments > 0 { TotalIs(segments - 1, tail); }
  }

  /** A full segment followed by the rest. */
  lemma SegmentThenRest(r: Received, d: seq<byte>, dest: seq<byte>, at: nat, rest: nat, io: Oracle, file: seq<byte>, off: nat)
    requires HoldsSlice(d, dest, at, MAX_READ, file, off) && ReadsUp(r, d, at + MAX_READ, rest, io, file, off + MAX_READ)
    ensures ReadsUp(r, dest, at, MAX_READ + rest, io, file, off)
  {
    if r.code == OK { HoldsJoin(r.dest, d, dest, at, MAX_READ, r.n - at - MAX_READ, file, off); }
  }

  lemma {:induction false} SegmentsReassemble(file: seq<byte>, off: nat, segments: nat, tail: nat, io: Oracle, k: nat, dest: seq<byte>, at: nat)
    requires tail < MAX_READ && at + Total(segments, tail) == |dest|
    ensures ReadsUp(Reassemble(Segments(file, off, segments, tail, io, k), dest, at), dest, at, Total(segments, tail), io, file, off)
    decreases segments
  {
    var ms := Segments(file, off, segments, tail, io, k);
    if segments == 0 {
      if tail == 0 {
        assert CopyInto(dest, at, []) == dest;
      } else {
        OnceReassembles(file, off, tail, false, io, k, dest, at);
      }
    } else {
      var m := ms[0];
      var d := CopyInto(dest, at, m.data);
      OnceReassembles(file, off, MAX_READ, true, io, k, dest, at);
      if m.code == PARTIAL {
        var next := Segments(file, off + MAX_READ, segments - 1, tail, io, k + 1);
        assert ms[1..] == next;
        SegmentsReassemble(file, off + MAX_READ, segments - 1, tail, io, k + 1, d, at + MAX_READ);
        SegmentThenRest(Reassemble(next, d, at + MAX_READ), d, dest, at, Total(segments - 1, tail), io, file, off);
      }
    }
  }

  /**
   A segmented read is one read: for every file, offset, size and schedule of short
   or failing preads, an OK answer puts file[offset..offset+n) at the start of the
   buffer, n at most the size, and touches nothing else; with full preads n is the
   size or what the file has left. On the wire: full partials, then one terminal.
   */
  lemma SegmentedReadIsOneRead(file: seq<byte>, off: nat, size: nat, io: Oracle, dest: seq<byte>)
    requires |dest| == size
    ensures WellFramed(ReadReply(file, off, size, io))
    ensures var r := Reassemble(ReadReply(file, off, size, io), dest, 0);
            && r.Received?
            && (r.code == OK ==> r.n <= size && r.n <= Available(file, off)
                                 && r.dest == Slice(file, off, r.n) + dest[r.n..])
            && (FullReads(io) ==> r.code == OK && r.n == Min(size, Available(file, off)))
  {
    ReplyReads(file, off, size, io, dest);
    var r := Reassemble(ReadReply(file, off, size, io), dest, 0);
    if r.code == OK { HoldsFromStart(r.dest, dest, r.n, file, off); }
  }

  lemma TotalOf(size: nat)
    ensures Total(size / MAX_READ, size % MAX_READ) == size
  {
    TotalIs(size / MAX_READ, size % MAX_READ);
  }

  lemma ReplyReads(file: seq<byte>, off: nat, size: nat, io: Oracle, dest: seq<byte>)
    requires |dest| == size
    ensures WellFramed(ReadReply(file, off, size, io))
    ensures ReadsUp(Reassemble(ReadReply(file, off, size, io), dest, 0), dest, 0, size, io, file, off)
  {
    if size < MAX_READ {
      OnceReassembles(file, off, size, false, io, 0, dest, 0);
    } else {
      var segments, tail := size / MAX_READ, size % MAX_READ;
      TotalOf(size);
      SegmentsFramed(file, off, segments, tail, io, 0);
      SegmentsReassemble(file, off, segments, tail, io, 0, dest, 0);
    }
  }

  // ---- Split copies ----

  /** A copy request: the server's answer, or the client failing to send it. */
  datatype CopyIO = Copied(n: nat) | CopyError(code: ErrCode) | NotSent

  type CopyOracle = nat -> CopyIO

  /** Every request is answered with as much as it asked for. */
  ghost predicate FullCopies(io: CopyOracle) {
    forall k :: io(k).Copied? && io(k).n >= MAX_COPY_CHUNK
  }

  lemma SliceJoin(file: seq<byte>, from: nat, a: nat, b: nat)
    requires a <= Available(file, from) && b <= Available(file, from + a)
    ensures a + b <= Available(file, from) && Slice(file, from, a) + Slice(file, from + a, b) == Slice(file, from, a + b)
  {}

  /** `d` is `dst` with the first `total` bytes copied. */
  ghost predicate HasCopied(d: seq<byte>, src: seq<byte>, dst: seq<byte>, off1: nat, off2: nat, total: nat) {
    total <= Available(src, off1) && d == Patch(dst, off2, Slice(src, off1, total))
  }

  lemma NothingCopied(src: seq<byte>, dst: seq<byte>, off1: nat, off2: nat)
    ensures HasCopied(dst, src, dst, off1, off2, 0)
  {}

  /** Copying the next `n` bytes after `total` bytes is copying `total + n`. */
  lemma CopyStep(d: seq<byte>, src: seq<byte>, dst: seq<byte>, off1: nat, off2: nat, total: nat, n: nat)
    requires HasCopied(d, src, dst, off1, off2, total) && n <= Available(src, off1 + total)
    ensures HasCopied(Patch(d, off2 + total, Slice(src, off1 + total, n)), src, dst, off1, off2, total + n)
  {
    SliceJoin(src, off1, total, n);
    PatchAppend(dst, off2, Slice(src, off1, total), Slice(src, off1 + total, n));
  }

  /** One request and what it does to the destination. */
  method CopyOnce(d: seq<byte>, src: seq<byte>, ghost dst: seq<byte>, off1: nat, off2: nat, total: nat, chunk: nat, answer: CopyIO)
    returns (d': seq<byte>, n: nat)
    requires HasCopied(d, src, dst, off1, off2, total) && !answer.CopyError?
    ensures HasCopied(d', src, dst, off1, off2, total + n) && n <= chunk
    ensures answer.Copied? && answer.n >= chunk ==> n == Min(chunk, Available(src, off1 + total))
  {
    n := if answer.Copied? then Transferred(answer.n, chunk, src, off1 + total) else 0;
    CopyStep(d, src, dst, off1, off2, total, n);
    d' := Patch(d, off2 + total, Slice(src, off1 + total, n));
  }

  /**
   CmdCopyFileRange between two different files. `requested` lists the sizes asked
   for. A request that could not be sent counts as an empty copy, with code OK.
   */
  method CopyFileRange(src: seq<byte>, dst: seq<byte>, off1: nat, off2: nat, size: nat, io: CopyOracle)
    returns (dst': seq<byte>, total: nat, code: byte, requested: seq<nat>)
    ensures total <= size && total <= Available(src, off1)
    ensures dst' == Patch(dst, off2, Slice(src, off1, total))
    ensures forall i :: 0 <= i < |requested| ==> 0 < requested[i] <= MAX_COPY_CHUNK
    ensures FullCopies(io) ==> code == OK && total == Min(size, Available(src, off1))
    ensures code != OK ==> requested != [] && io(|requested| - 1).CopyError? && io(|requested| - 1).code == code
  {
    dst', total, code, requested := dst, 0, OK, [];
    var left := size;
    NothingCopied(src, dst, off1, off2);
    while left > 0
      invariant left >= 0 && total + left == size && HasCopied(dst', src, dst, off1, off2, total)
      invariant forall i :: 0 <= i < |requested| ==> 0 < requested[i] <= MAX_COPY_CHUNK
      invariant code == OK
      decreases left
    {
      var chunk := Min(left, MAX_COPY_CHUNK);
      var answer := io(|requested|);
      requested := requested + [chunk];
      if answer.CopyError? {
        return dst', total, answer.code, requested;
      }
      var n;
      dst', n := CopyOnce(dst', src, dst, off1, off2, total, chunk, answer);
      total := total + n;
      if n == 0 || n < chunk {
        break;
      }
      left := left - n;
    }
  }
}
