/**
 The struct-helper generator as a compiler.

 For one struct the generator emits a straight-line program over the fields, in
 one of two modes: buffered (fixed-width integers collected in a local array and
 flushed before any other field) or per-field ("unsafe", little-endian targets).
 `RunWrite`/`RunRead` execute the emitted statements; the theorems say that both
 modes compute the reference `Encode`/`Decode` and never index past the array.
 */
module Generator {
  import opened Bytes
  import opened Codec

  // ---- Emitted statements; `field` is the index of the struct field ----

  datatype WriteStmt =
    | Put(off: nat, field: nat)        // PutUintN(buf[off:], d.F)
    | FlushBuf(n: nat)                 // w.Write(buf[:n])
    | WriteNum(field: nat)             // w.Write(memory of d.F)
    | WriteStr(field: nat)             // WriteStrToWriter(d.F, w)
    | WriteBlob(field: nat)            // w.Write(d.F)
    | CallWrite(field: nat)            // Write<T>ToWriter(d.F, w)

  datatype ReadStmt =
    | FillBuf(n: nat)                  // io.ReadFull(r, buf[:n])
    | Get(off: nat, field: nat)        // d.F = UintN(buf[off:])
    | ReadNum(field: nat)              // io.ReadFull(r, memory of d.F)
    | ReadStr(field: nat)              // ReadStrFromReader(r, &d.F)
    | ReadBlob(field: nat)             // d.F, err = io.ReadAll(r)
    | CallRead(field: nat)             // Read<T>FromReader(&d.F, r)

  // ---- The buffer-size analysis ----

  /** The largest offset reached when integers pile up from `size` at field `i`. */
  function BufNeed(fs: seq<Type>, i: nat, size: nat): (n: nat)
    requires i <= |fs|
    ensures n >= size
    decreases |fs| - i
  {
    if i == |fs| then size
    else if fs[i].Num? then BufNeed(fs, i + 1, size + fs[i].width)
    else Max(size, BufNeed(fs, i + 1, 0))
  }

  /** analyzeStructInfoBufSize for one struct. */
  method AnalyzeBufSize(fs: seq<Type>) returns (bufSize: nat)
    ensures bufSize == BufNeed(fs, 0, 0)
  {
    var history, size := 0, 0;
    for i := 0 to |fs|
      invariant history >= 0 && size >= 0
      invariant Max(history, BufNeed(fs, i, size)) == BufNeed(fs, 0, 0)
    {
      if fs[i].Num? {
        size := size + fs[i].width;
      } else {
        history := Max(size, history);
        size := 0;
      }
    }
    bufSize := Max(size, history);
  }

  // ---- What the generator emits ----

  function FlushWrite(off: nat): seq<WriteStmt> {
    if off == 0 then [] else [FlushBuf(off)]
  }

  function WriteOther(t: Type, i: nat): WriteStmt
    requires !t.Num?
  {
    match t
    case Str => WriteStr(i)
    case Blob => WriteBlob(i)
    case Struct(_) => CallWrite(i)
  }

  function BufferedWrite(fs: seq<Type>, i: nat, off: nat): seq<WriteStmt>
    requires i <= |fs|
    decreases |fs| - i
  {
    if i == |fs| then FlushWrite(off)
    else if fs[i].Num? then [Put(off, i)] + BufferedWrite(fs, i + 1, off + fs[i].width)
    else FlushWrite(off) + ([WriteOther(fs[i], i)] + BufferedWrite(fs, i + 1, 0))
  }

  function PerFieldWrite(fs: seq<Type>, i: nat): seq<WriteStmt>
    requires i <= |fs|
    decreases |fs| - i
  {
    if i == |fs| then []
    else [if fs[i].Num? then WriteNum(i) else WriteOther(fs[i], i)] + PerFieldWrite(fs, i + 1)
  }

  function WriteProgram(perField: bool, fs: seq<Type>): seq<WriteStmt> {
    if perField then PerFieldWrite(fs, 0) else BufferedWrite(fs, 0, 0)
  }

  /** The generator loop with its accumulator, from field `i` on. */
  function EmitWrite(perField: bool, fs: seq<Type>, i: nat, off: nat, acc: seq<WriteStmt>): seq<WriteStmt>
    requires i <= |fs|
    decreases |fs| - i
  {
    if i < |fs| && fs[i].Num? then
      if perField then EmitWrite(perField, fs, i + 1, off, acc + [WriteNum(i)])
      else EmitWrite(perField, fs, i + 1, off + fs[i].width, acc + [Put(off, i)])
    else
      var acc' := if perField || off == 0 then acc else acc + [FlushBuf(off)];
      if i == |fs| then acc' else EmitWrite(perField, fs, i + 1, 0, acc' + [WriteOther(fs[i], i)])
  }

  /** The loop of genWrite2Writer over the fields of one struct. */
  method GenWrite(fs: seq<Type>, perField: bool) returns (prog: seq<WriteStmt>)
    ensures prog == WriteProgram(perField, fs)
  {
    prog := [];
    var off := 0;
    for i := 0 to |fs|
      invariant off >= 0 && (perField ==> off == 0)
      invariant EmitWrite(perField, fs, i, off, prog) == EmitWrite(perField, fs, 0, 0, [])
    {
      if fs[i].Num? {
        if perField {
          prog := prog + [WriteNum(i)];
        } else {
          prog := prog + [Put(off, i)];
          off := off + fs[i].width;
        }
      } else {
        if !perField && off != 0 {
          prog := prog + [FlushBuf(off)];
          off := 0;
        }
        prog := prog + [WriteOther(fs[i], i)];
      }
    }
    if !perField && off != 0 {
      prog := prog + [FlushBuf(off)];
    }
    if perField { EmitPerFieldWrite(fs, 0, []); } else { EmitBufferedWrite(fs, 0, 0, []); }
    assert [] + WriteProgram(perField, fs) == WriteProgram(perField, fs);
  }

  lemma {:induction false} EmitPerFieldWrite(fs: seq<Type>, i: nat, acc: seq<WriteStmt>)
    requires i <= |fs|
    ensures EmitWrite(true, fs, i, 0, acc) == acc + PerFieldWrite(fs, i)
    decreases |fs| - i
  {
    if i == |fs| {
      assert acc + [] == acc;
    } else {
      var stmt := if fs[i].Num? then WriteNum(i) else WriteOther(fs[i], i);
      EmitPerFieldWrite(fs, i + 1, acc + [stmt]);
      Reassociate(acc, [stmt], PerFieldWrite(fs, i + 1));
    }
  }

  lemma {:induction false} EmitBufferedWrite(fs: seq<Type>, i: nat, off: nat, acc: seq<WriteStmt>)
    requires i <= |fs|
    ensures EmitWrite(false, fs, i, off, acc) == acc + BufferedWrite(fs, i, off)
    decreases |fs| - i
  {
    if i < |fs| && fs[i].Num? {
      var stmt, off' := Put(off, i), off + fs[i].width;
      EmitBufferedWrite(fs, i + 1, off', acc + [stmt]);
      Reassociate(acc, [stmt], BufferedWrite(fs, i + 1, off'));
    } else {
      var acc' := acc + FlushWrite(off);
      if off == 0 { assert acc' == acc; }
      if i < |fs| {
        var stmt, rest := WriteOther(fs[i], i), BufferedWrite(fs, i + 1, 0);
        EmitBufferedWrite(fs, i + 1, 0, acc' + [stmt]);
        Reassociate(acc', [stmt], rest);
        Reassociate(acc, FlushWrite(off), [stmt] + rest);
      }
    }
  }

  function FlushRead(off: nat, pending: seq<ReadStmt>): seq<ReadStmt> {
    if off == 0 then [] else [FillBuf(off)] + pending
  }

  function ReadOther(t: Type, i: nat): ReadStmt
    requires !t.Num?
  {
    match t
    case Str => ReadStr(i)
    case Blob => ReadBlob(i)
    case Struct(_) => CallRead(i)
  }

  function BufferedRead(fs: seq<Type>, i: nat, off: nat, pending: seq<ReadStmt>): seq<ReadStmt>
    requires i <= |fs|
    decreases |fs| - i
  {
    if i == |fs| then FlushRead(off, pending)
    else if fs[i].Num? then BufferedRead(fs, i + 1, off + fs[i].width, pending + [Get(off, i)])
    else FlushRead(off, pending) + ([ReadOther(fs[i], i)] + BufferedRead(fs, i + 1, 0, []))
  }

  function PerFieldRead(fs: seq<Type>, i: nat): seq<ReadStmt>
    requires i <= |fs|
    decreases |fs| - i
  {
    if i == |fs| then []
    else [if fs[i].Num? then ReadNum(i) else ReadOther(fs[i], i)] + PerFieldRead(fs, i + 1)
  }

  function ReadProgram(perField: bool, fs: seq<Type>): seq<ReadStmt> {
    if perField then PerFieldRead(fs, 0) else BufferedRead(fs, 0, 0, [])
  }

  /** The check made by the read generator: in its own struct a `[]byte` must be the last field. */
  predicate Accepts(fs: seq<Type>) {
    forall i :: 0 <= i < |fs| - 1 ==> fs[i] != Blob
  }

  function EmitRead(perField: bool, fs: seq<Type>, i: nat, off: nat, pending: seq<ReadStmt>, acc: seq<ReadStmt>): seq<ReadStmt>
    requires i <= |fs|
    decreases |fs| - i
  {
    if i < |fs| && fs[i].Num? then
      if perField then EmitRead(perField, fs, i + 1, off, pending, acc + [ReadNum(i)])
      else EmitRead(perField, fs, i + 1, off + fs[i].width, pending + [Get(off, i)], acc)
    else
      var acc' := if perField || off == 0 then acc else acc + ([FillBuf(off)] + pending);
      if i == |fs| then acc' else EmitRead(perField, fs, i + 1, 0, [], acc' + [ReadOther(fs[i], i)])
  }

  /** The loop of genReadFromReader over the fields of one struct; None is its error return. */
  method GenRead(fs: seq<Type>, perField: bool) returns (r: Option<seq<ReadStmt>>)
    ensures r == if Accepts(fs) then Some(ReadProgram(perField, fs)) else None
  {
    var prog: seq<ReadStmt>, off, pending: seq<ReadStmt> := [], 0, [];
    for i := 0 to |fs|
      invariant off >= 0 && (perField ==> off == 0) && (off == 0 ==> pending == [])
      invariant forall k :: 0 <= k < i && k < |fs| - 1 ==> fs[k] != Blob
      invariant EmitRead(perField, fs, i, off, pending, prog) == EmitRead(perField, fs, 0, 0, [], [])
    {
      if fs[i].Num? {
        if perField {
          prog := prog + [ReadNum(i)];
        } else {
          pending := pending + [Get(off, i)];
          off := off + fs[i].width;
        }
      } else {
        if !perField && off != 0 {
          prog := prog + ([FillBuf(off)] + pending);
          off, pending := 0, [];
        }
        if fs[i].Blob? && i != |fs| - 1 {
          return None;
        }
        prog := prog + [ReadOther(fs[i], i)];
      }
    }
    if !perField && off != 0 {
      prog := prog + ([FillBuf(off)] + pending);
    }
    if perField { EmitPerFieldRead(fs, 0, []); } else { EmitBufferedRead(fs, 0, 0, [], []); }
    assert [] + ReadProgram(perField, fs) == ReadProgram(perField, fs);
    r := Some(prog);
  }

  lemma {:induction false} EmitPerFieldRead(fs: seq<Type>, i: nat, acc: seq<ReadStmt>)
    requires i <= |fs|
    ensures EmitRead(true, fs, i, 0, [], acc) == acc + PerFieldRead(fs, i)
    decreases |fs| - i
  {
    if i == |fs| {
      assert acc + [] == acc;
    } else {
      var stmt := if fs[i].Num? then ReadNum(i) else ReadOther(fs[i], i);
      EmitPerFieldRead(fs, i + 1, acc + [stmt]);
      Reassociate(acc, [stmt], PerFieldRead(fs, i + 1));
    }
  }

  lemma {:induction false} EmitBufferedRead(fs: seq<Type>, i: nat, off: nat, pending: seq<ReadStmt>, acc: seq<ReadStmt>)
    requires i <= |fs|
    ensures EmitRead(false, fs, i, off, pending, acc) == acc + BufferedRead(fs, i, off, pending)
    decreases |fs| - i
  {
    if i < |fs| && fs[i].Num? {
      EmitBufferedRead(fs, i + 1, off + fs[i].width, pending + [Get(off, i)], acc);
    } else {
      var acc' := acc + FlushRead(off, pending);
      if off == 0 { assert acc' == acc; }
      if i < |fs| {
        var stmt, rest := ReadOther(fs[i], i), BufferedRead(fs, i + 1, 0, []);
        EmitBufferedRead(fs, i + 1, 0, [], acc' + [stmt]);
        Reassociate(acc', [stmt], rest);
        Reassociate(acc, FlushRead(off, pending), [stmt] + rest);
      }
    }
  }

  // ---- Executing emitted code ----

  /** Write<T>ToWriter(d, w): run the emitted body with its local array. */
  function WriteTo(perField: bool, t: Type, v: Value): Out
    requires t.Struct? && HasType(t, v)
    decreases t, 0
  {
    RunWrite(perField, t.fields, v.vs, WriteProgram(perField, t.fields), seq(BufNeed(t.fields, 0, 0), _ => 0), [])
  }

  /** Executes `prog` with local array `buf`, after `out` has been written. A bad index panics. */
  function RunWrite(perField: bool, fs: seq<Type>, vs: seq<Value>, prog: seq<WriteStmt>, buf: seq<byte>, out: seq<byte>): Out
    requires HaveTypes(fs, vs)
    decreases fs, |prog|
  {
    if prog == [] then Out(out, true)
    else
      match prog[0]
      case Put(off, f) =>
        if f < |fs| && fs[f].Num? && off + fs[f].width <= |buf| then
          var bs := NumBytes(vs[f].n, fs[f].width, fs[f].signed);
          RunWrite(perField, fs, vs, prog[1..], buf[..off] + bs + buf[off + |bs|..], out)
        else Panic
      case FlushBuf(n) =>
        if n <= |buf| then RunWrite(perField, fs, vs, prog[1..], buf, out + buf[..n]) else Panic
      case WriteNum(f) =>
        if f < |fs| && fs[f].Num? then
          RunWrite(perField, fs, vs, prog[1..], buf, out + NumBytes(vs[f].n, fs[f].width, fs[f].signed))
        else Panic
      case WriteStr(f) =>
        if f < |fs| && fs[f].Str? then
          var o := EncodeStr(vs[f].b);
          if o.ok then RunWrite(perField, fs, vs, prog[1..], buf, out + o.bytes) else Out(out + o.bytes, false)
        else Panic
      case WriteBlob(f) =>
        if f < |fs| && fs[f].Blob? then RunWrite(perField, fs, vs, prog[1..], buf, out + vs[f].b) else Panic
      case CallWrite(f) =>
        if f < |fs| && fs[f].Struct? then
          match WriteTo(perField, fs[f], vs[f])
          case Panic => Panic
          case Out(bs, ok) =>
            if ok then RunWrite(perField, fs, vs, prog[1..], buf, out + bs) else Out(out + bs, false)
        else Panic
  }

  datatype In = Done(v: Value, rest: seq<byte>) | ReadError | ReadPanic

  /** Read<T>FromReader(&d, r), `d` starting as the zero value. */
  function ReadFrom(perField: bool, t: Type, input: seq<byte>): In
    requires t.Struct?
    decreases t, 0
  {
    RunRead(perField, t.fields, ReadProgram(perField, t.fields), seq(BufNeed(t.fields, 0, 0), _ => 0),
            seq(|t.fields|, _ => NumV(0)), input)
  }

  function RunRead(perField: bool, fs: seq<Type>, prog: seq<ReadStmt>, buf: seq<byte>, d: seq<Value>, input: seq<byte>): In
    requires |d| == |fs|
    decreases fs, |prog|
  {
    if prog == [] then Done(StructV(d), input)
    else
      match prog[0]
      case FillBuf(n) =>
        if n > |buf| then ReadPanic
        else if |input| < n then ReadError
        else RunRead(perField, fs, prog[1..], input[..n] + buf[n..], d, input[n..])
      case Get(off, f) =>
        if f < |fs| && fs[f].Num? && off + fs[f].width <= |buf| then
          var v := NumV(BytesNum(buf[off..off + fs[f].width], fs[f].signed));
          RunRead(perField, fs, prog[1..], buf, d[f := v], input)
        else ReadPanic
      case ReadNum(f) =>
        if f < |fs| && fs[f].Num? then
          if |input| < fs[f].width then ReadError
          else
            var v := NumV(BytesNum(input[..fs[f].width], fs[f].signed));
            RunRead(perField, fs, prog[1..], buf, d[f := v], input[fs[f].width..])
        else ReadPanic
      case ReadStr(f) =>
        if f < |fs| && fs[f].Str? then
          match DecodeStr(input)
          case None => ReadError
          case Some((s, rest)) => RunRead(perField, fs, prog[1..], buf, d[f := BytesV(s)], rest)
        else ReadPanic
      case ReadBlob(f) =>
        if f < |fs| && fs[f].Blob? then RunRead(perField, fs, prog[1..], buf, d[f := BytesV(input)], []) else ReadPanic
      case CallRead(f) =>
        if f < |fs| && fs[f].Struct? then
          match ReadFrom(perField, fs[f], input)
          case ReadError => ReadError
          case ReadPanic => ReadPanic
          case Done(v, rest) => RunRead(perField, fs, prog[1..], buf, d[f := v], rest)
        else ReadPanic
  }

  // ---- Write correctness ----

  function Prepend(pre: seq<byte>, o: Out): Out
    requires o.Out?
  {
    Out(pre + o.bytes, o.ok)
  }

  /** Emitted encoders, in either mode, write exactly the reference encoding, errors included. */
  lemma {:induction false} WriteIsEncode(perField: bool, t: Type, v: Value)
    requires t.Struct? && HasType(t, v)
    ensures WriteTo(perField, t, v) == Encode(t, v)
    decreases t, 0
  {
    var o := EncodeFields(t.fields, v.vs, 0);
    assert [] + o.bytes == o.bytes;
    if perField {
      PerFieldWriteRuns(t.fields, v.vs, 0, seq(BufNeed(t.fields, 0, 0), _ => 0), []);
    } else {
      BufferedWriteRuns(t.fields, v.vs, 0, 0, seq(BufNeed(t.fields, 0, 0), _ => 0), []);
    }
  }

  /** One emitted statement that is not about an integer. */
  lemma WriteOtherStep(perField: bool, fs: seq<Type>, vs: seq<Value>, i: nat, prog: seq<WriteStmt>, next: seq<WriteStmt>,
                       buf: seq<byte>, out: seq<byte>)
    requires HaveTypes(fs, vs) && i < |fs| && !fs[i].Num? && prog == [WriteOther(fs[i], i)] + next
    requires fs[i].Struct? ==> WriteTo(perField, fs[i], vs[i]) == Encode(fs[i], vs[i])
    ensures var o := Encode(fs[i], vs[i]);
            RunWrite(perField, fs, vs, prog, buf, out) ==
            if o.ok then RunWrite(perField, fs, vs, next, buf, out + o.bytes) else Out(out + o.bytes, false)
  {
    assert prog[0] == WriteOther(fs[i], i) && prog[1..] == next;
  }

  lemma EncodeStep(fs: seq<Type>, vs: seq<Value>, i: nat, out: seq<byte>)
    requires HaveTypes(fs, vs) && i < |fs|
    ensures var o := Encode(fs[i], vs[i]);
            Prepend(out, EncodeFields(fs, vs, i)) ==
            if o.ok then Prepend(out + o.bytes, EncodeFields(fs, vs, i + 1)) else Out(out + o.bytes, false)
  {
    var o, tail := Encode(fs[i], vs[i]), EncodeFields(fs, vs, i + 1);
    if o.ok { assert out + o.bytes + tail.bytes == out + (o.bytes + tail.bytes); }
  }

  lemma {:induction false} PerFieldWriteRuns(fs: seq<Type>, vs: seq<Value>, i: nat, buf: seq<byte>, out: seq<byte>)
    requires HaveTypes(fs, vs) && i <= |fs|
    ensures RunWrite(true, fs, vs, PerFieldWrite(fs, i), buf, out) == Prepend(out, EncodeFields(fs, vs, i))
    decreases fs, |fs| - i
  {
    if i < |fs| {
      var prog, next := PerFieldWrite(fs, i), PerFieldWrite(fs, i + 1);
      var bs := Encode(fs[i], vs[i]).bytes;
      EncodeStep(fs, vs, i, out);
      PerFieldWriteRuns(fs, vs, i + 1, buf, out + bs);
      if fs[i].Num? {
        assert prog[0] == WriteNum(i) && prog[1..] == next;
      } else {
        if fs[i].Struct? { WriteIsEncode(true, fs[i], vs[i]); }
        WriteOtherStep(true, fs, vs, i, prog, next, buf, out);
      }
    }
  }

  /** With `off` bytes pending in `buf`, the rest of the program writes them and then the fields from `i`. */
  lemma {:induction false} BufferedWriteRuns(fs: seq<Type>, vs: seq<Value>, i: nat, off: nat, buf: seq<byte>, out: seq<byte>)
    requires HaveTypes(fs, vs) && i <= |fs| && BufNeed(fs, i, off) <= |buf|
    ensures RunWrite(false, fs, vs, BufferedWrite(fs, i, off), buf, out)
         == Prepend(out + buf[..off], EncodeFields(fs, vs, i))
    decreases fs, |fs| - i
  {
    var prog := BufferedWrite(fs, i, off);
    if i < |fs| && fs[i].Num? {
      var next := BufferedWrite(fs, i + 1, off + fs[i].width);
      var buf' := PutStep(fs, vs, i, off, prog, next, buf, out);
      BufferedWriteRuns(fs, vs, i + 1, off + fs[i].width, buf', out);
      EncodeStep(fs, vs, i, out + buf[..off]);
    } else {
      var rest := if i == |fs| then [] else [WriteOther(fs[i], i)] + BufferedWrite(fs, i + 1, 0);
      assert prog == FlushWrite(off) + rest;
      FlushStep(fs, vs, off, prog, rest, buf, out);
      var out' := out + buf[..off];
      if i == |fs| {
        assert out' + [] == out';
      } else {
        if fs[i].Struct? { WriteIsEncode(false, fs[i], vs[i]); }
        var bs := Encode(fs[i], vs[i]).bytes;
        WriteOtherStep(false, fs, vs, i, rest, BufferedWrite(fs, i + 1, 0), buf, out');
        EncodeStep(fs, vs, i, out');
        BufferedWriteRuns(fs, vs, i + 1, 0, buf, out' + bs);
        assert out' + bs + buf[..0] == out' + bs;
      }
    }
  }

  lemma PutStep(fs: seq<Type>, vs: seq<Value>, i: nat, off: nat, prog: seq<WriteStmt>, next: seq<WriteStmt>,
                buf: seq<byte>, out: seq<byte>) returns (buf': seq<byte>)
    requires HaveTypes(fs, vs) && i < |fs| && fs[i].Num? && off + fs[i].width <= |buf|
    requires prog == [Put(off, i)] + next
    ensures |buf'| == |buf| && out + buf'[..off + fs[i].width] == out + buf[..off] + Encode(fs[i], vs[i]).bytes
    ensures RunWrite(false, fs, vs, prog, buf, out) == RunWrite(false, fs, vs, next, buf', out)
  {
    var bs := NumBytes(vs[i].n, fs[i].width, fs[i].signed);
    buf' := buf[..off] + bs + buf[off + |bs|..];
    assert prog[0] == Put(off, i) && prog[1..] == next;
    assert buf'[..off + |bs|] == buf[..off] + bs;
  }

  lemma FlushStep(fs: seq<Type>, vs: seq<Value>, off: nat, prog: seq<WriteStmt>, rest: seq<WriteStmt>, buf: seq<byte>, out: seq<byte>)
    requires HaveTypes(fs, vs) && off <= |buf| && prog == FlushWrite(off) + rest
    ensures RunWrite(false, fs, vs, prog, buf, out) == RunWrite(false, fs, vs, rest, buf, out + buf[..off])
  {
    if off == 0 {
      assert prog == rest && out + buf[..0] == out;
    } else {
      assert prog[0] == FlushBuf(off) && prog[1..] == rest;
    }
  }

  // ---- Read correctness ----

  function AsRead(r: Option<(Value, seq<byte>)>): In {
    match r
    case None => ReadError
    case Some((v, rest)) => Done(v, rest)
  }

  function Reading(r: Option<(seq<Value>, seq<byte>)>, pre: seq<Value>): In {
    match r
    case None => ReadError
    case Some((vs, rest)) => Done(StructV(pre + vs), rest)
  }

  /** Emitted decoders, in either mode, accept the same inputs as the reference and return its value. */
  lemma {:induction false} ReadIsDecode(perField: bool, t: Type, input: seq<byte>)
    requires t.Struct?
    ensures ReadFrom(perField, t, input) == AsRead(Decode(t, input))
    decreases t, 0
  {
    var d: seq<Value> := seq(|t.fields|, _ => NumV(0));
    var buf: seq<byte> := seq(BufNeed(t.fields, 0, 0), _ => 0);
    if perField {
      PerFieldReadRuns(t.fields, 0, buf, d, input);
    } else {
      BufferedReadRuns(t.fields, 0, 0, 0, [], buf, d, input);
    }
    if DecodeFields(t.fields, 0, input).Some? {
      assert d[..0] + DecodeFields(t.fields, 0, input).value.0 == DecodeFields(t.fields, 0, input).value.0;
    }
  }

  lemma ReadingStep(fs: seq<Type>, i: nat, d: seq<Value>, input: seq<byte>)
    requires |d| == |fs| && i < |fs|
    ensures Decode(fs[i], input).None? ==> Reading(DecodeFields(fs, i, input), d[..i]) == ReadError
    ensures Decode(fs[i], input).Some? ==>
              var (v, rest) := Decode(fs[i], input).value;
              Reading(DecodeFields(fs, i, input), d[..i]) ==
              Reading(DecodeFields(fs, i + 1, rest), d[i := v][..i + 1])
  {
    if Decode(fs[i], input).Some? {
      var (v, rest) := Decode(fs[i], input).value;
      assert d[i := v][..i + 1] == d[..i] + [v];
      if DecodeFields(fs, i + 1, rest).Some? {
        var vs := DecodeFields(fs, i + 1, rest).value.0;
        assert d[..i] + [v] + vs == d[..i] + ([v] + vs);
      }
    }
  }

  /** One emitted statement that is not about an integer. */
  lemma ReadOtherStep(perField: bool, fs: seq<Type>, i: nat, prog: seq<ReadStmt>, next: seq<ReadStmt>,
                      buf: seq<byte>, d: seq<Value>, input: seq<byte>)
    requires |d| == |fs| && i < |fs| && !fs[i].Num? && prog == [ReadOther(fs[i], i)] + next
    requires fs[i].Struct? ==> ReadFrom(perField, fs[i], input) == AsRead(Decode(fs[i], input))
    ensures RunRead(perField, fs, prog, buf, d, input) ==
            match Decode(fs[i], input)
            case None => ReadError
            case Some((v, rest)) => RunRead(perField, fs, next, buf, d[i := v], rest)
  {
    assert prog[0] == ReadOther(fs[i], i) && prog[1..] == next;
  }

  lemma {:induction false} PerFieldReadRuns(fs: seq<Type>, i: nat, buf: seq<byte>, d: seq<Value>, input: seq<byte>)
    requires |d| == |fs| && i <= |fs|
    ensures RunRead(true, fs, PerFieldRead(fs, i), buf, d, input) == Reading(DecodeFields(fs, i, input), d[..i])
    decreases fs, |fs| - i
  {
    var prog := PerFieldRead(fs, i);
    if i == |fs| {
      assert d[..i] + [] == d;
    } else {
      var next := PerFieldRead(fs, i + 1);
      assert prog[1..] == next;
      ReadingStep(fs, i, d, input);
      if fs[i].Struct? { ReadIsDecode(true, fs[i], input); }
      if !fs[i].Num? { ReadOtherStep(true, fs, i, prog, next, buf, d, input); }
      if Decode(fs[i], input).Some? {
        var (v, rest) := Decode(fs[i], input).value;
        PerFieldReadRuns(fs, i + 1, buf, d[i := v], rest);
      }
    }
  }

  /** The deferred assignments of the integer fields `j` to `i`, from offset `off` on. */
  function Gets(fs: seq<Type>, j: nat, i: nat, off: nat): seq<ReadStmt>
    requires j <= i <= |fs|
    requires forall k :: j <= k < i ==> fs[k].Num?
    decreases i - j
  {
    if j == i then [] else [Get(off, j)] + Gets(fs, j + 1, i, off + fs[j].width)
  }

  function RunWidth(fs: seq<Type>, j: nat, i: nat): nat
    requires j <= i <= |fs|
    requires forall k :: j <= k < i ==> fs[k].Num?
    decreases i - j
  {
    if j == i then 0 else fs[j].width + RunWidth(fs, j + 1, i)
  }

  lemma {:induction false} GetsSnoc(fs: seq<Type>, j: nat, i: nat, off: nat)
    requires j <= i < |fs|
    requires forall k :: j <= k <= i ==> fs[k].Num?
    ensures Gets(fs, j, i + 1, off) == Gets(fs, j, i, off) + [Get(off + RunWidth(fs, j, i), i)]
    ensures RunWidth(fs, j, i + 1) == RunWidth(fs, j, i) + fs[i].width
    decreases i - j
  {
    if j < i {
      GetsSnoc(fs, j + 1, i, off + fs[j].width);
    }
  }

  /** The destination after the integer fields `j` to `i` were decoded from `input`. */
  function Assigned(fs: seq<Type>, j: nat, i: nat, d: seq<Value>, input: seq<byte>): (d': seq<Value>)
    requires |d| == |fs| && j <= i <= |fs|
    requires forall k :: j <= k < i ==> fs[k].Num?
    requires RunWidth(fs, j, i) <= |input|
    ensures |d'| == |fs|
    decreases i - j
  {
    if j == i then d
    else
      var w := fs[j].width;
      Assigned(fs, j + 1, i, d[j := NumV(BytesNum(input[..w], fs[j].signed))], input[w..])
  }

  lemma {:induction false} AssignedIsDecoded(fs: seq<Type>, j: nat, i: nat, d: seq<Value>, input: seq<byte>)
    requires |d| == |fs| && j <= i <= |fs|
    requires forall k :: j <= k < i ==> fs[k].Num?
    requires RunWidth(fs, j, i) <= |input|
    ensures Reading(DecodeFields(fs, j, input), d[..j]) ==
            Reading(DecodeFields(fs, i, input[RunWidth(fs, j, i)..]), Assigned(fs, j, i, d, input)[..i])
    decreases i - j
  {
    if j == i {
      assert input[0..] == input;
    } else {
      var w := fs[j].width;
      var v := NumV(BytesNum(input[..w], fs[j].signed));
      ReadingStep(fs, j, d, input);
      AssignedIsDecoded(fs, j + 1, i, d[j := v], input[w..]);
      assert input[w..][RunWidth(fs, j + 1, i)..] == input[RunWidth(fs, j, i)..];
    }
  }

  /** Filling the array once and assigning from it does the same as reading the integers one by one. */
  lemma {:induction false} GetsRun(fs: seq<Type>, j: nat, i: nat, off: nat, tail: seq<ReadStmt>, buf: seq<byte>,
                                   d: seq<Value>, input: seq<byte>, rest: seq<byte>)
    requires |d| == |fs| && j <= i <= |fs|
    requires forall k :: j <= k < i ==> fs[k].Num?
    requires off + RunWidth(fs, j, i) <= |buf|
    requires RunWidth(fs, j, i) <= |input| && buf[off..off + RunWidth(fs, j, i)] == input[..RunWidth(fs, j, i)]
    ensures RunRead(false, fs, Gets(fs, j, i, off) + tail, buf, d, rest)
         == RunRead(false, fs, tail, buf, Assigned(fs, j, i, d, input), rest)
    decreases i - j
  {
    var prog := Gets(fs, j, i, off) + tail;
    if j == i {
      assert prog == tail;
    } else {
      var w, n := fs[j].width, RunWidth(fs, j + 1, i);
      SliceSplit(buf, off, input, w, n);
      var next := Gets(fs, j + 1, i, off + w) + tail;
      assert prog[0] == Get(off, j) && prog[1..] == next;
      var d1 := d[j := NumV(BytesNum(input[..w], fs[j].signed))];
      assert RunRead(false, fs, prog, buf, d, rest) == RunRead(false, fs, next, buf, d1, rest);
      GetsRun(fs, j + 1, i, off + w, tail, buf, d1, input[w..], rest);
    }
  }

  lemma SliceSplit(buf: seq<byte>, off: nat, input: seq<byte>, w: nat, n: nat)
    requires off + w + n <= |buf| && w + n <= |input| && buf[off..off + (w + n)] == input[..w + n]
    ensures buf[off..off + w] == input[..w] && buf[off + w..off + w + n] == input[w..][..n]
    ensures input[w..][n..] == input[w + n..]
  {
    assert buf[off..off + w] == buf[off..off + (w + n)][..w];
    assert buf[off + w..off + w + n] == buf[off..off + (w + n)][w..];
  }

  lemma {:induction false} ShortRunFails(fs: seq<Type>, j: nat, i: nat, input: seq<byte>)
    requires j <= i <= |fs|
    requires forall k :: j <= k < i ==> fs[k].Num?
    requires |input| < RunWidth(fs, j, i)
    ensures DecodeFields(fs, j, input).None?
    decreases i - j
  {
    if j < i && |input| >= fs[j].width {
      ShortRunFails(fs, j + 1, i, input[fs[j].width..]);
    }
  }

  /** Fields `j` to `i` are integers still to be read; the rest of the program decodes from field `j`. */
  lemma {:induction false} BufferedReadRuns(fs: seq<Type>, j: nat, i: nat, off: nat, pending: seq<ReadStmt>, buf: seq<byte>,
                                            d: seq<Value>, input: seq<byte>)
    requires |d| == |fs| && j <= i <= |fs|
    requires forall k :: j <= k < i ==> fs[k].Num?
    requires off == RunWidth(fs, j, i) && pending == Gets(fs, j, i, 0) && BufNeed(fs, i, off) <= |buf|
    ensures RunRead(false, fs, BufferedRead(fs, i, off, pending), buf, d, input) == Reading(DecodeFields(fs, j, input), d[..j])
    decreases fs, |fs| - i, 1
  {
    if i < |fs| && fs[i].Num? {
      GetsSnoc(fs, j, i, 0);
      BufferedReadRuns(fs, j, i + 1, off + fs[i].width, pending + [Get(off, i)], buf, d, input);
    } else {
      var tail := if i == |fs| then [] else [ReadOther(fs[i], i)] + BufferedRead(fs, i + 1, 0, []);
      var prog := BufferedRead(fs, i, off, pending);
      assert prog == FlushRead(off, pending) + tail;
      if off == 0 {
        assert j == i && prog == tail;
        BufferedTailRuns(fs, i, buf, d, input, tail);
      } else if |input| < off {
        ShortRunFails(fs, j, i, input);
      } else {
        var buf' := input[..off] + buf[off..];
        assert prog[1..] == Gets(fs, j, i, 0) + tail;
        assert buf'[0..0 + off] == input[..off];
        var d' := Assigned(fs, j, i, d, input);
        GetsRun(fs, j, i, 0, tail, buf', d, input, input[off..]);
        AssignedIsDecoded(fs, j, i, d, input);
        BufferedTailRuns(fs, i, buf', d', input[off..], tail);
      }
    }
  }

  lemma {:induction false} BufferedTailRuns(fs: seq<Type>, i: nat, buf: seq<byte>, d: seq<Value>, input: seq<byte>, prog: seq<ReadStmt>)
    requires |d| == |fs| && i <= |fs| && (i < |fs| ==> !fs[i].Num? && BufNeed(fs, i + 1, 0) <= |buf|)
    requires prog == if i == |fs| then [] else [ReadOther(fs[i], i)] + BufferedRead(fs, i + 1, 0, [])
    ensures RunRead(false, fs, prog, buf, d, input) == Reading(DecodeFields(fs, i, input), d[..i])
    decreases fs, |fs| - i, 0
  {
    if i == |fs| {
      assert d[..i] + [] == d;
    } else {
      ReadingStep(fs, i, d, input);
      if fs[i].Struct? { ReadIsDecode(false, fs[i], input); }
      ReadOtherStep(false, fs, i, prog, BufferedRead(fs, i + 1, 0, []), buf, d, input);
      if Decode(fs[i], input).Some? {
        var (v, rest) := Decode(fs[i], input).value;
        BufferedReadRuns(fs, i + 1, i + 1, 0, [], buf, d[i := v], rest);
      }
    }
  }

  // ---- Main results ----

  /** The two modes are interchangeable: same bytes and errors out, same values, leftovers and errors in. */
  lemma ModesAgree(t: Type, v: Value, input: seq<byte>)
    requires t.Struct? && HasType(t, v)
    ensures WriteTo(true, t, v) == WriteTo(false, t, v)
    ensures ReadFrom(true, t, input) == ReadFrom(false, t, input)
  {
    WriteIsEncode(true, t, v);
    WriteIsEncode(false, t, v);
    ReadIsDecode(true, t, input);
    ReadIsDecode(false, t, input);
  }

  /** A client and a server built in different modes understand each other. */
  lemma GeneratedRoundTrip(writer: bool, reader: bool, t: Type, v: Value)
    requires t.Struct? && HasType(t, v) && BlobOnlyLast(Flatten(t))
    ensures var o := WriteTo(writer, t, v);
            o.Out? && (o.ok ==> |o.bytes| == RequiredSize(t, v) && ReadFrom(reader, t, o.bytes) == Done(v, []))
    ensures var o := WriteTo(writer, t, v);
            o.ok && NoBlob(Flatten(t)) ==> forall rest :: ReadFrom(reader, t, o.bytes + rest) == Done(v, rest)
  {
    var o := Encode(t, v);
    WriteIsEncode(writer, t, v);
    RequiredSizeIsLength(t, v);
    if o.ok {
      RoundTripBlobLast(t, v);
      ReadIsDecode(reader, t, o.bytes);
      if NoBlob(Flatten(t)) {
        forall rest ensures ReadFrom(reader, t, o.bytes + rest) == Done(v, rest) {
          RoundTripWithRest(t, v, rest);
          ReadIsDecode(reader, t, o.bytes + rest);
        }
      }
    }
  }

  // ---- What the generator lets through ----

  const NESTED := Struct([Struct([Blob]), Num(1, false)])

  /** The check looks at one struct at a time: both structs of `NESTED` are generated. */
  method GenNested(perField: bool) returns (inner: Option<seq<ReadStmt>>, outer: Option<seq<ReadStmt>>)
    ensures inner.Some? && outer.Some?
  {
    inner := GenRead(NESTED.fields[0].fields, perField);
    outer := GenRead(NESTED.fields, perField);
  }

  /** Yet no value of it survives: the inner struct eats the byte the outer one waits for. */
  lemma NestedIsLost(writer: bool, reader: bool, v: Value)
    requires HasType(NESTED, v)
    ensures var o := WriteTo(writer, NESTED, v); o.Out? && o.ok && ReadFrom(reader, NESTED, o.bytes) == ReadError
  {
    var fs, inner := NESTED.fields, NESTED.fields[0];
    assert HasType(fs[0], v.vs[0]) && HasType(fs[1], v.vs[1]) && HasType(inner.fields[0], v.vs[0].vs[0]);
    assert StringsFit(inner.fields[0], v.vs[0].vs[0]) && StringsFit(inner, v.vs[0]) && StringsFit(fs[1], v.vs[1]);
    assert forall i :: 0 <= i < 2 ==> StringsFit(fs[i], v.vs[i]);
    EncodeOkIff(NESTED, v);
    WriteIsEncode(writer, NESTED, v);
    var input := Encode(NESTED, v).bytes;
    assert DecodeFields(inner.fields, 1, []) == Some(([], []));
    assert DecodeFields(inner.fields, 0, input) == Some(([BytesV(input)] + [], []));
    assert Decode(inner, input).Some? && Decode(inner, input).value.1 == [];
    assert DecodeFields(fs, 1, []) == None;
    assert Decode(NESTED, input) == None;
    ReadIsDecode(reader, NESTED, input);
  }

  // ---- Reading the payload into a caller's buffer ----

  /** Read<T>FromReaderWithBuffer(&d, r, dataBuf): the same statements, but a payload longer than the buffer is an error. */
  function ReadInto(perField: bool, t: Type, input: seq<byte>, cap: nat): In
    requires t.Struct?
  {
    RunReadInto(perField, t.fields, ReadProgram(perField, t.fields), seq(BufNeed(t.fields, 0, 0), _ => 0),
                seq(|t.fields|, _ => NumV(0)), input, cap)
  }

  function RunReadInto(perField: bool, fs: seq<Type>, prog: seq<ReadStmt>, buf: seq<byte>, d: seq<Value>, input: seq<byte>, cap: nat): In
    requires |d| == |fs|
    decreases |prog|
  {
    if prog == [] then Done(StructV(d), input)
    else
      match prog[0]
      case FillBuf(n) =>
        if n > |buf| then ReadPanic
        else if |input| < n then ReadError
        else RunReadInto(perField, fs, prog[1..], input[..n] + buf[n..], d, input[n..], cap)
      case Get(off, f) =>
        if f < |fs| && fs[f].Num? && off + fs[f].width <= |buf| then
          var v := NumV(BytesNum(buf[off..off + fs[f].width], fs[f].signed));
          RunReadInto(perField, fs, prog[1..], buf, d[f := v], input, cap)
        else ReadPanic
      case ReadNum(f) =>
        if f < |fs| && fs[f].Num? then
          if |input| < fs[f].width then ReadError
          else
            var v := NumV(BytesNum(input[..fs[f].width], fs[f].signed));
            RunReadInto(perField, fs, prog[1..], buf, d[f := v], input[fs[f].width..], cap)
        else ReadPanic
      case ReadStr(f) =>
        if f < |fs| && fs[f].Str? then
          match DecodeStr(input)
          case None => ReadError
          case Some((s, rest)) => RunReadInto(perField, fs, prog[1..], buf, d[f := BytesV(s)], rest, cap)
        else ReadPanic
      case ReadBlob(f) =>
        if f >= |fs| || !fs[f].Blob? then ReadPanic
        else if |input| > cap then ReadError
        else RunReadInto(perField, fs, prog[1..], buf, d[f := BytesV(input)], [], cap)
      case CallRead(f) =>
        if f < |fs| && fs[f].Struct? then
          match ReadFrom(perField, fs[f], input)
          case ReadError => ReadError
          case ReadPanic => ReadPanic
          case Done(v, rest) => RunReadInto(perField, fs, prog[1..], buf, d[f := v], rest, cap)
        else ReadPanic
  }

  /** A payload statement comes last and fills the last field. */
  predicate BlobStmtLast(prog: seq<ReadStmt>, n: nat) {
    forall k :: 0 <= k < |prog| && prog[k].ReadBlob? ==> k == |prog| - 1 && prog[k].field + 1 == n
  }

  predicate EndsInBlob(prog: seq<ReadStmt>) { prog != [] && prog[|prog| - 1].ReadBlob? }

  predicate TooLong(r: In, n: nat, cap: nat) {
    r.Done? && r.v.StructV? && 0 < n == |r.v.vs| && r.v.vs[n - 1].BytesV? && |r.v.vs[n - 1].b| > cap
  }

  lemma {:induction false} IntoIsLimited(perField: bool, fs: seq<Type>, prog: seq<ReadStmt>, buf: seq<byte>, d: seq<Value>, input: seq<byte>, cap: nat)
    requires |d| == |fs| && BlobStmtLast(prog, |fs|)
    ensures var r := RunRead(perField, fs, prog, buf, d, input);
      RunReadInto(perField, fs, prog, buf, d, input, cap) == if EndsInBlob(prog) && TooLong(r, |fs|, cap) then ReadError else r
    decreases |prog|
  {
    if prog != [] {
      var next := prog[1..];
      assert next != [] ==> next[|next| - 1] == prog[|prog| - 1];
      match prog[0] {
        case FillBuf(n) =>
          if n <= |buf| && n <= |input| { IntoIsLimited(perField, fs, next, input[..n] + buf[n..], d, input[n..], cap); }
        case Get(off, f) =>
          if f < |fs| && fs[f].Num? && off + fs[f].width <= |buf| {
            IntoIsLimited(perField, fs, next, buf, d[f := NumV(BytesNum(buf[off..off + fs[f].width], fs[f].signed))], input, cap);
          }
        case ReadNum(f) =>
          if f < |fs| && fs[f].Num? && fs[f].width <= |input| {
            IntoIsLimited(perField, fs, next, buf, d[f := NumV(BytesNum(input[..fs[f].width], fs[f].signed))], input[fs[f].width..], cap);
          }
        case ReadStr(f) =>
          if f < |fs| && fs[f].Str? && DecodeStr(input).Some? {
            IntoIsLimited(perField, fs, next, buf, d[f := BytesV(DecodeStr(input).value.0)], DecodeStr(input).value.1, cap);
          }
        case ReadBlob(f) => assert next == [];
        case CallRead(f) =>
          if f < |fs| && fs[f].Struct? && ReadFrom(perField, fs[f], input).Done? {
            var r := ReadFrom(perField, fs[f], input);
            IntoIsLimited(perField, fs, next, buf, d[f := r.v], r.rest, cap);
          }
      }
    }
  }

  lemma {:induction false} BufferedBlobLast(fs: seq<Type>, i: nat, off: nat, pending: seq<ReadStmt>)
    requires Accepts(fs) && i <= |fs| && forall k :: 0 <= k < |pending| ==> pending[k].Get?
    ensures var prog := BufferedRead(fs, i, off, pending);
      BlobStmtLast(prog, |fs|) && (i < |fs| && fs[|fs| - 1].Blob? ==> EndsInBlob(prog))
    decreases |fs| - i
  {
    if i < |fs| {
      if fs[i].Num? {
        BufferedBlobLast(fs, i + 1, off + fs[i].width, pending + [Get(off, i)]);
      } else {
        BufferedBlobLast(fs, i + 1, 0, []);
      }
    }
  }

  lemma {:induction false} PerFieldBlobLast(fs: seq<Type>, i: nat)
    requires Accepts(fs) && i <= |fs|
    ensures var prog := PerFieldRead(fs, i);
      BlobStmtLast(prog, |fs|) && (i < |fs| && fs[|fs| - 1].Blob? ==> EndsInBlob(prog))
    decreases |fs| - i
  {
    if i < |fs| { PerFieldBlobLast(fs, i + 1); }
  }

  /** Such a reader accepts what the reference accepts, limited to payloads that fit the buffer. */
  lemma ReadIntoIsDecode(perField: bool, t: Type, input: seq<byte>, cap: nat)
    requires t.Struct? && Accepts(t.fields) && t.fields != [] && t.fields[|t.fields| - 1].Blob?
    ensures var r := AsRead(Decode(t, input));
      ReadInto(perField, t, input, cap) == if TooLong(r, |t.fields|, cap) then ReadError else r
  {
    var fs := t.fields;
    if perField { PerFieldBlobLast(fs, 0); } else { BufferedBlobLast(fs, 0, 0, []); }
    IntoIsLimited(perField, fs, ReadProgram(perField, fs), seq(BufNeed(fs, 0, 0), _ => 0), seq(|fs|, _ => NumV(0)), input, cap);
    ReadIsDecode(perField, t, input);
  }
}
