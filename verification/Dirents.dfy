/** Directory entries and the records of a ReadDirPlus response, as bytes. */
module Dirents {
  import opened Bytes
  import opened Protocol
  import opened Codec

  type U8 = x: int | 0 <= x < 0x100
  type U32 = x: int | 0 <= x < 0x1_0000_0000
  type U64 = x: int | 0 <= x < 0x1_0000_0000_0000_0000
  type I64 = x: int | -0x8000_0000_0000_0000 <= x < 0x8000_0000_0000_0000

  datatype Dirent = Dirent(name: seq<byte>, size: U64, sec: I64, nsec: I64, mode: U32, owner: U8)

  const TIMESPEC := Struct([Num(8, true), Num(8, true)])
  const DIRENT := Struct([Str, Num(8, false), TIMESPEC, Num(4, false), Num(1, false)])

  const CONTINUE: byte := 1
  const PREFETCH: byte := 2
  const PREFETCH_SKIP: byte := 3

  /** The ModeDir bit of a transmitted mode. */
  predicate IsModeDir(mode: U32) { mode >= 0x8000_0000 }

  function ToValue(d: Dirent): (v: Value)
    ensures HasType(DIRENT, v)
  {
    Widths();
    var ts := StructV([NumV(d.sec), NumV(d.nsec)]);
    assert HasType(TIMESPEC, ts);
    StructV([BytesV(d.name), NumV(d.size), ts, NumV(d.mode), NumV(d.owner)])
  }

  function FromValue(v: Value): Dirent
    requires HasType(DIRENT, v)
  {
    Widths();
    assert HasType(DIRENT.fields[0], v.vs[0]) && HasType(DIRENT.fields[1], v.vs[1]) && HasType(TIMESPEC, v.vs[2]);
    assert HasType(DIRENT.fields[3], v.vs[3]) && HasType(DIRENT.fields[4], v.vs[4]);
    assert HasType(TIMESPEC.fields[0], v.vs[2].vs[0]) && HasType(TIMESPEC.fields[1], v.vs[2].vs[1]);
    Dirent(v.vs[0].b, v.vs[1].n, v.vs[2].vs[0].n, v.vs[2].vs[1].n, v.vs[3].n, v.vs[4].n)
  }

  lemma FromToValue(d: Dirent)
    ensures FromValue(ToValue(d)) == d
  {}

  /** WriteDirentToWriter. */
  function DirentBytes(d: Dirent): seq<byte> {
    Encode(DIRENT, ToValue(d)).bytes
  }

  /** GetDirentRequiredSize. */
  function DirentSize(d: Dirent): nat {
    |d.name| + 16 + 15
  }

  /** ReadDirentFromReader. */
  function ReadDirent(input: seq<byte>): Option<(Dirent, seq<byte>)> {
    match Decode(DIRENT, input)
    case None => None
    case Some((v, rest)) => DecodeIsCanonical(DIRENT, input); Some((FromValue(v), rest))
  }

  lemma ReadConsumes(input: seq<byte>)
    ensures ReadDirent(input).Some? ==> |ReadDirent(input).value.1| <= |input|
  {
    DecodeIsCanonical(DIRENT, input);
  }

  lemma DirentEncodes(d: Dirent)
    requires |d.name| <= MAX_STRING
    ensures Encode(DIRENT, ToValue(d)).ok && |DirentBytes(d)| == DirentSize(d)
  {
    var v := ToValue(d);
    assert StringsFit(TIMESPEC, v.vs[2]);
    assert StringsFit(DIRENT.fields[0], v.vs[0]);
    assert forall i :: 0 <= i < 5 ==> StringsFit(DIRENT.fields[i], v.vs[i]);
    EncodeOkIff(DIRENT, v);
    RequiredSizeIsLength(DIRENT, v);
    DirentRequiredSize(d);
  }

  /** The generated size function of Dirent. */
  lemma DirentRequiredSize(d: Dirent)
    ensures RequiredSize(DIRENT, ToValue(d)) == DirentSize(d)
  {
    var v := ToValue(d);
    var fs, ts := DIRENT.fields, v.vs[2];
    assert RequiredSizes(TIMESPEC.fields, ts.vs, 1) == 8;
    assert RequiredSize(TIMESPEC, ts) == 16;
    assert RequiredSizes(fs, v.vs, 4) == 1;
    assert RequiredSizes(fs, v.vs, 3) == 5;
    assert RequiredSizes(fs, v.vs, 2) == 21;
    assert RequiredSizes(fs, v.vs, 1) == 29;
    assert RequiredSizes(fs, v.vs, 0) == RequiredSize(fs[0], v.vs[0]) + 29;
    assert RequiredSize(fs[0], v.vs[0]) == 2 + |d.name|;
    assert RequiredSize(DIRENT, v) == RequiredSizes(fs, v.vs, 0);
  }

  lemma DirentHasNoBlob()
    ensures NoBlob(Flatten(DIRENT))
  {
    var ts := TIMESPEC.fields;
    assert FlattenFields(ts, 2) == [];
    assert FlattenFields(ts, 1) == [Num(8, true)];
    assert Flatten(TIMESPEC) == [Num(8, true), Num(8, true)];
    var fs := DIRENT.fields;
    assert FlattenFields(fs, 5) == [];
    assert FlattenFields(fs, 4) == [Num(1, false)];
    assert FlattenFields(fs, 3) == [Num(4, false), Num(1, false)];
    assert FlattenFields(fs, 2) == [Num(8, true), Num(8, true), Num(4, false), Num(1, false)];
    assert FlattenFields(fs, 1) == [Num(8, false), Num(8, true), Num(8, true), Num(4, false), Num(1, false)];
    assert Flatten(fs[0]) == [Str];
    assert FlattenFields(fs, 0) == [Str] + FlattenFields(fs, 1);
    assert Flatten(DIRENT) == FlattenFields(fs, 0);
  }

  lemma DirentRoundTrip(d: Dirent, rest: seq<byte>)
    requires |d.name| <= MAX_STRING
    ensures ReadDirent(DirentBytes(d) + rest) == Some((d, rest))
  {
    DirentEncodes(d);
    DirentHasNoBlob();
    RoundTripWithRest(DIRENT, ToValue(d), rest);
    FromToValue(d);
  }

  /** The records of a ReadDirPlus response. */
  datatype Rec = Continue(d: Dirent) | Prefetch | Skip

  /** A record that fits a message of its own: header and indicator included. */
  predicate Fits(r: Rec) {
    r.Continue? ==> 3 + DirentSize(r.d) <= MAX_MSG
  }

  predicate AllFit(rs: seq<Rec>) {
    forall i :: 0 <= i < |rs| ==> Fits(rs[i])
  }

  function RecBytes(r: Rec): seq<byte> {
    match r
    case Continue(d) => [CONTINUE] + DirentBytes(d)
    case Prefetch => [PREFETCH]
    case Skip => [PREFETCH_SKIP]
  }

  function RecByteList(rs: seq<Rec>): (bs: seq<seq<byte>>)
    ensures |bs| == |rs| && forall i :: 0 <= i < |rs| ==> bs[i] == RecBytes(rs[i])
  {
    seq(|rs|, i requires 0 <= i < |rs| => RecBytes(rs[i]))
  }

  function RecsBytes(rs: seq<Rec>): seq<byte> { Concat(RecByteList(rs)) }

  lemma RecsBytesAppend(xs: seq<Rec>, ys: seq<Rec>)
    ensures RecsBytes(xs + ys) == RecsBytes(xs) + RecsBytes(ys)
  {
    assert RecByteList(xs + ys) == RecByteList(xs) + RecByteList(ys);
    ConcatAppend(RecByteList(xs), RecByteList(ys));
  }

  lemma RecsBytesOne(r: Rec)
    ensures RecsBytes([r]) == RecBytes(r)
  {
    assert RecByteList([r]) == [RecBytes(r)];
    ConcatOne(RecBytes(r));
  }

  lemma RecsBytesHead(rs: seq<Rec>)
    requires rs != []
    ensures RecsBytes(rs) == RecBytes(rs[0]) + RecsBytes(rs[1..])
  {
    assert RecByteList(rs)[1..] == RecByteList(rs[1..]);
  }

  function Conts(ds: seq<Dirent>): (rs: seq<Rec>)
    ensures |rs| == |ds| && forall i :: 0 <= i < |ds| ==> rs[i] == Continue(ds[i])
  {
    seq(|ds|, i requires 0 <= i < |ds| => Continue(ds[i]))
  }

  /** A response message: mark, code, records. */
  function Message(mark: byte, code: byte, rs: seq<Rec>): seq<byte> {
    [mark, code] + RecsBytes(rs)
  }
}
