/**
 The wire codec: what a struct means as bytes, independently of any generated code.

 `Encode` and `Decode` are the reference semantics. A value of a struct is the
 concatenation of its fields: integers little-endian, strings behind a two-byte
 length, `[]byte` raw and read up to the end of the message.
 */
module Codec {
  import opened Bytes

  type Width = w: nat | w == 1 || w == 2 || w == 4 || w == 8 witness 1

  /** A field type, with struct names already replaced by their fields. */
  datatype Type = Num(width: Width, signed: bool) | Str | Blob | Struct(fields: seq<Type>)

  datatype Value = NumV(n: int) | BytesV(b: seq<byte>) | StructV(vs: seq<Value>)

  /** What a writer received; `ok` is false when the encoder returned an error. */
  datatype Out = Out(bytes: seq<byte>, ok: bool) | Panic

  const MAX_STRING := 0xffff

  predicate InRange(n: int, width: Width, signed: bool) {
    if signed then -(Pow256(width) / 2) <= n < Pow256(width) / 2 else 0 <= n < Pow256(width)
  }

  predicate HasType(t: Type, v: Value) {
    match t
    case Num(w, s) => v.NumV? && InRange(v.n, w, s)
    case Str => v.BytesV?
    case Blob => v.BytesV?
    case Struct(fs) => v.StructV? && |v.vs| == |fs| && forall i :: 0 <= i < |fs| ==> HasType(fs[i], v.vs[i])
  }

  predicate HaveTypes(fs: seq<Type>, vs: seq<Value>) {
    |vs| == |fs| && forall i :: 0 <= i < |fs| ==> HasType(fs[i], vs[i])
  }

  /** Two's complement: the conversions `uintN(x)` and `intN(u)` of the generated code. */
  function NumBytes(n: int, width: Width, signed: bool): (bs: seq<byte>)
    requires InRange(n, width, signed)
    ensures |bs| == width
  {
    ToLE(if n < 0 then n + Pow256(width) else n, width)
  }

  function BytesNum(bs: seq<byte>, signed: bool): int {
    var u := FromLE(bs);
    if signed && u >= Pow256(|bs|) / 2 then u - Pow256(|bs|) else u
  }

  lemma Pow256Even(width: nat)
    requires width > 0
    ensures Pow256(width) % 2 == 0
  {
    assert Pow256(width) == 2 * (128 * Pow256(width - 1));
  }

  lemma NumRoundTrip(n: int, width: Width, signed: bool)
    requires InRange(n, width, signed)
    ensures BytesNum(NumBytes(n, width, signed), signed) == n
  {
    Pow256Even(width);
    FromToLE(if n < 0 then n + Pow256(width) else n, width);
  }

  lemma NumCanonical(bs: seq<byte>, width: Width, signed: bool)
    requires |bs| == width
    ensures InRange(BytesNum(bs, signed), width, signed)
    ensures NumBytes(BytesNum(bs, signed), width, signed) == bs
  {
    Pow256Even(width);
    ToFromLE(bs);
  }

  function EncodeStr(s: seq<byte>): Out {
    if |s| > MAX_STRING then Out([], false) else Out(ToLE(|s|, 2) + s, true)
  }

  function DecodeStr(input: seq<byte>): Option<(seq<byte>, seq<byte>)> {
    if |input| < 2 then None
    else
      var size := FromLE(input[..2]);
      if |input| < 2 + size then None else Some((input[2..2 + size], input[2 + size..]))
  }

  function Encode(t: Type, v: Value): (o: Out)
    requires HasType(t, v)
    ensures o.Out?
    decreases t, 0
  {
    match t
    case Num(w, s) => Out(NumBytes(v.n, w, s), true)
    case Str => EncodeStr(v.b)
    case Blob => Out(v.b, true)
    case Struct(fs) => EncodeFields(fs, v.vs, 0)
  }

  /** The encoding of the fields from index `i` on; an error keeps what came before it. */
  function EncodeFields(fs: seq<Type>, vs: seq<Value>, i: nat): (o: Out)
    requires HaveTypes(fs, vs) && i <= |fs|
    ensures o.Out?
    decreases fs, |fs| - i
  {
    if i == |fs| then Out([], true)
    else
      var first := Encode(fs[i], vs[i]);
      if !first.ok then first
      else
        var rest := EncodeFields(fs, vs, i + 1);
        Out(first.bytes + rest.bytes, rest.ok)
  }

  /** The decoded value and the input left over, or None when the input is too short. */
  function Decode(t: Type, input: seq<byte>): Option<(Value, seq<byte>)>
    decreases t, 0
  {
    match t
    case Num(w, s) =>
      if |input| < w then None else Some((NumV(BytesNum(input[..w], s)), input[w..]))
    case Str =>
      (match DecodeStr(input)
       case None => None
       case Some((s, rest)) => Some((BytesV(s), rest)))
    case Blob => Some((BytesV(input), []))
    case Struct(fs) =>
      match DecodeFields(fs, 0, input)
      case None => None
      case Some((vs, rest)) => Some((StructV(vs), rest))
  }

  function DecodeFields(fs: seq<Type>, i: nat, input: seq<byte>): (r: Option<(seq<Value>, seq<byte>)>)
    requires i <= |fs|
    ensures r.Some? ==> |r.value.0| == |fs| - i
    decreases fs, |fs| - i
  {
    if i == |fs| then Some(([], input))
    else
      match Decode(fs[i], input)
      case None => None
      case Some((v, rest)) =>
        match DecodeFields(fs, i + 1, rest)
        case None => None
        case Some((vs, rest')) => Some(([v] + vs, rest'))
  }

  /** The number of bytes the generated `Get…RequiredSize` reports. */
  function RequiredSize(t: Type, v: Value): (n: nat)
    requires HasType(t, v)
    decreases t, 0
  {
    match t
    case Num(w, _) => w
    case Str => 2 + |v.b|
    case Blob => |v.b|
    case Struct(fs) => RequiredSizes(fs, v.vs, 0)
  }

  function RequiredSizes(fs: seq<Type>, vs: seq<Value>, i: nat): (n: nat)
    requires HaveTypes(fs, vs) && i <= |fs|
    decreases fs, |fs| - i
  {
    if i == |fs| then 0 else RequiredSize(fs[i], vs[i]) + RequiredSizes(fs, vs, i + 1)
  }

  /** RequiredSize is exact whenever the encoder succeeds. */
  lemma {:induction false} RequiredSizeIsLength(t: Type, v: Value)
    requires HasType(t, v)
    ensures Encode(t, v).ok ==> |Encode(t, v).bytes| == RequiredSize(t, v)
    decreases t, 0
  {
    if t.Struct? {
      RequiredSizesAreLength(t.fields, v.vs, 0);
    }
  }

  lemma {:induction false} RequiredSizesAreLength(fs: seq<Type>, vs: seq<Value>, i: nat)
    requires HaveTypes(fs, vs) && i <= |fs|
    ensures EncodeFields(fs, vs, i).ok ==> |EncodeFields(fs, vs, i).bytes| == RequiredSizes(fs, vs, i)
    decreases fs, |fs| - i
  {
    if i < |fs| {
      RequiredSizeIsLength(fs[i], vs[i]);
      RequiredSizesAreLength(fs, vs, i + 1);
    }
  }

  predicate StringsFit(t: Type, v: Value)
    requires HasType(t, v)
  {
    match t
    case Str => |v.b| <= MAX_STRING
    case Struct(fs) => forall i :: 0 <= i < |fs| ==> StringsFit(fs[i], v.vs[i])
    case _ => true
  }

  /** Encoding fails exactly when some string, at any depth, is too long for its length prefix. */
  lemma {:induction false} EncodeOkIff(t: Type, v: Value)
    requires HasType(t, v)
    ensures Encode(t, v).ok <==> StringsFit(t, v)
    decreases t, 0
  {
    if t.Struct? { EncodeFieldsOkIff(t.fields, v.vs, 0); }
  }

  lemma {:induction false} EncodeFieldsOkIff(fs: seq<Type>, vs: seq<Value>, i: nat)
    requires HaveTypes(fs, vs) && i <= |fs|
    ensures EncodeFields(fs, vs, i).ok <==> forall k :: i <= k < |fs| ==> StringsFit(fs[k], vs[k])
    decreases fs, |fs| - i
  {
    if i < |fs| {
      EncodeOkIff(fs[i], vs[i]);
      EncodeFieldsOkIff(fs, vs, i + 1);
    }
  }

  // ---- Decoding is canonical: what was decoded re-encodes to exactly the bytes consumed ----

  lemma {:induction false} DecodeIsCanonical(t: Type, input: seq<byte>)
    ensures match Decode(t, input)
            case None => true
            case Some((v, rest)) => HasType(t, v) && Encode(t, v).ok && Encode(t, v).bytes + rest == input
    decreases t, 0
  {
    match t
    case Num(w, s) =>
      if |input| >= w { NumCanonical(input[..w], w, s); }
    case Str =>
      if DecodeStr(input).Some? { ToFromLE(input[..2]); }
    case Blob =>
    case Struct(fs) =>
      DecodeFieldsIsCanonical(fs, [], input);
      if DecodeFields(fs, 0, input).Some? {
        var vs := DecodeFields(fs, 0, input).value.0;
        assert [] + vs == vs;
      }
  }

  /** The same for the fields that follow the already decoded `pre`. */
  lemma {:induction false} DecodeFieldsIsCanonical(fs: seq<Type>, pre: seq<Value>, input: seq<byte>)
    requires |pre| <= |fs| && HaveTypes(fs[..|pre|], pre)
    ensures match DecodeFields(fs, |pre|, input)
            case None => true
            case Some((vs, rest)) =>
              && HaveTypes(fs, pre + vs)
              && EncodeFields(fs, pre + vs, |pre|).ok
              && EncodeFields(fs, pre + vs, |pre|).bytes + rest == input
    decreases fs, |fs| - |pre|
  {
    var i := |pre|;
    if i == |fs| {
      assert fs[..i] == fs && pre + [] == pre;
    } else if DecodeFields(fs, i, input).Some? {
      var (v, rest1) := Decode(fs[i], input).value;
      var (vs1, rest) := DecodeFields(fs, i + 1, rest1).value;
      DecodeIsCanonical(fs[i], input);
      ExtendTypes(fs, pre, v);
      DecodeFieldsIsCanonical(fs, pre + [v], rest1);
      var all := pre + [v] + vs1;
      assert all == pre + ([v] + vs1);
      FieldCanonical(fs, all, i, v, input, rest1, rest);
    }
  }

  lemma FieldCanonical(fs: seq<Type>, all: seq<Value>, i: nat, v: Value, input: seq<byte>, rest1: seq<byte>, rest: seq<byte>)
    requires HaveTypes(fs, all) && i < |fs| && all[i] == v
    requires Encode(fs[i], v).ok && Encode(fs[i], v).bytes + rest1 == input
    requires EncodeFields(fs, all, i + 1).ok && EncodeFields(fs, all, i + 1).bytes + rest == rest1
    ensures EncodeFields(fs, all, i).ok && EncodeFields(fs, all, i).bytes + rest == input
  {
    var first, tail := Encode(fs[i], v).bytes, EncodeFields(fs, all, i + 1).bytes;
    assert EncodeFields(fs, all, i) == Out(first + tail, true);
    assert first + tail + rest == first + (tail + rest);
  }

  lemma ExtendTypes(fs: seq<Type>, pre: seq<Value>, v: Value)
    requires |pre| < |fs| && HaveTypes(fs[..|pre|], pre) && HasType(fs[|pre|], v)
    ensures HaveTypes(fs[..|pre| + 1], pre + [v])
  {
    assert fs[..|pre| + 1] == fs[..|pre|] + [fs[|pre|]];
  }

  // ---- Round trips ----

  /** The scalar fields of a type, nested structs opened up, in wire order. */
  function Flatten(t: Type): seq<Type>
    decreases t, 0
  {
    if t.Struct? then FlattenFields(t.fields, 0) else [t]
  }

  function FlattenFields(fs: seq<Type>, i: nat): seq<Type>
    requires i <= |fs|
    decreases fs, |fs| - i
  {
    if i == |fs| then [] else Flatten(fs[i]) + FlattenFields(fs, i + 1)
  }

  /** After flattening, `[]byte` occurs at most once and then last. */
  predicate BlobOnlyLast(leaves: seq<Type>) {
    forall i :: 0 <= i < |leaves| - 1 ==> leaves[i] != Blob
  }

  predicate NoBlob(leaves: seq<Type>) {
    forall i :: 0 <= i < |leaves| ==> leaves[i] != Blob
  }

  lemma {:induction false} RoundTripWithRest(t: Type, v: Value, rest: seq<byte>)
    requires HasType(t, v) && Encode(t, v).ok && NoBlob(Flatten(t))
    ensures Decode(t, Encode(t, v).bytes + rest) == Some((v, rest))
    decreases t, 0
  {
    var e := Encode(t, v).bytes;
    match t
    case Num(w, s) =>
      NumRoundTrip(v.n, w, s);
      assert (e + rest)[..w] == e && (e + rest)[w..] == rest;
    case Str =>
      FromToLE(|v.b|, 2);
      assert (e + rest)[..2] == ToLE(|v.b|, 2);
      assert (e + rest)[2..2 + |v.b|] == v.b && (e + rest)[2 + |v.b|..] == rest;
    case Blob => BlobLeaf(); assert false;
    case Struct(fs) =>
      RoundTripFieldsWithRest(fs, v.vs, 0, rest);
      assert v.vs[0..] == v.vs;
  }

  lemma {:induction false} RoundTripFieldsWithRest(fs: seq<Type>, vs: seq<Value>, i: nat, rest: seq<byte>)
    requires HaveTypes(fs, vs) && i <= |fs| && EncodeFields(fs, vs, i).ok && NoBlob(FlattenFields(fs, i))
    ensures DecodeFields(fs, i, EncodeFields(fs, vs, i).bytes + rest) == Some((vs[i..], rest))
    decreases fs, |fs| - i
  {
    if i < |fs| {
      var first, tail := Encode(fs[i], vs[i]).bytes, EncodeFields(fs, vs, i + 1).bytes;
      assert first + tail + rest == first + (tail + rest);
      NoBlobSplit(Flatten(fs[i]), FlattenFields(fs, i + 1));
      RoundTripWithRest(fs[i], vs[i], tail + rest);
      RoundTripFieldsWithRest(fs, vs, i + 1, rest);
      assert [vs[i]] + vs[i + 1..] == vs[i..];
    } else {
      assert [] + rest == rest;
    }
  }

  lemma BlobLeaf()
    ensures !NoBlob(Flatten(Blob))
  {
    assert Flatten(Blob)[0] == Blob;
  }

  lemma BlobThenNothing(xs: seq<Type>, ys: seq<Type>)
    requires BlobOnlyLast(xs + ys) && !NoBlob(xs)
    ensures ys == []
  {
    var k :| 0 <= k < |xs| && xs[k] == Blob;
    assert (xs + ys)[k] == Blob;
    assert k >= |xs + ys| - 1;
  }

  lemma NoBlobSplit(xs: seq<Type>, ys: seq<Type>)
    requires NoBlob(xs + ys)
    ensures NoBlob(xs) && NoBlob(ys)
  {
    forall i | 0 <= i < |xs| ensures xs[i] != Blob { assert (xs + ys)[i] == xs[i]; }
    forall i | 0 <= i < |ys| ensures ys[i] != Blob { assert (xs + ys)[|xs| + i] == ys[i]; }
  }

  /** A blob swallows the rest of the message, so nothing is left after a type that has one. */
  lemma {:induction false} BlobTakesRest(t: Type, input: seq<byte>)
    requires !NoBlob(Flatten(t)) && Decode(t, input).Some?
    ensures Decode(t, input).value.1 == []
    decreases t, 0
  {
    if t.Struct? {
      BlobTakesRestFields(t.fields, 0, input);
    }
  }

  lemma {:induction false} BlobTakesRestFields(fs: seq<Type>, i: nat, input: seq<byte>)
    requires i <= |fs| && DecodeFields(fs, i, input).Some?
    requires !NoBlob(FlattenFields(fs, i)) || input == []
    ensures DecodeFields(fs, i, input).value.1 == []
    decreases fs, |fs| - i
  {
    if i < |fs| {
      var rest := Decode(fs[i], input).value.1;
      if !NoBlob(Flatten(fs[i])) {
        BlobTakesRest(fs[i], input);
      } else if input == [] {
        DecodeIsCanonical(fs[i], input);
      }
      BlobTakesRestFields(fs, i + 1, rest);
    }
  }

  lemma {:induction false} RoundTripBlobLast(t: Type, v: Value)
    requires HasType(t, v) && Encode(t, v).ok && BlobOnlyLast(Flatten(t))
    ensures Decode(t, Encode(t, v).bytes) == Some((v, []))
    decreases t, 0
  {
    if t.Struct? {
      RoundTripFieldsBlobLast(t.fields, v.vs, 0);
      assert v.vs[0..] == v.vs;
    } else if t.Blob? {
    } else {
      RoundTripWithRest(t, v, []);
      assert Encode(t, v).bytes + [] == Encode(t, v).bytes;
    }
  }

  lemma {:induction false} RoundTripFieldsBlobLast(fs: seq<Type>, vs: seq<Value>, i: nat)
    requires HaveTypes(fs, vs) && i <= |fs| && EncodeFields(fs, vs, i).ok
    requires BlobOnlyLast(FlattenFields(fs, i))
    ensures DecodeFields(fs, i, EncodeFields(fs, vs, i).bytes) == Some((vs[i..], []))
    decreases fs, |fs| - i
  {
    if i < |fs| {
      var xs, ys := Flatten(fs[i]), FlattenFields(fs, i + 1);
      var first, tail := Encode(fs[i], vs[i]).bytes, EncodeFields(fs, vs, i + 1).bytes;
      forall k | 0 <= k < |ys| - 1 ensures ys[k] != Blob { assert (xs + ys)[|xs| + k] == ys[k]; }
      forall k | 0 <= k < |xs| - 1 ensures xs[k] != Blob { assert (xs + ys)[k] == xs[k]; }
      if NoBlob(xs) {
        RoundTripWithRest(fs[i], vs[i], tail);
      } else {
        BlobThenNothing(xs, ys);
        NoLeavesNoBytes(fs, vs, i + 1);
        assert first + tail == first;
        RoundTripBlobLast(fs[i], vs[i]);
      }
      RoundTripFieldsBlobLast(fs, vs, i + 1);
      assert [vs[i]] + vs[i + 1..] == vs[i..];
    }
  }

  lemma {:induction false} NoLeavesNoBytes(fs: seq<Type>, vs: seq<Value>, i: nat)
    requires HaveTypes(fs, vs) && i <= |fs| && FlattenFields(fs, i) == []
    ensures EncodeFields(fs, vs, i) == Out([], true)
    decreases fs, |fs| - i
  {
    if i < |fs| {
      assert Flatten(fs[i]) == [] && FlattenFields(fs, i + 1) == [];
      if fs[i].Struct? { NoLeavesNoBytes(fs[i].fields, vs[i].vs, 0); }
      NoLeavesNoBytes(fs, vs, i + 1);
    }
  }

  /** A value whose every scalar takes at least one byte, for showing where round trips fail. */
  function Witness(t: Type): (v: Value)
    ensures HasType(t, v)
  {
    match t
    case Num(w, s) => Pow256AtLeastTwo(w); NumV(0)
    case Str => BytesV([])
    case Blob => BytesV([0])
    case Struct(fs) => StructV(seq(|fs|, i requires 0 <= i < |fs| => Witness(fs[i])))
  }

  lemma Pow256AtLeastTwo(w: Width)
    ensures Pow256(w) / 2 > 0
  {
    Pow256Even(w);
  }

  lemma {:induction false} WitnessEncodes(t: Type)
    ensures Encode(t, Witness(t)).ok
    ensures Encode(t, Witness(t)).bytes == [] <==> Flatten(t) == []
    decreases t, 0
  {
    if t.Struct? { WitnessFieldsEncode(t.fields, 0); }
  }

  lemma {:induction false} WitnessFieldsEncode(fs: seq<Type>, i: nat)
    requires i <= |fs|
    ensures EncodeFields(fs, Witness(Struct(fs)).vs, i).ok
    ensures EncodeFields(fs, Witness(Struct(fs)).vs, i).bytes == [] <==> FlattenFields(fs, i) == []
    decreases fs, |fs| - i
  {
    if i < |fs| {
      WitnessEncodes(fs[i]);
      WitnessFieldsEncode(fs, i + 1);
    }
  }

  /** When a blob is not last, the decoder cannot give the witness back. */
  lemma {:induction false} BlobNotLastFails(t: Type)
    requires !BlobOnlyLast(Flatten(t))
    ensures Decode(t, Encode(t, Witness(t)).bytes) != Some((Witness(t), []))
    decreases t, 0
  {
    if t.Struct? {
      BlobNotLastFailsFields(t.fields, 0);
      assert Witness(t).vs[0..] == Witness(t).vs;
    }
  }

  lemma {:induction false} BlobNotLastFailsFields(fs: seq<Type>, i: nat)
    requires i <= |fs| && !BlobOnlyLast(FlattenFields(fs, i))
    ensures var ws := Witness(Struct(fs)).vs;
            DecodeFields(fs, i, EncodeFields(fs, ws, i).bytes) != Some((ws[i..], []))
    decreases fs, |fs| - i
  {
    if i < |fs| {
      var ws := Witness(Struct(fs)).vs;
      var xs, ys := Flatten(fs[i]), FlattenFields(fs, i + 1);
      WitnessEncodes(fs[i]);
      WitnessFieldsEncode(fs, i);
      WitnessFieldsEncode(fs, i + 1);
      var first, tail := Encode(fs[i], ws[i]).bytes, EncodeFields(fs, ws, i + 1).bytes;
      assert ws[i..][0] == ws[i] && ws[i..][1..] == ws[i + 1..];
      if NoBlob(xs) {
        assert !BlobOnlyLast(ys) by {
          var k :| 0 <= k < |xs + ys| - 1 && (xs + ys)[k] == Blob;
          assert k >= |xs| && ys[k - |xs|] == Blob;
        }
        RoundTripWithRest(fs[i], ws[i], tail);
        BlobNotLastFailsFields(fs, i + 1);
      } else if DecodeFields(fs, i, first + tail) == Some((ws[i..], [])) {
        var (v, rest) := Decode(fs[i], first + tail).value;
        BlobTakesRest(fs[i], first + tail);
        DecodeIsCanonical(fs[i], first + tail);
        assert v == ws[i];
        assert first + [] == first;
        assert |first| == |first + tail|;
        assert tail == [] && ys == [] && first + tail == first && xs + ys == xs;
        BlobNotLastFails(fs[i]);
        assert false;
      }
    }
  }

  /**
   A type round-trips on every encodable value exactly when `[]byte` occurs at
   most once, as the last scalar after flattening. The generator itself checks
   only the fields of one struct, not those of nested structs.
   */
  lemma RoundTripIff(t: Type)
    ensures (forall v | HasType(t, v) && Encode(t, v).ok :: Decode(t, Encode(t, v).bytes) == Some((v, [])))
       <==> BlobOnlyLast(Flatten(t))
  {
    if BlobOnlyLast(Flatten(t)) {
      forall v | HasType(t, v) && Encode(t, v).ok ensures Decode(t, Encode(t, v).bytes) == Some((v, [])) {
        RoundTripBlobLast(t, v);
      }
    } else {
      WitnessEncodes(t);
      BlobNotLastFails(t);
    }
  }
}
