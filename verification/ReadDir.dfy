/**
 The plain directory listing: the server packs entries into messages without
 indicators, the client strings them together again. Also the comparison with the
 root listing that ReadDirPlus hands out.
 */
module ReadDir {
  import opened Bytes
  import opened Protocol
  import opened Codec
  import opened Buffers
  import opened Dirents
  import opened DirServer
  import DirParser
  import ReadDirPlus

  // ---- Entries as bytes ----

  function DirentsBytes(ds: seq<Dirent>): seq<byte> {
    if ds == [] then [] else DirentBytes(ds[0]) + DirentsBytes(ds[1..])
  }

  function ListMessage(mark: byte, code: byte, ds: seq<Dirent>): seq<byte> { [mark, code] + DirentsBytes(ds) }

  predicate AllShort(ds: seq<Dirent>) { forall i :: 0 <= i < |ds| ==> 2 + DirentSize(ds[i]) <= MAX_MSG }

  lemma ReadShrinks(input: seq<byte>)
    ensures ReadDirent(input).Some? ==> |ReadDirent(input).value.1| < |input|
  {
    DecodeIsCanonical(DIRENT, input);
    match Decode(DIRENT, input) {
      case None =>
      case Some((v, rest)) =>
        RequiredSizeIsLength(DIRENT, v);
        FromToBack(v);
        DirentRequiredSize(FromValue(v));
    }
  }

  lemma FromToBack(v: Value)
    requires HasType(DIRENT, v)
    ensures ToValue(FromValue(v)) == v
  {
    assert HasType(DIRENT.fields[0], v.vs[0]) && HasType(DIRENT.fields[1], v.vs[1]) && HasType(TIMESPEC, v.vs[2]);
    assert HasType(DIRENT.fields[3], v.vs[3]) && HasType(DIRENT.fields[4], v.vs[4]);
    assert HasType(TIMESPEC.fields[0], v.vs[2].vs[0]) && HasType(TIMESPEC.fields[1], v.vs[2].vs[1]);
    var ts := v.vs[2];
    assert ts.vs == [ts.vs[0], ts.vs[1]];
    assert v.vs == [v.vs[0], v.vs[1], v.vs[2], v.vs[3], v.vs[4]];
  }

  /** appendDirItemsFromReader: the entries up to the end or the first bad one. */
  function ParseDirents(body: seq<byte>): (r: Option<seq<Dirent>>)
    decreases |body|
  {
    if body == [] then Some([])
    else
      match ReadDirent(body)
      case None => None
      case Some((d, rest)) =>
        ReadShrinks(body);
        match ParseDirents(rest)
        case None => None
        case Some(ds) => Some([d] + ds)
  }

  lemma {:induction false} DirentsBytesSnoc(ds: seq<Dirent>, d: Dirent)
    ensures DirentsBytes(ds + [d]) == DirentsBytes(ds) + DirentBytes(d)
  {
    if ds == [] {
      assert [] + [d] == [d] && [d][1..] == [];
      assert DirentBytes(d) + [] == DirentBytes(d);
    } else {
      DirentsBytesSnoc(ds[1..], d);
      assert (ds + [d])[1..] == ds[1..] + [d];
      var a, b, c := DirentBytes(ds[0]), DirentsBytes(ds[1..]), DirentBytes(d);
      assert a + (b + c) == a + b + c;
    }
  }

  lemma ParseOne(d: Dirent, rest: seq<byte>, ds: seq<Dirent>)
    requires 2 + DirentSize(d) <= MAX_MSG && ParseDirents(rest) == Some(ds)
    ensures ParseDirents(DirentBytes(d) + rest) == Some([d] + ds)
  {
    DirentEncodes(d);
    DirentRoundTrip(d, rest);
  }

  /** Reading the entries back. */
  lemma {:induction false} ParseBack(ds: seq<Dirent>)
    requires AllShort(ds)
    ensures ParseDirents(DirentsBytes(ds)) == Some(ds)
  {
    if ds != [] {
      ParseBack(ds[1..]);
      ParseOne(ds[0], DirentsBytes(ds[1..]), ds[1..]);
      assert [ds[0]] + ds[1..] == ds;
    }
  }

  // ---- The server ----

  function ListPartials(mark: byte, frames: seq<seq<Dirent>>): (ms: seq<seq<byte>>)
    ensures |ms| == |frames| && forall i :: 0 <= i < |frames| ==> ms[i] == ListMessage(mark, PARTIAL, frames[i])
  {
    seq(|frames|, i requires 0 <= i < |frames| => ListMessage(mark, PARTIAL, frames[i]))
  }

  /** How a listing travels; a failing read drops what is still in the buffer. */
  ghost predicate CarriesList(wire: seq<seq<byte>>, mark: byte, results: seq<Read<Dirent>>, frames: seq<seq<Dirent>>, last: seq<Dirent>) {
    && |wire| == |frames| + 1 && wire[..|frames|] == ListPartials(mark, frames) && ShortMessages(wire)
    && AllShort(Concat(frames)) && AllShort(last)
    && match FirstError(results)
       case None => wire[|frames|] == ListMessage(mark, OK, last) && Concat(frames) + last == Entries(results)
       case Some(code) => wire[|frames|][1] == code && Concat(frames) <= Entries(results)
  }

  /** The listing is over at the end, at an error, and at a batch without entries. */
  function Heard(results: seq<Read<Dirent>>): seq<Read<Dirent>> {
    if results == [] || (results[0].Batch? && results[0].entries == []) then [] else [results[0]] + Heard(results[1..])
  }

  /** A file system that never returns an empty batch is heard to the end. */
  lemma {:induction false} ConformingIsHeard(results: seq<Read<Dirent>>)
    requires Conforming(results)
    ensures Heard(results) == results
  {
    if results != [] {
      assert Conforming(results[1..]);
      ConformingIsHeard(results[1..]);
    }
  }

  /** The first `k` reads gave entries and were heard. */
  ghost predicate HeardSoFar(results: seq<Read<Dirent>>, k: nat) {
    && k <= |results| && (forall i :: 0 <= i < k ==> results[i].Batch?)
    && Heard(results) == results[..k] + Heard(results[k..])
  }

  lemma HeardFromStart(results: seq<Read<Dirent>>)
    ensures HeardSoFar(results, 0) && Entries(results[..0]) == []
  {
    assert results[0..] == results && results[..0] == [];
  }

  /** Where the listing ends. */
  lemma HeardUpTo(results: seq<Read<Dirent>>, k: nat)
    requires HeardSoFar(results, k)
    ensures k == |results| || (results[k].Batch? && results[k].entries == []) ==>
      Entries(Heard(results)) == Entries(results[..k]) && FirstError(Heard(results)).None?
    ensures k < |results| && results[k].ReadErr? ==>
      Entries(Heard(results)) == Entries(results[..k]) && FirstError(Heard(results)) == Some(results[k].code)
  {
    var heard := Heard(results);
    assert forall i :: 0 <= i < k ==> heard[i] == results[i];
    EntriesAt(heard, k);
    assert heard[..k] == results[..k] && heard[k..] == Heard(results[k..]);
  }

  /** And how it goes on. */
  lemma HeardNext(results: seq<Read<Dirent>>, k: nat)
    requires HeardSoFar(results, k) && k < |results| && results[k].Batch? && results[k].entries != []
    ensures HeardSoFar(results, k + 1)
  {
    var tail, rest := results[k..], Heard(results[k + 1..]);
    assert tail[0] == results[k] && tail[1..] == results[k + 1..];
    assert Heard(tail) == [results[k]] + rest;
    Reassociate(results[..k], [results[k]], rest);
    assert results[..k] + [results[k]] == results[..k + 1];
  }

  lemma HeardBatch(results: seq<Read<Dirent>>, k: nat)
    requires HeardSoFar(results, k + 1) && k < |results| && AllShort(Entries(Heard(results)))
    ensures AllShort(results[k].entries) && Entries(results[..k + 1]) == Entries(results[..k]) + results[k].entries
  {
    var heard := Heard(results);
    assert forall i :: 0 <= i <= k ==> heard[i] == results[..k + 1][i] == results[i];
    EntriesSnoc(results, k);
    BatchShort(heard, k);
  }

  class Lister {
    const mark: byte
    const rsp: Buffer
    var wire: seq<seq<byte>>
    ghost var frames: seq<seq<Dirent>>
    ghost var held: seq<Dirent>

    /** Everything on the wire so far is partial messages that carry `frames`. */
    ghost predicate Sent()
      reads this, rsp
    {
      && rsp.Valid() && rsp.data.Length == MAX_MSG
      && wire == ListPartials(mark, frames) && ShortMessages(wire) && AllShort(Concat(frames))
    }

    ghost predicate Filling()
      reads this, rsp, rsp.data
    {
      Sent() && AllShort(held) && rsp.Contents() == ListMessage(mark, PARTIAL, held)
    }

    ghost function Emitted(): seq<Dirent>
      reads this
    {
      Concat(frames) + held
    }

    constructor (mark: byte)
      ensures Filling() && Emitted() == [] && this.mark == mark && fresh(rsp) && fresh(rsp.data)
    {
      this.mark := mark;
      rsp := new Buffer(MAX_MSG);
      wire, frames, held := [], [], [];
      new;
      var _, _ := rsp.Write([mark, PARTIAL]);
      assert ListMessage(mark, PARTIAL, []) == [mark, PARTIAL];
    }

    method SendHeld()
      requires Filling()
      modifies this`wire, this`frames, this`held, rsp`written
      ensures Sent() && Emitted() == old(Emitted()) && held == [] && rsp.Contents() == []
    {
      var d := rsp.Done();
      wire := wire + [d];
      ConcatAppend(frames, [held]);
      ConcatOne(held);
      frames := frames + [held];
      held := [];
      assert Concat(frames) + [] == Concat(frames);
    }

    method Begin()
      requires Sent() && held == [] && rsp.Contents() == []
      modifies rsp`written, rsp.data
      ensures Filling()
    {
      var _, _ := rsp.Write([mark, PARTIAL]);
      assert ListMessage(mark, PARTIAL, []) == [mark, PARTIAL];
    }

    method Put(d: Dirent)
      requires Filling() && 2 + DirentSize(d) <= MAX_MSG && rsp.written + |DirentBytes(d)| <= MAX_MSG
      modifies this`held, rsp`written, rsp.data
      ensures Filling() && held == old(held) + [d]
    {
      DirentsBytesSnoc(held, d);
      Reassociate([mark, PARTIAL], DirentsBytes(held), DirentBytes(d));
      var n, _ := rsp.Write(DirentBytes(d));
      assert DirentBytes(d)[..n] == DirentBytes(d);
      held := held + [d];
    }

    method Append(d: Dirent)
      requires Filling() && 2 + DirentSize(d) <= MAX_MSG
      modifies this`wire, this`frames, this`held, rsp`written, rsp.data
      ensures Filling() && Emitted() == old(Emitted()) + [d]
    {
      DirentEncodes(d);
      if rsp.written + DirentSize(d) > MAX_MSG {
        SendHeld();
        Begin();
      }
      assert Concat(frames) + (held + [d]) == Concat(frames) + held + [d];
      Put(d);
    }

    method AppendAll(batch: seq<Dirent>)
      requires Filling() && AllShort(batch)
      modifies this`wire, this`frames, this`held, rsp`written, rsp.data
      ensures Filling() && Emitted() == old(Emitted()) + batch
    {
      for i := 0 to |batch|
        invariant Filling() && Emitted() == old(Emitted()) + batch[..i]
      {
        assert old(Emitted()) + batch[..i] + [batch[i]] == old(Emitted()) + batch[..i + 1];
        Append(batch[i]);
      }
      assert batch[..|batch|] == batch;
    }

    /** Every batch up to the end, an empty one or the first failing read; its code if there is one. */
    method ReadAll(results: seq<Read<Dirent>>) returns (err: Option<ErrCode>)
      requires Filling() && Emitted() == [] && AllShort(Entries(Heard(results)))
      modifies this`wire, this`frames, this`held, rsp`written, rsp.data
      ensures Filling() && err == FirstError(Heard(results)) && Emitted() == Entries(Heard(results))
    {
      var k := 0;
      HeardFromStart(results);
      while k < |results|
        invariant 0 <= k <= |results| && HeardSoFar(results, k)
        invariant Filling() && Emitted() == Entries(results[..k])
      {
        HeardUpTo(results, k);
        if results[k].ReadErr? {
          return Some(results[k].code);
        }
        if results[k].entries == [] {
          return None;
        }
        HeardNext(results, k);
        HeardBatch(results, k);
        AppendAll(results[k].entries);
        k := k + 1;
      }
      HeardUpTo(results, k);
      err := None;
    }

    method SendLast()
      requires Filling()
      modifies this`wire, rsp`written, rsp.data
      ensures wire == old(wire) + [ListMessage(mark, OK, held)] && ShortMessages(wire)
    {
      assert ListMessage(mark, OK, held) == ListMessage(mark, PARTIAL, held)[1 := OK];
      rsp.Patch(1, OK);
      var d := rsp.Done();
      wire := wire + [d];
    }

    method SendError(code: ErrCode)
      requires Filling()
      modifies this`wire
      ensures |wire| == |frames| + 1 && wire[..|frames|] == old(wire) && ShortMessages(wire) && wire[|frames|][1] == code
    {
      wire := wire + [ErrorMessage(mark, code, [])];
    }

    /** cmdReadDir on a directory that opened. */
    method Serve(results: seq<Read<Dirent>>)
      requires Filling() && Emitted() == [] && AllShort(Entries(Heard(results)))
      modifies this, rsp, rsp.data
      ensures CarriesList(wire, mark, Heard(results), frames, held)
    {
      var err := ReadAll(results);
      if err.Some? {
        SendError(err.value);
      } else {
        SendLast();
      }
    }
  }

  lemma ShortParts(xs: seq<Dirent>, ys: seq<Dirent>)
    requires AllShort(xs + ys)
    ensures AllShort(xs) && AllShort(ys)
  {
    assert forall i :: 0 <= i < |xs| ==> (xs + ys)[i] == xs[i];
    assert forall i :: 0 <= i < |ys| ==> (xs + ys)[|xs| + i] == ys[i];
  }

  lemma BatchShort(results: seq<Read<Dirent>>, k: nat)
    requires k < |results| && (forall i :: 0 <= i <= k ==> results[i].Batch?) && AllShort(Entries(results))
    ensures AllShort(results[k].entries)
  {
    EntriesAt(results, k);
    var tail := results[k..];
    ShortParts(Entries(results[..k]), Entries(tail));
    assert tail[0] == results[k];
    ShortParts(results[k].entries, Entries(tail[1..]));
  }

  // ---- The client ----

  /** CmdReadDir's loop over the responses: None while it still waits. */
  function Gather(list: seq<Dirent>, wire: seq<seq<byte>>): Option<(seq<Dirent>, byte)>
    requires ShortMessages(wire)
    decreases |wire|
  {
    if wire == [] then None
    else
      var msg := wire[0];
      if msg[1] != OK && msg[1] != PARTIAL then Some((list, msg[1]))
      else
        match ParseDirents(msg[2..])
        case None => Some(([], ERROR_IO))
        case Some(ds) => if msg[1] == PARTIAL then Gather(list + ds, wire[1..]) else Some((list + ds, OK))
  }

  method AppendDirItems(list: seq<Dirent>, body: seq<byte>) returns (list': seq<Dirent>, ok: bool)
    ensures ok <==> ParseDirents(body).Some?
    ensures ok ==> list' == list + ParseDirents(body).value
  {
    list' := list;
    var r := body;
    while r != []
      invariant ParseDirents(body).Some? <==> ParseDirents(r).Some?
      invariant ParseDirents(r).Some? ==> list' + ParseDirents(r).value == list + ParseDirents(body).value
      decreases |r|
    {
      ReadShrinks(r);
      match ReadDirent(r)
      case None => return list', false;
      case Some((d, rest)) =>
        if ParseDirents(rest).Some? {
          assert list' + ([d] + ParseDirents(rest).value) == list' + [d] + ParseDirents(rest).value;
        }
        list' := list' + [d];
        r := rest;
    }
    ok := true;
    assert list' + [] == list';
  }

  method CmdReadDir(wire: seq<seq<byte>>) returns (list: seq<Dirent>, code: byte)
    requires ShortMessages(wire) && Gather([], wire).Some?
    ensures Gather([], wire) == Some((list, code))
  {
    list := [];
    var k := 0;
    while true
      invariant 0 <= k <= |wire| && ShortMessages(wire[k..]) && Gather(list, wire[k..]) == Gather([], wire)
      decreases |wire| - k
    {
      var msg := wire[k];
      assert wire[k..][0] == msg && wire[k..][1..] == wire[k + 1..];
      code := msg[1];
      if code != OK && code != PARTIAL {
        return;
      }
      var ok;
      list, ok := AppendDirItems(list, msg[2..]);
      if !ok {
        return [], ERROR_IO;
      }
      if code != PARTIAL {
        return;
      }
      k := k + 1;
    }
  }

  /** However the entries were packed, the client gets them all, in order. */
  lemma {:induction false} GatherPartials(list: seq<Dirent>, mark: byte, frames: seq<seq<Dirent>>, t: seq<byte>)
    requires AllShort(Concat(frames)) && 2 <= |t| <= MAX_MSG && ShortMessages(ListPartials(mark, frames))
    ensures ShortMessages(ListPartials(mark, frames) + [t])
    ensures Gather(list, ListPartials(mark, frames) + [t]) == Gather(list + Concat(frames), [t])
    decreases |frames|
  {
    var wire := ListPartials(mark, frames) + [t];
    if frames == [] {
      assert wire == [t] && list + [] == list;
    } else {
      var f, rest := frames[0], Concat(frames[1..]);
      ShortParts(f, rest);
      ParseBack(f);
      assert wire[0] == ListMessage(mark, PARTIAL, f) && wire[0][2..] == DirentsBytes(f);
      assert wire[1..] == ListPartials(mark, frames[1..]) + [t];
      assert forall i :: 0 <= i < |frames| - 1 ==> ListPartials(mark, frames[1..])[i] == ListPartials(mark, frames)[i + 1];
      GatherPartials(list + f, mark, frames[1..], t);
      assert list + f + rest == list + (f + rest);
    }
  }

  /** What the caller of CmdReadDir gets: every entry in order, or the server's error with what came before it. */
  lemma ListEndToEnd(wire: seq<seq<byte>>, mark: byte, results: seq<Read<Dirent>>, frames: seq<seq<Dirent>>, last: seq<Dirent>)
    returns (list: seq<Dirent>)
    requires CarriesList(wire, mark, results, frames, last)
    ensures Gather([], wire) == Some((list, if FirstError(results).None? then OK else FirstError(results).value))
    ensures list <= Entries(results) && (FirstError(results).None? ==> list == Entries(results))
  {
    var t := wire[|frames|];
    assert wire == ListPartials(mark, frames) + [t];
    assert forall i :: 0 <= i < |frames| ==> wire[i] == ListPartials(mark, frames)[i];
    GatherPartials([], mark, frames, t);
    assert [] + Concat(frames) == Concat(frames);
    list := Concat(frames);
    if FirstError(results).None? {
      ParseBack(last);
      assert t[2..] == DirentsBytes(last);
      list := list + last;
    }
  }

  /** Both ends of a plain listing together. */
  method ReadDirCall(results: seq<Read<Dirent>>, mark: byte) returns (list: seq<Dirent>, code: byte)
    requires AllShort(Entries(Heard(results)))
    ensures FirstError(Heard(results)).None? ==> code == OK && list == Entries(Heard(results))
    ensures FirstError(Heard(results)).Some? ==> code == FirstError(Heard(results)).value && list <= Entries(Heard(results))
  {
    var server := new Lister(mark);
    server.Serve(results);
    ghost var all := ListEndToEnd(server.wire, mark, Heard(results), server.frames, server.held);
    list, code := CmdReadDir(server.wire);
  }

  /** For the same snapshot of a directory, ReadDirPlus hands out the entries ReadDir returns. */
  method BothListings(results: seq<Read<RootEntry>>, plain: seq<Read<Dirent>>, mark: byte)
    returns (plus: seq<DirParser.Item>, handed: bool, list: seq<Dirent>, code: byte)
    requires DirServer.Conforming(results) && AllNamesFit(results) && AllShort(Entries(Heard(plain)))
    requires ReadDirPlus.RootOf(results) == Entries(Heard(plain))
    ensures handed && code == OK ==> |plus| == |list| && forall i :: 0 <= i < |list| ==> plus[i].ent == list[i]
    ensures FirstError(Heard(plain)).None? ==> code == OK
    ensures ReplyTo(results).code == OK ==> handed
  {
    var sent;
    sent, plus := ReadDirPlus.Call(results, mark);
    handed := sent.Handed?;
    list, code := ReadDirCall(plain, mark);
    if handed && code == OK {
      assert ReadDirPlus.HoldsRoot(results, plus);
    }
  }
}
