/**
 Which of the program's own workers and requesters go together: for each kind of
 request, when its requester stops exactly at its worker's last response. These are
 the conditions under which marks can be reused safely.
 */
module Workers {
  import opened Bytes
  import opened Protocol
  import opened Multiplex
  import opened Dirents
  import opened DirServer
  import DirParser
  import MarkReuse
  import ReadDir
  import ReadDirPlus
  import Transfers
  import WriteStream
  import XAttrList

  // ---- Requests that take messages until one is not partial ----

  /** The rule of CmdRead, CmdReadAt, readXAttrData and every request with one response. */
  function CodeStops(taken: seq<Rsp>): bool { taken != [] && taken[|taken| - 1].code != PARTIAL }

  lemma PartialsThenOne(script: seq<Rsp>)
    requires script != [] && script[|script| - 1].code != PARTIAL
    requires forall i :: 0 <= i < |script| - 1 ==> script[i].code == PARTIAL
    ensures Multiplex.Conforming(Request(false, 1, script, CodeStops))
  {
    forall n | 0 < n < |script| ensures !CodeStops(script[..n]) {
      assert script[..n][n - 1] == script[n - 1];
    }
  }

  function ReadRsps(ms: seq<Transfers.Msg>): (rs: seq<Rsp>)
    ensures |rs| == |ms| && forall i :: 0 <= i < |ms| ==> rs[i] == Rsp(ms[i].code, ms[i].data)
  {
    seq(|ms|, i requires 0 <= i < |ms| => Rsp(ms[i].code, ms[i].data))
  }

  lemma ReadConforms(file: seq<byte>, off: nat, size: nat, io: Transfers.Oracle)
    ensures Multiplex.Conforming(Request(false, 1, ReadRsps(Transfers.ReadReply(file, off, size, io)), CodeStops))
  {
    var dest: seq<byte> := seq(size, _ => 0);
    Transfers.ReplyReads(file, off, size, io, dest);
    PartialsThenOne(ReadRsps(Transfers.ReadReply(file, off, size, io)));
  }

  function XAttrRsps(ms: seq<XAttrList.Msg>): (rs: seq<Rsp>)
    ensures |rs| == |ms| && forall i :: 0 <= i < |ms| ==> rs[i] == Rsp(ms[i].code, ms[i].data)
  {
    seq(|ms|, i requires 0 <= i < |ms| => Rsp(ms[i].code, ms[i].data))
  }

  lemma {:induction false} PiecesCodes(data: seq<byte>, i: nat)
    requires i < |XAttrList.Pieces(data)|
    ensures var ms := XAttrList.Pieces(data); ms[i].code == if i == |ms| - 1 then OK else PARTIAL
    decreases |data|
  {
    if |data| > XAttrList.MAX_PAYLOAD {
      var rest := data[XAttrList.MAX_PAYLOAD..];
      var head := XAttrList.Msg(PARTIAL, data[..XAttrList.MAX_PAYLOAD]);
      assert XAttrList.Pieces(data) == [head] + XAttrList.Pieces(rest);
      if i > 0 { PiecesCodes(rest, i - 1); }
    }
  }

  lemma XAttrConforms(data: seq<byte>)
    ensures Multiplex.Conforming(Request(false, 1, XAttrRsps(XAttrList.Pieces(data)), CodeStops))
  {
    var ms := XAttrList.Pieces(data);
    forall i | 0 <= i < |ms| ensures XAttrRsps(ms)[i].code == if i == |ms| - 1 then OK else PARTIAL {
      PiecesCodes(data, i);
    }
    PartialsThenOne(XAttrRsps(ms));
  }

  // ---- Messages as responses ----

  function ToRsps(wire: seq<seq<byte>>): (rs: seq<Rsp>)
    requires DirParser.Messages(wire)
    ensures |rs| == |wire| && forall i :: 0 <= i < |wire| ==> rs[i] == Rsp(wire[i][1], wire[i][2..])
  {
    seq(|wire|, i requires 0 <= i < |wire| => Rsp(wire[i][1], wire[i][2..]))
  }

  /** The messages again, but for the mark, which no requester looks at. */
  function ToMessages(rs: seq<Rsp>): (wire: seq<seq<byte>>)
    ensures |wire| == |rs| && forall i :: 0 <= i < |rs| ==> wire[i] == [0, rs[i].code] + rs[i].body
  {
    seq(|rs|, i requires 0 <= i < |rs| => [0, rs[i].code] + rs[i].body)
  }

  predicate SameButMark(a: seq<seq<byte>>, b: seq<seq<byte>>) {
    && |a| == |b| && DirParser.Messages(a) && DirParser.Messages(b)
    && forall i :: 0 <= i < |a| ==> a[i][1] == b[i][1] && a[i][2..] == b[i][2..]
  }

  lemma RspsAreMessages(wire: seq<seq<byte>>, n: nat)
    requires DirParser.Messages(wire) && n <= |wire|
    ensures SameButMark(ToMessages(ToRsps(wire)[..n]), wire[..n])
  {
    var a := ToMessages(ToRsps(wire)[..n]);
    forall i | 0 <= i < n ensures a[i][1] == wire[i][1] && a[i][2..] == wire[i][2..] {
      assert a[i] == [0, wire[i][1]] + wire[i][2..];
    }
  }

  // ---- Plain listings ----

  /** CmdReadDir returns: an error code, the end, or an entry that does not decode. */
  function ListStops(taken: seq<Rsp>): bool {
    var wire := ToMessages(taken);
    ShortMessages(wire) && ReadDir.Gather([], wire).Some?
  }

  lemma {:induction false} GatherIgnoresMark(list: seq<Dirent>, a: seq<seq<byte>>, b: seq<seq<byte>>)
    requires SameButMark(a, b) && ShortMessages(a) && ShortMessages(b)
    ensures ReadDir.Gather(list, a) == ReadDir.Gather(list, b)
    decreases |a|
  {
    if a != [] && a[0][1] == PARTIAL {
      match ReadDir.ParseDirents(a[0][2..]) {
        case None =>
        case Some(ds) => GatherIgnoresMark(list + ds, a[1..], b[1..]);
      }
    }
  }

  /** On the partial messages alone the client still waits. */
  lemma {:induction false} StillGathering(list: seq<Dirent>, mark: byte, frames: seq<seq<Dirent>>)
    requires ReadDir.AllShort(Concat(frames)) && ShortMessages(ReadDir.ListPartials(mark, frames))
    ensures ReadDir.Gather(list, ReadDir.ListPartials(mark, frames)).None?
    decreases |frames|
  {
    if frames != [] {
      var wire, f, rest := ReadDir.ListPartials(mark, frames), frames[0], Concat(frames[1..]);
      ReadDir.ShortParts(f, rest);
      ReadDir.ParseBack(f);
      assert wire[0][2..] == ReadDir.DirentsBytes(f);
      assert wire[1..] == ReadDir.ListPartials(mark, frames[1..]);
      assert forall i :: 0 <= i < |frames| - 1 ==> ReadDir.ListPartials(mark, frames[1..])[i] == wire[i + 1];
      StillGathering(list + f, mark, frames[1..]);
    }
  }

  lemma {:induction false} ConcatTake<T>(xs: seq<seq<T>>, n: nat)
    requires n <= |xs|
    ensures Concat(xs) == Concat(xs[..n]) + Concat(xs[n..])
  {
    ConcatAppend(xs[..n], xs[n..]);
    assert xs[..n] + xs[n..] == xs;
  }

  lemma SameLengths(a: seq<seq<byte>>, b: seq<seq<byte>>)
    requires SameButMark(a, b)
    ensures ShortMessages(a) <==> ShortMessages(b)
  {
    forall i | 0 <= i < |a| ensures |a[i]| == |b[i]| {
      assert |a[i][2..]| == |b[i][2..]|;
    }
  }

  lemma ListWaits(wire: seq<seq<byte>>, mark: byte, results: seq<Read<Dirent>>, frames: seq<seq<Dirent>>, last: seq<Dirent>, n: nat)
    requires ReadDir.CarriesList(wire, mark, results, frames, last) && n <= |frames|
    ensures DirParser.Messages(wire) && !ListStops(ToRsps(wire)[..n])
  {
    var a, b := ToMessages(ToRsps(wire)[..n]), wire[..n];
    RspsAreMessages(wire, n);
    SameLengths(a, b);
    ConcatTake(frames, n);
    ReadDir.ShortParts(Concat(frames[..n]), Concat(frames[n..]));
    assert b == ReadDir.ListPartials(mark, frames[..n]) by {
      assert b == wire[..|frames|][..n];
    }
    StillGathering([], mark, frames[..n]);
    GatherIgnoresMark([], a, b);
  }

  lemma ListConforms(wire: seq<seq<byte>>, mark: byte, results: seq<Read<Dirent>>, frames: seq<seq<Dirent>>, last: seq<Dirent>)
    requires ReadDir.CarriesList(wire, mark, results, frames, last)
    ensures DirParser.Messages(wire) && Multiplex.Conforming(Request(false, 1, ToRsps(wire), ListStops))
  {
    var script := ToRsps(wire);
    forall n | 0 < n < |script| ensures !ListStops(script[..n]) {
      ListWaits(wire, mark, results, frames, last, n);
    }
    var _ := ReadDir.ListEndToEnd(wire, mark, results, frames, last);
    var a := ToMessages(script);
    RspsAreMessages(wire, |wire|);
    assert script[..|wire|] == script && wire[..|wire|] == wire;
    SameLengths(a, wire);
    GatherIgnoresMark([], a, wire);
  }

  // ---- Write streams ----

  /** WriteStream.Close returns at the close response and at the unknown error. */
  function StreamStops(taken: seq<Rsp>): bool {
    taken != [] && (taken[|taken| - 1].code == OK || taken[|taken| - 1].code == ERROR_UNKNOWN)
  }

  function StreamRsps(rsps: seq<WriteStream.Rsp>): (rs: seq<Rsp>)
    ensures |rs| == |rsps| && forall i :: 0 <= i < |rs| ==> rs[i].code == if rsps[i].RspClose? then OK else rsps[i].code
  {
    seq(|rsps|, i requires 0 <= i < |rsps| => Rsp(if rsps[i].RspClose? then OK else rsps[i].code, []))
  }

  /** A stream's requester stops at its worker's last answer exactly if the first error is not the unknown one. */
  lemma StreamConformsIff(cmds: seq<WriteStream.Cmd>, file: seq<byte>, es: seq<WriteStream.Event>)
    requires WriteStream.IsStream(cmds, false) && WriteStream.IsRun(WriteStream.Start(cmds, file), es)
    requires WriteStream.Exec(WriteStream.Start(cmds, file), es).finished
    ensures var s := WriteStream.Exec(WriteStream.Start(cmds, file), es);
      Multiplex.Conforming(Request(true, |cmds|, StreamRsps(s.rsps), StreamStops)) <==>
        !(s.errSent && WriteStream.FirstErr(s).code == ERROR_UNKNOWN)
  {
    var s0 := WriteStream.Start(cmds, file);
    var s := WriteStream.Exec(s0, es);
    WriteStream.InitInv(cmds, file);
    WriteStream.RunKeeps(s0, es, WriteStream.Payload(cmds), file, cmds[0].offset);
    WriteStream.ErrorsComeFromWrites(s0, es);
    var script := StreamRsps(s.rsps);
    assert |script| == if s.errSent then 2 else 1;
    assert s.errSent ==> script[..1] == [script[0]] && script[0].code == WriteStream.FirstErr(s).code >= 2;
  }

  // ---- ReadDirPlus ----

  /** parseReadDirPlus returns: it has the terminal message, or gave up on the way. */
  function PlusStops(taken: seq<Rsp>): bool { DirParser.ParseAll(DirParser.INIT, ToMessages(taken)).done }

  function PlusRequest(wire: seq<seq<byte>>): Request
    requires DirParser.Messages(wire)
  {
    Request(false, 1, ToRsps(wire), PlusStops)
  }

  lemma {:induction false} ParseIgnoresMark(p: DirParser.Parser, a: seq<seq<byte>>, b: seq<seq<byte>>)
    requires SameButMark(a, b)
    ensures DirParser.ParseAll(p, a) == DirParser.ParseAll(p, b)
    decreases |a|
  {
    if a != [] && !p.done {
      ParseIgnoresMark(DirParser.ParseMessage(p, a[0]), a[1..], b[1..]);
    }
  }

  /** After `n` partial messages the parser is where their records lead. */
  lemma {:induction false} PartialsLead(p: DirParser.Parser, mark: byte, frames: seq<seq<Rec>>)
    requires AllFit(Concat(frames))
    ensures DirParser.Messages(PartialMessages(mark, frames))
    ensures DirParser.ParseAll(p, PartialMessages(mark, frames)) == ReadDirPlus.Steps(p, Concat(frames))
    decreases |frames|
  {
    if frames != [] {
      var f, rest, wire := frames[0], Concat(frames[1..]), PartialMessages(mark, frames);
      ReadDirPlus.AllFitPrefix(f, rest);
      ReadDirPlus.PartialStep(p, mark, f);
      ReadDirPlus.StepsAppend(p, f, rest);
      assert wire == [Message(mark, PARTIAL, f)] + PartialMessages(mark, frames[1..]);
      PartialsLead(ReadDirPlus.Steps(p, f), mark, frames[1..]);
      ReadDirPlus.ParseAllCons(p, Message(mark, PARTIAL, f), PartialMessages(mark, frames[1..]));
    }
  }

  lemma PrefixFits(got: seq<Rec>, recs: seq<Rec>)
    requires AllFit(recs)
    ensures got <= recs ==> AllFit(got)
  {
    if got <= recs {
      assert forall i :: 0 <= i < |got| ==> got[i] == recs[i];
    }
  }

  lemma CarriedFits(wire: seq<seq<byte>>, mark: byte, reply: Reply, frames: seq<seq<Rec>>, last: seq<Rec>)
    requires Carries(wire, mark, reply, frames, last)
    ensures |wire| == |frames| + 1 && wire[..|frames|] == PartialMessages(mark, frames) && Concat(frames) <= reply.recs
    ensures AllFit(Concat(frames))
  {
    PrefixFits(Concat(frames), reply.recs);
  }

  /** Whether the client has stopped after `n` messages, all of them partial. */
  lemma PlusAfter(wire: seq<seq<byte>>, mark: byte, reply: Reply, frames: seq<seq<Rec>>, last: seq<Rec>, n: nat)
    requires Carries(wire, mark, reply, frames, last) && DirParser.Messages(wire) && n <= |frames|
    ensures PlusStops(ToRsps(wire)[..n]) <==> ReadDirPlus.Steps(DirParser.INIT, Concat(frames[..n])).done
  {
    CarriedFits(wire, mark, reply, frames, last);
    ConcatTake(frames, n);
    ReadDirPlus.AllFitPrefix(Concat(frames[..n]), Concat(frames[n..]));
    RspsAreMessages(wire, n);
    assert wire[..n] == PartialMessages(mark, frames[..n]) by { assert wire[..n] == wire[..|frames|][..n]; }
    PartialsLead(DirParser.INIT, mark, frames[..n]);
    ParseIgnoresMark(DirParser.INIT, ToMessages(ToRsps(wire)[..n]), wire[..n]);
  }

  lemma {:induction false} DoneStays(p: DirParser.Parser, xs: seq<Rec>, ys: seq<Rec>)
    requires ReadDirPlus.Steps(p, xs).done
    ensures ReadDirPlus.Steps(p, xs + ys).done
  {
    ReadDirPlus.StepsAppend(p, xs, ys);
  }

  /** However a reply is packed: the client reads it to the end exactly if its partial messages announce no more sections than they show directories. */
  lemma PlusConformsIff(results: seq<Read<RootEntry>>, mark: byte, wire: seq<seq<byte>>, frames: seq<seq<Rec>>, last: seq<Rec>)
    requires Carries(wire, mark, ReplyTo(results), frames, last)
    ensures DirParser.Messages(wire) && WellFormed(PlusRequest(wire))
    ensures Multiplex.Conforming(PlusRequest(wire)) <==> Markers(Concat(frames)) <= ReadDirPlus.DirsBefore(Concat(frames))
  {
    var reply, all := ReplyTo(results), Concat(frames);
    ReadDirPlus.EndToEnd(results, mark, wire, frames, last);
    PlusWellFormed(wire);
    CarriedFits(wire, mark, reply, frames, last);
    ReadDirPlus.GivesUpIff(all);
    PlusAfter(wire, mark, reply, frames, last, |frames|);
    assert frames[..|frames|] == frames;
    if Markers(all) <= ReadDirPlus.DirsBefore(all) {
      forall n | 0 < n < |wire| ensures !PlusStops(ToRsps(wire)[..n]) {
        PlusAfter(wire, mark, reply, frames, last, n);
        ConcatTake(frames, n);
        if ReadDirPlus.Steps(DirParser.INIT, Concat(frames[..n])).done {
          DoneStays(DirParser.INIT, Concat(frames[..n]), Concat(frames[n..]));
        }
      }
    } else {
      assert frames != [];
      assert 0 < |frames| < |wire| && PlusStops(ToRsps(wire)[..|frames|]);
    }
  }

  lemma PlusWellFormed(wire: seq<seq<byte>>)
    requires DirParser.Messages(wire) && wire != [] && DirParser.ParseAll(DirParser.INIT, wire).done
    ensures WellFormed(PlusRequest(wire))
  {
    RspsAreMessages(wire, |wire|);
    assert ToRsps(wire)[..|wire|] == ToRsps(wire) && wire[..|wire|] == wire;
    ParseIgnoresMark(DirParser.INIT, ToMessages(ToRsps(wire)), wire);
  }

  /** The directories the server would prefetch, and those the client can tell. */
  predicate EnoughDirs(results: seq<Read<RootEntry>>) {
    var first := ReadDirPlus.Prefetchable(results);
    Min(|ReadDirPlus.ServerDirs(first, |first|)|, MAX_PREFETCH_DIRS) <= |ReadDirPlus.Dirs(ReadDirPlus.RootOf(results))|
  }

  lemma PrefixMarkers(got: seq<Rec>, recs: seq<Rec>)
    requires got <= recs
    ensures Markers(got) <= Markers(recs)
  {
    var rest := recs[|got|..];
    assert got + rest == recs;
    MarkersAppend(got, rest);
  }

  /** If the client sees enough directories every reply is read to the end; with an OK reply exactly then. */
  lemma PlusReadsAllIff(results: seq<Read<RootEntry>>, mark: byte, wire: seq<seq<byte>>, frames: seq<seq<Rec>>, last: seq<Rec>)
    requires Carries(wire, mark, ReplyTo(results), frames, last)
    ensures DirParser.Messages(wire)
    ensures EnoughDirs(results) ==> Multiplex.Conforming(PlusRequest(wire))
    ensures ReplyTo(results).code == OK && Markers(last) == 0 ==> (Multiplex.Conforming(PlusRequest(wire)) <==> EnoughDirs(results))
  {
    var reply, got := ReplyTo(results), Concat(frames);
    PlusConformsIff(results, mark, wire, frames, last);
    CarriedFits(wire, mark, reply, frames, last);
    ReadDirPlus.ReplyMarkers(results);
    PrefixMarkers(got, reply.recs);
    MarkersAppend(got, last);
    if Markers(got) > 0 {
      ReadDirPlus.RootSeen(results, got);
    }
  }

  /** Otherwise there is a run in which the client frees the mark while the server is still answering. */
  lemma PlusLeaks(results: seq<Read<RootEntry>>, mark: byte, wire: seq<seq<byte>>, frames: seq<seq<Rec>>, last: seq<Rec>) returns (es: seq<Event>)
    requires Carries(wire, mark, ReplyTo(results), frames, last) && ReplyTo(results).code == OK && Markers(last) == 0
    requires !EnoughDirs(results)
    ensures DirParser.Messages(wire)
    ensures var reqs := (r: nat) => PlusRequest(wire); IsRun(INIT, reqs, es) && !Quiet(Exec(INIT, reqs, es), reqs)
  {
    PlusReadsAllIff(results, mark, wire, frames, last);
    PlusConformsIff(results, mark, wire, frames, last);
    var q := PlusRequest(wire);
    var reqs := (r: nat) => q;
    var i :| 0 < i < |q.script| && q.stops(q.script[..i]);
    var j := MarkReuse.FirstStop(q, i);
    es := MarkReuse.EarlyStopLeaks(reqs, 0, j);
  }

  /** The smallest case: one directory whose lookup failed, so that its mode lacks the directory bit. */
  lemma FailedLookupIsShort(d: Dirent, child: Dir)
    requires !IsModeDir(d.mode) && ReadDirPlus.WholeDir(child)
    ensures var results := [Batch([RootEntry(d, true, child)])]; !EnoughDirs(results) && ReplyTo(results).code == OK
  {
    var root := [RootEntry(d, true, child)];
    ReadDirPlus.OneBatch(root);
    ReadDirPlus.HealthySectionsEndOK(root, 0, 0);
    assert ReadDirPlus.ServerDirs(root, 0) == [] && root[0].isDir;
    assert ReadDirPlus.ServerDirs(root, 1) == [0];
    assert Ents(root) == [d];
    assert ReadDirPlus.ModeDirs([d], 0) == [] && ReadDirPlus.ModeDirs([d], 1) == [];
  }
}
