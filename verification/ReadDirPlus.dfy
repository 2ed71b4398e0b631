/**
 ReadDirPlus end to end: what the client's list looks like after parsing the
 messages a server sent, for every listing, every failure schedule and every way
 the records were packed into messages.
 */
module ReadDirPlus {
  import opened Bytes
  import opened Protocol
  import opened Dirents
  import opened DirServer
  import opened DirParser

  // ---- Packing does not matter ----

  function StepRec(p: Parser, r: Rec): Parser {
    match r
    case Continue(d) => OnEntry(p, d)
    case Prefetch => OnMarker(p, true)
    case Skip => OnMarker(p, false)
  }

  function Steps(p: Parser, rs: seq<Rec>): Parser
    decreases |rs|
  {
    if p.done || rs == [] then p else Steps(StepRec(p, rs[0]), rs[1..])
  }

  /** What the terminal message does. */
  function End(p: Parser, code: byte): Parser {
    if p.done then p else if code == OK then Finish(p) else Abort(p, code)
  }

  /** The parser on one record followed by more bytes. */
  lemma BodyOne(p: Parser, r: Rec, rest: seq<byte>)
    requires Fits(r) && !p.done
    ensures ParseBody(p, RecBytes(r) + rest) == if StepRec(p, r).done then StepRec(p, r) else ParseBody(StepRec(p, r), rest)
  {
    var bytes := RecBytes(r) + rest;
    match r {
      case Continue(d) =>
        DirentRoundTrip(d, rest);
        assert bytes[0] == CONTINUE && bytes[1..] == DirentBytes(d) + rest;
      case Prefetch => assert bytes[0] == PREFETCH && bytes[1..] == rest;
      case Skip => assert bytes[0] == PREFETCH_SKIP && bytes[1..] == rest;
    }
  }

  lemma {:induction false} BodyIsSteps(p: Parser, rs: seq<Rec>)
    requires AllFit(rs)
    ensures ParseBody(p, RecsBytes(rs)) == Steps(p, rs)
    decreases |rs|
  {
    if rs != [] && !p.done {
      RecsBytesHead(rs);
      assert Fits(rs[0]);
      BodyOne(p, rs[0], RecsBytes(rs[1..]));
      BodyIsSteps(StepRec(p, rs[0]), rs[1..]);
    }
  }

  lemma StepsCons(p: Parser, r: Rec, rs: seq<Rec>)
    ensures Steps(p, [r] + rs) == if p.done then p else Steps(StepRec(p, r), rs)
  {
    assert ([r] + rs)[0] == r && ([r] + rs)[1..] == rs;
  }

  lemma {:induction false} StepsAppend(p: Parser, xs: seq<Rec>, ys: seq<Rec>)
    ensures Steps(p, xs + ys) == Steps(Steps(p, xs), ys)
    decreases |xs|
  {
    if xs == [] {
      assert xs + ys == ys;
    } else {
      assert xs == [xs[0]] + xs[1..] && xs + ys == [xs[0]] + (xs[1..] + ys);
      StepsCons(p, xs[0], xs[1..]);
      StepsCons(p, xs[0], xs[1..] + ys);
      if !p.done {
        StepsAppend(StepRec(p, xs[0]), xs[1..], ys);
      }
    }
  }

  lemma PartialStep(p: Parser, mark: byte, f: seq<Rec>)
    requires AllFit(f)
    ensures ParseMessage(p, Message(mark, PARTIAL, f)) == Steps(p, f)
  {
    BodyIsSteps(p, f);
    assert Message(mark, PARTIAL, f)[2..] == RecsBytes(f);
  }

  lemma ParseAllCons(p: Parser, msg: seq<byte>, msgs: seq<seq<byte>>)
    requires |msg| >= 2 && Messages(msgs)
    ensures Messages([msg] + msgs)
    ensures ParseAll(p, [msg] + msgs) == if p.done then p else ParseAll(ParseMessage(p, msg), msgs)
  {
    assert ([msg] + msgs)[0] == msg && ([msg] + msgs)[1..] == msgs;
  }

  lemma {:induction false} PartialsAreSteps(p: Parser, mark: byte, frames: seq<seq<Rec>>, t: seq<byte>)
    requires AllFit(Concat(frames)) && |t| >= 2
    ensures Messages(PartialMessages(mark, frames) + [t])
    ensures ParseAll(p, PartialMessages(mark, frames) + [t]) ==
            var q := Steps(p, Concat(frames)); if q.done then q else ParseMessage(q, t)
    decreases |frames|
  {
    var wire := PartialMessages(mark, frames) + [t];
    if frames == [] {
      assert wire == [t] + [];
      ParseAllCons(p, t, []);
    } else {
      var f, rest := frames[0], Concat(frames[1..]);
      var tail := PartialMessages(mark, frames[1..]) + [t];
      AllFitPrefix(f, rest);
      PartialsAreSteps(Steps(p, f), mark, frames[1..], t);
      assert wire == [Message(mark, PARTIAL, f)] + tail;
      ParseAllCons(p, Message(mark, PARTIAL, f), tail);
      PartialStep(p, mark, f);
      StepsAppend(p, f, rest);
    }
  }

  /** However records were packed, the client sees the records that got through and then the terminal code. */
  lemma WireIsSteps(wire: seq<seq<byte>>, mark: byte, reply: Reply, frames: seq<seq<Rec>>, last: seq<Rec>)
    returns (got: seq<Rec>)
    requires Carries(wire, mark, reply, frames, last) && reply.code != PARTIAL
    ensures Messages(wire) && ParseAll(INIT, wire) == End(Steps(INIT, got), reply.code)
    ensures got <= reply.recs && (reply.code == OK ==> got == reply.recs)
  {
    got := Concat(frames);
    var t := wire[|frames|];
    assert wire == PartialMessages(mark, frames) + [t];
    AllFitPrefix(got, reply.recs[|got|..]) by { assert got + reply.recs[|got|..] == reply.recs; }
    PartialsAreSteps(INIT, mark, frames, t);
    if reply.code == OK {
      AllFitPrefix(got, last);
      LastIsSteps(Steps(INIT, got), mark, last);
      StepsAppend(INIT, got, last);
      got := got + last;
    }
  }

  lemma AllFitPrefix(xs: seq<Rec>, ys: seq<Rec>)
    requires AllFit(xs + ys)
    ensures AllFit(xs) && AllFit(ys)
  {
    assert forall i :: 0 <= i < |xs| ==> (xs + ys)[i] == xs[i];
    assert forall i :: 0 <= i < |ys| ==> (xs + ys)[|xs| + i] == ys[i];
  }

  lemma LastIsSteps(p: Parser, mark: byte, last: seq<Rec>)
    requires AllFit(last)
    ensures (if p.done then p else ParseMessage(p, Message(mark, OK, last))) == End(Steps(p, last), OK)
  {
    BodyIsSteps(p, last);
    assert Message(mark, OK, last)[2..] == RecsBytes(last);
  }

  // ---- The client's state in closed form ----

  /** Indices below `n` of the entries that look like directories to the client. */
  function ModeDirs(ents: seq<Dirent>, n: nat): seq<nat>
    requires n <= |ents|
  {
    if n == 0 then []
    else ModeDirs(ents, n - 1) + (if IsModeDir(ents[n - 1].mode) then [n - 1] else [])
  }

  /** Indices below `n` of the entries that are directories to the server. */
  function ServerDirs(first: seq<RootEntry>, n: nat): seq<nat>
    requires n <= |first|
  {
    if n == 0 then []
    else ServerDirs(first, n - 1) + (if first[n - 1].isDir then [n - 1] else [])
  }

  function Dirs(ents: seq<Dirent>): seq<nat> { ModeDirs(ents, |ents|) }

  /** How many directories, to the client, come before entry `i`. */
  function Rank(ents: seq<Dirent>, i: nat): nat
    requires i <= |ents|
  {
    |ModeDirs(ents, i)|
  }

  lemma {:induction false} ModeDirsFacts(ents: seq<Dirent>, n: nat)
    requires n <= |ents|
    ensures forall j :: 0 <= j < |ModeDirs(ents, n)| ==>
              var i := ModeDirs(ents, n)[j]; i < n && IsModeDir(ents[i].mode) && Rank(ents, i) == j
    ensures forall i :: 0 <= i < n && IsModeDir(ents[i].mode) ==>
              Rank(ents, i) < |ModeDirs(ents, n)| && ModeDirs(ents, n)[Rank(ents, i)] == i
  {
    if n > 0 { ModeDirsFacts(ents, n - 1); }
  }

  /** The first directories are resolved as `rs` says, the others still wait. */
  function ItemAt(ents: seq<Dirent>, rs: seq<Option<seq<Dirent>>>, i: nat): Item
    requires i < |ents|
  {
    if !IsModeDir(ents[i].mode) then Item(ents[i], None, NoChannel)
    else if Rank(ents, i) < |rs| then Item(ents[i], rs[Rank(ents, i)], Closed)
    else Item(ents[i], None, Pending)
  }

  function ListAt(ents: seq<Dirent>, rs: seq<Option<seq<Dirent>>>): (list: seq<Item>)
    ensures |list| == |ents| && forall i :: 0 <= i < |ents| ==> list[i] == ItemAt(ents, rs, i)
  {
    seq(|ents|, i requires 0 <= i < |ents| => ItemAt(ents, rs, i))
  }

  /** The parser between two records: `cur` is the section being collected, None while in the root section. */
  function ClientAt(ents: seq<Dirent>, rs: seq<Option<seq<Dirent>>>, cur: Option<seq<Dirent>>): Parser
    requires |rs| + (if cur.Some? then 1 else 0) <= |Dirs(ents)|
  {
    if cur.None? then Parser(RootSection, ListAt(ents, rs), [], -1, false, Dirs(ents)[|rs|..], [], false, false)
    else Parser(PrefetchSection, ListAt(ents, rs), cur.value, Dirs(ents)[|rs|], true, Dirs(ents)[|rs| + 1..],
                [Handed(|ents|)], false, false)
  }

  lemma ResolveNext(ents: seq<Dirent>, rs: seq<Option<seq<Dirent>>>, c: Option<seq<Dirent>>)
    requires |rs| < |Dirs(ents)|
    ensures var i := Dirs(ents)[|rs|];
            && i < |ents| && ListAt(ents, rs)[i] == Item(ents[i], None, Pending)
            && ListAt(ents, rs)[i := Item(ents[i], c, Closed)] == ListAt(ents, rs + [c])
  {
    ModeDirsFacts(ents, |ents|);
    var i := Dirs(ents)[|rs|];
    var list := ListAt(ents, rs)[i := Item(ents[i], c, Closed)];
    forall k | 0 <= k < |ents| ensures list[k] == ListAt(ents, rs + [c])[k] {
      if IsModeDir(ents[k].mode) && k != i {
        assert Dirs(ents)[Rank(ents, k)] == k;
      }
    }
  }

  function Nones(n: nat): seq<Option<seq<Dirent>>> { seq(n, _ => None) }

  /** Closing the channels that remain leaves their directories without a listing. */
  lemma {:induction false} CloseRemaining(p: Parser, ents: seq<Dirent>, rs: seq<Option<seq<Dirent>>>)
    requires |rs| <= |Dirs(ents)| && p.list == ListAt(ents, rs)
    ensures CloseAll(p, Dirs(ents)[|rs|..]) == p.(list := ListAt(ents, rs + Nones(|Dirs(ents)| - |rs|)))
    decreases |Dirs(ents)| - |rs|
  {
    var idxs := Dirs(ents)[|rs|..];
    if idxs == [] {
      assert rs + Nones(0) == rs;
    } else {
      ResolveNext(ents, rs, None);
      var q := Close(p, idxs[0]);
      assert q == p.(list := ListAt(ents, rs + [None]));
      assert idxs[1..] == Dirs(ents)[|rs| + 1..];
      CloseRemaining(q, ents, rs + [None]);
      assert rs + [None] + Nones(|Dirs(ents)| - |rs| - 1) == rs + Nones(|Dirs(ents)| - |rs|);
    }
  }

  function Settle(rs: seq<Option<seq<Dirent>>>, cur: Option<seq<Dirent>>, commit: bool): seq<Option<seq<Dirent>>> {
    if cur.None? then rs else rs + [if commit then cur else None]
  }

  lemma FlushClient(ents: seq<Dirent>, rs: seq<Option<seq<Dirent>>>, cur: Option<seq<Dirent>>, commit: bool)
    requires |rs| + (if cur.Some? then 1 else 0) <= |Dirs(ents)|
    ensures var p := ClientAt(ents, rs, cur);
            Flush(p, commit) == if cur.None? then p
                                else p.(list := ListAt(ents, Settle(rs, cur, commit)), items := [], cur := -1)
  {
    if cur.Some? {
      var i := Dirs(ents)[|rs|];
      ResolveNext(ents, rs, if commit then cur else None);
      var list := ListAt(ents, rs);
      assert list[i := Item(ents[i], cur, Pending)][i := Item(ents[i], cur, Closed)] == list[i := Item(ents[i], cur, Closed)];
    }
  }

  /** The end of the stream in closed form. */
  lemma EndClient(ents: seq<Dirent>, rs: seq<Option<seq<Dirent>>>, cur: Option<seq<Dirent>>, code: byte)
    requires |rs| + (if cur.Some? then 1 else 0) <= |Dirs(ents)|
    ensures var p := ClientAt(ents, rs, cur);
            var settled := Settle(rs, cur, code == OK);
            var q := End(p, code);
            && q.list == ListAt(ents, settled + Nones(|Dirs(ents)| - |settled|)) && q.done
            && q.sent == [if cur.Some? || code == OK then Handed(|ents|) else Failed(code)]
  {
    var p := ClientAt(ents, rs, cur);
    FlushClient(ents, rs, cur, code == OK);
    CloseRemaining(Flush(p, code == OK), ents, Settle(rs, cur, code == OK));
  }

  lemma MarkerClient(ents: seq<Dirent>, rs: seq<Option<seq<Dirent>>>, cur: Option<seq<Dirent>>, commit: bool)
    requires |rs| + (if cur.Some? then 1 else 0) <= |Dirs(ents)| && (cur.None? ==> rs == [])
    ensures var p := ClientAt(ents, rs, cur);
            var settled := Settle(rs, cur, commit);
            var q := OnMarker(p, commit);
            if |settled| < |Dirs(ents)| then q == ClientAt(ents, settled, Some([]))
            else q.done && q.list == ListAt(ents, settled) && q.sent == [Handed(|ents|)]
  {
    var p := ClientAt(ents, rs, cur);
    FlushClient(ents, rs, cur, commit);
    if cur.Some? { assert Handover(p) == p; }
    var settled := Settle(rs, cur, commit);
    if |settled| < |Dirs(ents)| {
      assert Dirs(ents)[|settled|..][1..] == Dirs(ents)[|settled| + 1..];
    }
  }

  lemma {:induction false} EntriesClient(ents: seq<Dirent>, rs: seq<Option<seq<Dirent>>>, es: seq<Dirent>, more: seq<Dirent>)
    requires |rs| < |Dirs(ents)|
    ensures Steps(ClientAt(ents, rs, Some(es)), Conts(more)) == ClientAt(ents, rs, Some(es + more))
    decreases |more|
  {
    if more == [] {
      assert es + more == es;
    } else {
      EntriesClient(ents, rs, es + [more[0]], more[1..]);
      assert Conts(more)[1..] == Conts(more[1..]) && es + [more[0]] + more[1..] == es + more;
    }
  }

  lemma {:induction false} RootClient(ents: seq<Dirent>, n: nat)
    requires n <= |ents|
    ensures Steps(INIT, Conts(ents[..n])) == ClientAt(ents[..n], [], None)
  {
    if n == 0 {
      assert ListAt(ents[..0], []) == [];
    } else {
      RootClient(ents, n - 1);
      var before, d := ents[..n - 1], ents[n - 1];
      assert ents[..n] == before + [d];
      assert Conts(ents[..n]) == Conts(before) + [Continue(d)];
      StepsAppend(INIT, Conts(before), [Continue(d)]);
      var p := ClientAt(before, [], None);
      assert [Continue(d)][1..] == [];
      assert Steps(p, [Continue(d)]) == Steps(OnEntry(p, d), []);
      ModeDirsPrefix(before, [d], n - 1);
      assert ListAt(ents[..n], []) == ListAt(before, []) + [NewItem(d)] by {
        forall i | 0 <= i < n - 1 ensures ItemAt(ents[..n], [], i) == ItemAt(before, [], i) {}
      }
    }
  }

  lemma {:induction false} ModeDirsPrefix(xs: seq<Dirent>, ys: seq<Dirent>, n: nat)
    requires n <= |xs|
    ensures ModeDirs(xs + ys, n) == ModeDirs(xs, n)
  {
    if n > 0 { ModeDirsPrefix(xs, ys, n - 1); }
  }

  // ---- Which listing ends up where ----

  /** What the server's j-th directory section is worth: its full listing, or nothing. */
  function Listing(first: seq<RootEntry>, j: nat): Option<seq<Dirent>> {
    var dirs := ServerDirs(first, |first|);
    if j < |dirs| && j < MAX_PREFETCH_DIRS then
      ServerDirsFacts(first, |first|);
      match OutcomeOf(first[dirs[j]].child)
      case Streams(es, true) => Some(es)
      case _ => None
    else None
  }

  lemma {:induction false} ServerDirsFacts(first: seq<RootEntry>, n: nat)
    requires n <= |first|
    ensures forall j :: 0 <= j < |ServerDirs(first, n)| ==>
              ServerDirs(first, n)[j] < n && first[ServerDirs(first, n)[j]].isDir
    ensures forall i :: 0 <= i < n && first[i].isDir ==>
              |ServerDirs(first, i)| < |ServerDirs(first, n)| && ServerDirs(first, n)[|ServerDirs(first, i)|] == i
  {
    if n > 0 { ServerDirsFacts(first, n - 1); }
  }

  lemma {:induction false} ServerDirsGrow(first: seq<RootEntry>, m: nat, n: nat)
    requires m <= n <= |first|
    ensures ServerDirs(first, m) <= ServerDirs(first, n)
  {
    if m < n { ServerDirsGrow(first, m, n - 1); }
  }

  ghost predicate ExactUpTo(first: seq<RootEntry>, rs: seq<Option<seq<Dirent>>>) {
    forall j :: 0 <= j < |rs| ==> rs[j] == Listing(first, j)
  }

  ghost predicate Truthful(first: seq<RootEntry>, rs: seq<Option<seq<Dirent>>>) {
    forall j :: 0 <= j < |rs| ==> rs[j].None? || rs[j] == Listing(first, j)
  }

  /** `used` sections were announced; the last one, if any, was complete unless `failed`. */
  ghost predicate AtSection(first: seq<RootEntry>, idx: nat, used: nat, failed: bool,
                            rs: seq<Option<seq<Dirent>>>, cur: Option<seq<Dirent>>) {
    && idx <= |first| && |ServerDirs(first, idx)| == used <= MAX_PREFETCH_DIRS
    && used == |rs| + (if cur.Some? then 1 else 0) && (cur.None? ==> rs == [] && !failed)
    && ExactUpTo(first, rs)
    && (cur.Some? ==> Listing(first, |rs|) == if failed then None else cur)
  }

  lemma SettleExact(first: seq<RootEntry>, idx: nat, used: nat, failed: bool, rs: seq<Option<seq<Dirent>>>, cur: Option<seq<Dirent>>)
    requires AtSection(first, idx, used, failed, rs, cur)
    ensures ExactUpTo(first, Settle(rs, cur, !failed)) && |Settle(rs, cur, !failed)| == used
    ensures Truthful(first, Settle(rs, cur, false))
  {
    var kept, dropped := Settle(rs, cur, !failed), Settle(rs, cur, false);
    forall j | 0 <= j < |kept| ensures kept[j] == Listing(first, j) && (dropped[j].None? || dropped[j] == Listing(first, j)) {
      if j < |rs| { assert kept[j] == rs[j] && dropped[j] == rs[j]; }
    }
  }

  /** After the last section nothing more is listed. */
  lemma NothingAfter(first: seq<RootEntry>, idx: nat, used: nat, j: nat)
    requires idx <= |first| && |ServerDirs(first, idx)| == used <= j && (idx == |first| || used >= MAX_PREFETCH_DIRS)
    ensures Listing(first, j) == None
  {}

  /** An announced section: what it is worth once complete. */
  lemma SectionListing(first: seq<RootEntry>, idx: nat, used: nat)
    requires idx < |first| && first[idx].isDir && |ServerDirs(first, idx)| == used < MAX_PREFETCH_DIRS
    ensures |ServerDirs(first, idx + 1)| == used + 1
    ensures Listing(first, used) ==
            match OutcomeOf(first[idx].child) case Streams(es, true) => Some(es) case _ => None
  {
    ServerDirsFacts(first, |first|);
  }

  /** A finished parse: the children are `out`, in the client's count; `exact` when nothing was lost. */
  ghost predicate Placed(q: Parser, ents: seq<Dirent>, first: seq<RootEntry>, out: seq<Option<seq<Dirent>>>, exact: bool) {
    && q.done && q.list == ListAt(ents, out) && |out| == |Dirs(ents)|
    && Truthful(first, out) && (exact ==> ExactUpTo(first, out))
  }

  /** The terminal message arrives with the `used`-th section open. */
  lemma EndRun(ents: seq<Dirent>, first: seq<RootEntry>, idx: nat, used: nat, failed: bool,
               rs: seq<Option<seq<Dirent>>>, cur: Option<seq<Dirent>>, code: byte)
    returns (out: seq<Option<seq<Dirent>>>)
    requires AtSection(first, idx, used, failed, rs, cur) && used <= |Dirs(ents)|
    requires code == OK ==> !failed && (idx == |first| || used >= MAX_PREFETCH_DIRS)
    ensures var q := End(ClientAt(ents, rs, cur), code);
            && Placed(q, ents, first, out, code == OK)
            && q.sent == [if cur.Some? || code == OK then Handed(|ents|) else Failed(code)]
  {
    SettleExact(first, idx, used, failed, rs, cur);
    EndClient(ents, rs, cur, code);
    var settled := Settle(rs, cur, code == OK);
    out := settled + Nones(|Dirs(ents)| - |settled|);
    if code == OK {
      forall j | 0 <= j < |out| ensures out[j] == Listing(first, j) {
        if j >= used { NothingAfter(first, idx, used, j); }
      }
    }
  }

  /** A section of which only `part` arrives before an error. */
  lemma CutSection(ents: seq<Dirent>, first: seq<RootEntry>, settled: seq<Option<seq<Dirent>>>, part: seq<Dirent>, code: byte)
    returns (out: seq<Option<seq<Dirent>>>)
    requires ExactUpTo(first, settled) && |settled| < |Dirs(ents)| && code != OK
    ensures var q := End(ClientAt(ents, settled, Some(part)), code);
            Placed(q, ents, first, out, false) && q.sent == [Handed(|ents|)]
  {
    EndClient(ents, settled, Some(part), code);
    out := settled + [None] + Nones(|Dirs(ents)| - |settled| - 1);
  }

  /** Splits what arrived after a marker into the entries of its section and the rest. */
  lemma SplitSection(got: seq<Rec>, m: Rec, es: seq<Dirent>, rest: seq<Rec>) returns (part: seq<Dirent>, got2: seq<Rec>)
    requires got <= [m] + Conts(es) + rest && got != []
    ensures got == [m] + (Conts(part) + got2) && part <= es && got2 <= rest
    ensures part != es ==> got2 == [] && got != [m] + Conts(es) + rest
    ensures got == [m] + Conts(es) + rest ==> got2 == rest
  {
    var all := [m] + Conts(es) + rest;
    var n := Min(|got| - 1, |es|);
    part, got2 := es[..n], got[1 + n..];
    assert forall i :: 0 <= i < |got| ==> got[i] == all[i];
    if n == |es| { assert part == es; }
  }

  lemma MarkerStep(p: Parser, failed: bool, got: seq<Rec>, got1: seq<Rec>)
    requires !p.done && got == [Marker(failed)] + got1
    ensures Steps(p, got) == Steps(OnMarker(p, !failed), got1)
  {
    assert got[1..] == got1;
  }

  lemma SectionStep(ents: seq<Dirent>, settled: seq<Option<seq<Dirent>>>, part: seq<Dirent>, got2: seq<Rec>)
    requires |settled| < |Dirs(ents)|
    ensures Steps(ClientAt(ents, settled, Some([])), Conts(part) + got2) == Steps(ClientAt(ents, settled, Some(part)), got2)
  {
    StepsAppend(ClientAt(ents, settled, Some([])), Conts(part), got2);
    EntriesClient(ents, settled, [], part);
    assert [] + part == part;
  }

  /**
   The client on any prefix `got` of the sections that reaches it before the
   terminal code: the j-th directory, in the client's own count, gets the listing
   of the j-th directory in the server's count, or none.
   */
  lemma {:induction false} SectionsRun(ents: seq<Dirent>, first: seq<RootEntry>, idx: nat, used: nat, failed: bool,
                                       rs: seq<Option<seq<Dirent>>>, cur: Option<seq<Dirent>>, got: seq<Rec>)
    returns (out: seq<Option<seq<Dirent>>>)
    requires AtSection(first, idx, used, failed, rs, cur) && used <= |Dirs(ents)|
    requires var reply := PrefetchReply(first, idx, used, failed);
             got <= reply.recs && (reply.code == OK ==> got == reply.recs)
    ensures var reply := PrefetchReply(first, idx, used, failed);
            var q := End(Steps(ClientAt(ents, rs, cur), got), reply.code);
            && Placed(q, ents, first, out, reply.code == OK)
            && q.sent == [if cur.Some? || got != [] || reply.code == OK then Handed(|ents|) else Failed(reply.code)]
    decreases |first| - idx, 2
  {
    if idx < |first| && used < MAX_PREFETCH_DIRS && !first[idx].isDir {
      out := SectionsRun(ents, first, idx + 1, used, failed, rs, cur, got);
    } else if got == [] {
      out := EndRun(ents, first, idx, used, failed, rs, cur, PrefetchReply(first, idx, used, failed).code);
    } else {
      var Streams(es, complete) := OutcomeOf(first[idx].child);
      var rest := PrefetchReply(first, idx + 1, used + 1, !complete);
      out := OneSection(ents, first, idx, used, failed, rs, cur, got, es, complete, rest);
    }
  }

  /** The marker and the entries of one section, as far as they arrived. */
  lemma EnterSection(ents: seq<Dirent>, rs: seq<Option<seq<Dirent>>>, cur: Option<seq<Dirent>>, failed: bool,
                     got: seq<Rec>, es: seq<Dirent>, rest: seq<Rec>)
    returns (part: seq<Dirent>, got2: seq<Rec>)
    requires |rs| + (if cur.Some? then 1 else 0) <= |Dirs(ents)| && (cur.None? ==> rs == [])
    requires got <= [Marker(failed)] + Conts(es) + rest && got != []
    ensures part <= es && got2 <= rest
    ensures part != es ==> got2 == [] && got != [Marker(failed)] + Conts(es) + rest
    ensures got == [Marker(failed)] + Conts(es) + rest ==> got2 == rest
    ensures var settled, q := Settle(rs, cur, !failed), Steps(ClientAt(ents, rs, cur), got);
            if |settled| == |Dirs(ents)| then q.done && q.list == ListAt(ents, settled) && q.sent == [Handed(|ents|)]
            else q == Steps(ClientAt(ents, settled, Some(part)), got2)
  {
    var settled := Settle(rs, cur, !failed);
    MarkerClient(ents, rs, cur, !failed);
    part, got2 := SplitSection(got, Marker(failed), es, rest);
    MarkerStep(ClientAt(ents, rs, cur), failed, got, Conts(part) + got2);
    if |settled| < |Dirs(ents)| {
      SectionStep(ents, settled, part, got2);
    }
  }

  lemma {:induction false} OneSection(ents: seq<Dirent>, first: seq<RootEntry>, idx: nat, used: nat, failed: bool,
                                      rs: seq<Option<seq<Dirent>>>, cur: Option<seq<Dirent>>, got: seq<Rec>,
                                      es: seq<Dirent>, complete: bool, rest: Reply)
    returns (out: seq<Option<seq<Dirent>>>)
    requires AtSection(first, idx, used, failed, rs, cur) && used <= |Dirs(ents)|
    requires idx < |first| && used < MAX_PREFETCH_DIRS && first[idx].isDir
    requires OutcomeOf(first[idx].child) == Streams(es, complete)
    requires rest == PrefetchReply(first, idx + 1, used + 1, !complete)
    requires var recs := [Marker(failed)] + Conts(es) + rest.recs;
             got <= recs && (rest.code == OK ==> got == recs) && got != []
    ensures var q := End(Steps(ClientAt(ents, rs, cur), got), rest.code);
            Placed(q, ents, first, out, rest.code == OK) && q.sent == [Handed(|ents|)]
    decreases |first| - idx, 1
  {
    var settled := Settle(rs, cur, !failed);
    SettleExact(first, idx, used, failed, rs, cur);
    var part, got2 := EnterSection(ents, rs, cur, failed, got, es, rest.recs);
    if |settled| == |Dirs(ents)| {
      out := settled;
      OverrunPlaced(Steps(ClientAt(ents, rs, cur), got), ents, first, settled, rest.code);
    } else if part != es {
      out := CutSection(ents, first, settled, part, rest.code);
    } else {
      out := LaterSections(ents, first, idx, used, settled, es, complete, got2, rest);
    }
  }

  lemma {:induction false} LaterSections(ents: seq<Dirent>, first: seq<RootEntry>, idx: nat, used: nat,
                                         settled: seq<Option<seq<Dirent>>>, es: seq<Dirent>, complete: bool, got: seq<Rec>, rest: Reply)
    returns (out: seq<Option<seq<Dirent>>>)
    requires idx < |first| && first[idx].isDir && |ServerDirs(first, idx)| == used == |settled| < MAX_PREFETCH_DIRS
    requires OutcomeOf(first[idx].child) == Streams(es, complete) && ExactUpTo(first, settled) && used < |Dirs(ents)|
    requires rest == PrefetchReply(first, idx + 1, used + 1, !complete)
    requires got <= rest.recs && (rest.code == OK ==> got == rest.recs)
    ensures var q := End(Steps(ClientAt(ents, settled, Some(es)), got), rest.code);
            Placed(q, ents, first, out, rest.code == OK) && q.sent == [Handed(|ents|)]
    decreases |first| - idx, 0
  {
    NextSection(first, idx, used, settled, es, complete);
    out := SectionsRun(ents, first, idx + 1, used + 1, !complete, settled, Some(es), got);
  }

  /** The client had no directory left for the section: it is finished, with what it had. */
  lemma OverrunPlaced(q: Parser, ents: seq<Dirent>, first: seq<RootEntry>, settled: seq<Option<seq<Dirent>>>, code: byte)
    requires q.done && q.list == ListAt(ents, settled) && |settled| == |Dirs(ents)| && ExactUpTo(first, settled)
    ensures End(q, code) == q && Placed(q, ents, first, settled, true)
  {
  }

  lemma NextSection(first: seq<RootEntry>, idx: nat, used: nat, settled: seq<Option<seq<Dirent>>>, es: seq<Dirent>, complete: bool)
    requires idx < |first| && first[idx].isDir && |ServerDirs(first, idx)| == used == |settled| < MAX_PREFETCH_DIRS
    requires OutcomeOf(first[idx].child) == Streams(es, complete) && ExactUpTo(first, settled)
    ensures AtSection(first, idx + 1, used + 1, !complete, settled, Some(es))
  {
    SectionListing(first, idx, used);
  }

  // ---- Main results ----

  /** An error that overtakes the root section: the caller gets the error and no list. */
  lemma RootCut(recs: seq<Dirent>, got: seq<Rec>, code: byte)
    requires got <= Conts(recs) && code != OK
    ensures End(Steps(INIT, got), code).sent == [Failed(code)] && End(Steps(INIT, got), code).done
  {
    var n := |got|;
    assert got == Conts(recs[..n]);
    RootClient(recs, n);
    EndClient(recs[..n], [], None, code);
  }

  /** The client after the root section and the part `got` of the sections that arrived. */
  lemma RootThenSections(ents: seq<Dirent>, first: seq<RootEntry>, got: seq<Rec>) returns (out: seq<Option<seq<Dirent>>>)
    requires var reply := PrefetchReply(first, 0, 0, false); got <= reply.recs && (reply.code == OK ==> got == reply.recs)
    ensures var reply := PrefetchReply(first, 0, 0, false);
            var q := End(Steps(INIT, Conts(ents) + got), reply.code);
            && Placed(q, ents, first, out, reply.code == OK)
            && q.sent == [if got != [] || reply.code == OK then Handed(|ents|) else Failed(reply.code)]
  {
    RootClient(ents, |ents|);
    assert ents[..|ents|] == ents;
    StepsAppend(INIT, Conts(ents), got);
    out := SectionsRun(ents, first, 0, 0, false, [], None, got);
  }

  /** The root listing as the client sees it, and the directories the server may prefetch. */
  function RootOf(results: seq<Read<RootEntry>>): seq<Dirent> { Ents(Entries(results)) }

  function Prefetchable(results: seq<Read<RootEntry>>): seq<RootEntry> {
    if |FirstBatch(results)| > MAX_ROOT_FOR_PREFETCH then [] else FirstBatch(results)
  }

  /** The list is the root listing, and every child in it is what the server sent for the directory of that rank. */
  ghost predicate HoldsRoot(results: seq<Read<RootEntry>>, list: seq<Item>) {
    var ents := RootOf(results);
    && |list| == |ents|
    && forall i :: 0 <= i < |ents| ==> list[i].ent == ents[i] && ChildTruthful(results, list, i)
  }

  ghost predicate ChildTruthful(results: seq<Read<RootEntry>>, list: seq<Item>, i: nat)
    requires i < |list| == |RootOf(results)|
  {
    var ents := RootOf(results);
    list[i].child.Some? ==>
      IsModeDir(ents[i].mode) && list[i].child == Listing(Prefetchable(results), Rank(ents, i))
  }

  /** No listing the server completed is missing. */
  ghost predicate HoldsAll(results: seq<Read<RootEntry>>, list: seq<Item>) {
    var ents := RootOf(results);
    |list| == |ents| &&
    forall i :: 0 <= i < |ents| && IsModeDir(ents[i].mode) ==>
      list[i].child == Listing(Prefetchable(results), Rank(ents, i))
  }

  lemma PlacedHolds(q: Parser, results: seq<Read<RootEntry>>, out: seq<Option<seq<Dirent>>>, exact: bool)
    requires Placed(q, RootOf(results), Prefetchable(results), out, exact)
    ensures HoldsRoot(results, q.list) && (exact ==> HoldsAll(results, q.list))
  {
    var ents := RootOf(results);
    ModeDirsFacts(ents, |ents|);
    forall i | 0 <= i < |ents|
      ensures q.list[i].ent == ents[i] && ChildTruthful(results, q.list, i)
      ensures exact && IsModeDir(ents[i].mode) ==> q.list[i].child == Listing(Prefetchable(results), Rank(ents, i))
    {
      assert q.list[i] == ItemAt(ents, out, i);
    }
  }

  /**
   What the caller of ReadDirPlus gets, for every behaviour of the file system and
   every packing of the records. Either the server's error code, or the complete
   root listing in order, in which the child of the j-th directory, as the client
   counts, is absent or is the complete listing of the j-th directory as the server
   counts. When the server ended without an error, no listing is lost.
   */
  lemma EndToEnd(results: seq<Read<RootEntry>>, mark: byte, wire: seq<seq<byte>>, frames: seq<seq<Rec>>, last: seq<Rec>)
    requires Carries(wire, mark, ReplyTo(results), frames, last)
    ensures Messages(wire)
    ensures var q := ParseAll(INIT, wire);
            && q.done && |q.sent| == 1
            && match q.sent[0]
               case Failed(code) => code == ReplyTo(results).code != OK
               case Handed(n) => n == |q.list| && FirstError(results).None? && HoldsRoot(results, q.list)
    ensures ReplyTo(results).code == OK ==>
              var q := ParseAll(INIT, wire); q.sent[0].Handed? && HoldsAll(results, q.list)
  {
    var reply := ReplyTo(results);
    ReplyCode(results);
    var got := WireIsSteps(wire, mark, reply, frames, last);
    if FirstError(results).Some? {
      EndsInError(results, got);
    } else {
      EndsWithList(results, got);
    }
  }

  /** A root read that fails: the caller gets its code. */
  lemma EndsInError(results: seq<Read<RootEntry>>, got: seq<Rec>)
    requires FirstError(results).Some? && got <= ReplyTo(results).recs
    ensures var q := End(Steps(INIT, got), ReplyTo(results).code); q.done && q.sent == [Failed(ReplyTo(results).code)]
    ensures ReplyTo(results).code != OK
  {
    ReplyCode(results);
    if results[0].ReadErr? { assert got == []; }
    assert got <= Conts(Ents(Delivered(results)));
    RootCut(Ents(Delivered(results)), got, ReplyTo(results).code);
  }

  /** Root reads that succeed: the caller gets the root listing, or an error that overtook it. */
  lemma EndsWithList(results: seq<Read<RootEntry>>, got: seq<Rec>)
    requires FirstError(results).None? && got <= ReplyTo(results).recs && (ReplyTo(results).code == OK ==> got == ReplyTo(results).recs)
    ensures var reply, q := ReplyTo(results), End(Steps(INIT, got), ReplyTo(results).code);
            && q.done && |q.sent| == 1
            && (q.sent[0].Failed? ==> q.sent[0].code == reply.code != OK)
            && (q.sent[0].Handed? ==> q.sent[0].len == |q.list| && HoldsRoot(results, q.list))
            && (reply.code == OK ==> q.sent[0].Handed? && HoldsAll(results, q.list))
  {
    var reply, all := ReplyTo(results), Conts(RootOf(results));
    DeliveredWithoutError(results);
    var ents, first := RootOf(results), Prefetchable(results);
    var sections := PrefetchReply(first, 0, 0, false);
    assert reply == Reply(all + sections.recs, sections.code) by { assert all + [] == all; }
    if |got| < |all| {
      assert got <= all;
      RootCut(ents, got, reply.code);
    } else {
      var rest := got[|all|..];
      assert got == all + rest && rest <= sections.recs;
      var out := RootThenSections(ents, first, rest);
      PlacedHolds(End(Steps(INIT, got), reply.code), results, out, reply.code == OK);
    }
  }

  lemma ReplyCode(results: seq<Read<RootEntry>>)
    ensures ReplyTo(results).code != PARTIAL
    ensures FirstError(results).Some? ==> ReplyTo(results).code == FirstError(results).value
  {
    SectionsCode(FirstBatch(results), 0, 0, false);
  }

  lemma {:induction false} SectionsCode(first: seq<RootEntry>, idx: nat, used: nat, failed: bool)
    requires idx <= |first|
    ensures PrefetchReply(first, idx, used, failed).code in {OK, ERROR_IO}
    decreases |first| - idx
  {
    if idx < |first| && used < MAX_PREFETCH_DIRS {
      if !first[idx].isDir {
        SectionsCode(first, idx + 1, used, failed);
      } else if OutcomeOf(first[idx].child).Streams? {
        SectionsCode(first, idx + 1, used + 1, !OutcomeOf(first[idx].child).complete);
      }
    }
  }

  // ---- Soundness and completeness ----

  /** For every directory the server prefetches, client and server mean the same entry. */
  predicate Aligned(ents: seq<Dirent>, first: seq<RootEntry>) {
    forall j :: 0 <= j < |ServerDirs(first, |first|)| && j < MAX_PREFETCH_DIRS && j < |Dirs(ents)| ==>
      Dirs(ents)[j] == ServerDirs(first, |first|)[j]
  }

  /** Every cached child is the complete listing of the directory it is attached to. */
  ghost predicate Sound(root: seq<RootEntry>, list: seq<Item>) {
    |list| == |root| && forall i :: 0 <= i < |list| && list[i].child.Some? ==> root[i].isDir && IsListing(root[i].child, list[i].child.value)
  }

  /** The directory opened, could be read to the end, and holds exactly these entries. */
  ghost predicate IsListing(dir: Dir, es: seq<Dirent>) {
    dir.opens && FirstError(dir.results).None? && es == Entries(dir.results)
  }

  /** A complete section is the whole directory. */
  lemma CompleteIsWhole(dir: Dir, es: seq<Dirent>)
    requires OutcomeOf(dir) == Streams(es, true)
    ensures IsListing(dir, es)
  {
    var all := Entries(dir.results);
    assert all[..|all|] == all;
  }

  lemma FirstIsPrefix(results: seq<Read<RootEntry>>)
    ensures FirstBatch(results) <= Entries(results)
  {}

  lemma SoundIfAligned(results: seq<Read<RootEntry>>, list: seq<Item>)
    requires HoldsRoot(results, list) && Aligned(RootOf(results), Prefetchable(results))
    ensures Sound(Entries(results), list)
  {
    var ents, first := RootOf(results), Prefetchable(results);
    FirstIsPrefix(results);
    ModeDirsFacts(ents, |ents|);
    ServerDirsFacts(first, |first|);
    forall i | 0 <= i < |list| && list[i].child.Some?
      ensures Entries(results)[i].isDir && IsListing(Entries(results)[i].child, list[i].child.value)
    {
      assert ChildTruthful(results, list, i);
      var j := Rank(ents, i);
      assert Dirs(ents)[j] == i;
      assert ServerDirs(first, |first|)[j] == i;
      assert first[i] == Entries(results)[i];
      CompleteIsWhole(first[i].child, list[i].child.value);
    }
  }

  /** DirEntry.IsDir agrees with the transmitted mode. */
  predicate TypesAgree(first: seq<RootEntry>) {
    forall i :: 0 <= i < |first| ==> (first[i].isDir <==> IsModeDir(first[i].ent.mode))
  }

  lemma {:induction false} AgreeingPrefix(ents: seq<Dirent>, first: seq<RootEntry>, n: nat)
    requires Ents(first) <= ents && TypesAgree(first) && n <= |first|
    ensures ModeDirs(ents, n) == ServerDirs(first, n)
  {
    if n > 0 {
      AgreeingPrefix(ents, first, n - 1);
      assert ents[n - 1] == Ents(first)[n - 1];
    }
  }

  lemma {:induction false} ModeDirsGrow(ents: seq<Dirent>, m: nat, n: nat)
    requires m <= n <= |ents|
    ensures ModeDirs(ents, m) <= ModeDirs(ents, n)
  {
    if m < n { ModeDirsGrow(ents, m, n - 1); }
  }

  lemma PrefetchableIsPrefix(results: seq<Read<RootEntry>>)
    ensures Prefetchable(results) <= Entries(results) && Ents(Prefetchable(results)) <= RootOf(results)
  {
    FirstIsPrefix(results);
  }

  lemma AgreeingTypesAlign(results: seq<Read<RootEntry>>)
    requires TypesAgree(Prefetchable(results))
    ensures Aligned(RootOf(results), Prefetchable(results))
    ensures ServerDirs(Prefetchable(results), |Prefetchable(results)|) <= Dirs(RootOf(results))
  {
    var ents, first := RootOf(results), Prefetchable(results);
    PrefetchableIsPrefix(results);
    AgreeingPrefix(ents, first, |first|);
    ModeDirsGrow(ents, |first|, |ents|);
  }

  /**
   Soundness: if the server's idea of what is a directory agrees with the mode it
   transmits, then whenever the caller gets a list it is the whole root listing,
   and every child in it is absent or the complete listing of that very directory.
   */
  lemma Soundness(results: seq<Read<RootEntry>>, mark: byte, wire: seq<seq<byte>>, frames: seq<seq<Rec>>, last: seq<Rec>)
    requires Carries(wire, mark, ReplyTo(results), frames, last) && TypesAgree(Prefetchable(results))
    ensures Messages(wire)
    ensures var q := ParseAll(INIT, wire);
            |q.sent| == 1 && (q.sent[0].Handed? ==>
              && |q.list| == |Entries(results)| && (forall i :: 0 <= i < |q.list| ==> q.list[i].ent == Entries(results)[i].ent)
              && Sound(Entries(results), q.list))
  {
    EndToEnd(results, mark, wire, frames, last);
    AgreeingTypesAlign(results);
    if ParseAll(INIT, wire).sent[0].Handed? {
      SoundIfAligned(results, ParseAll(INIT, wire).list);
    }
  }

  /** Nothing fails: every read succeeds and no directory is over its limit. */
  ghost predicate Healthy(results: seq<Read<RootEntry>>) {
    && FirstError(results).None? && FirstBatch(results) == Entries(results)
    && |Entries(results)| <= MAX_ROOT_FOR_PREFETCH
    && forall i :: 0 <= i < |Entries(results)| && Entries(results)[i].isDir ==> WholeDir(Entries(results)[i].child)
  }

  ghost predicate WholeDir(dir: Dir) {
    dir.opens && FirstError(dir.results).None? && |Entries(dir.results)| <= MAX_DIR_ENTRIES
  }

  lemma WholeDirCompletes(dir: Dir)
    requires WholeDir(dir)
    ensures OutcomeOf(dir) == Streams(Entries(dir.results), true)
  {
    var all := Entries(dir.results);
    assert all[..|all|] == all;
  }

  lemma {:induction false} HealthySectionsEndOK(first: seq<RootEntry>, idx: nat, used: nat)
    requires idx <= |first| && forall i :: 0 <= i < |first| && first[i].isDir ==> WholeDir(first[i].child)
    ensures PrefetchReply(first, idx, used, false).code == OK
    decreases |first| - idx
  {
    if idx < |first| && used < MAX_PREFETCH_DIRS {
      if first[idx].isDir {
        WholeDirCompletes(first[idx].child);
        HealthySectionsEndOK(first, idx + 1, used + 1);
      } else {
        HealthySectionsEndOK(first, idx + 1, used);
      }
    }
  }

  /**
   Completeness: without failures, at most 500 root entries and 1000 entries per
   directory, the caller gets the root listing, exactly the first 32 directories
   carry their full listing and the others carry none.
   */
  lemma Completeness(results: seq<Read<RootEntry>>, mark: byte, wire: seq<seq<byte>>, frames: seq<seq<Rec>>, last: seq<Rec>)
    requires Carries(wire, mark, ReplyTo(results), frames, last)
    requires Healthy(results) && TypesAgree(Entries(results))
    ensures Messages(wire)
    ensures var q, root, ents := ParseAll(INIT, wire), Entries(results), RootOf(results);
            && q.sent == [Handed(|root|)] && |q.list| == |root|
            && forall i :: 0 <= i < |root| ==>
                 && q.list[i].ent == root[i].ent
                 && q.list[i].child ==
                    if root[i].isDir && Rank(ents, i) < MAX_PREFETCH_DIRS then Some(Entries(root[i].child.results)) else None
  {
    EndToEnd(results, mark, wire, frames, last);
    HealthySectionsEndOK(FirstBatch(results), 0, 0);
    AgreeingTypesAlign(results);
    var q, root, ents := ParseAll(INIT, wire), Entries(results), RootOf(results);
    AgreeingPrefix(ents, root, |root|);
    ModeDirsFacts(ents, |ents|);
    forall i | 0 <= i < |root|
      ensures q.list[i].child ==
              if root[i].isDir && Rank(ents, i) < MAX_PREFETCH_DIRS then Some(Entries(root[i].child.results)) else None
    {
      assert ChildTruthful(results, q.list, i);
      if root[i].isDir {
        WholeDirCompletes(root[i].child);
        assert ServerDirs(root, |root|)[Rank(ents, i)] == i;
      }
    }
  }

  /** Both ends together: the server streams, the client parses, the caller gets `sent` and the list. */
  method Call(results: seq<Read<RootEntry>>, mark: byte) returns (sent: RootResult, list: seq<Item>)
    requires DirServer.Conforming(results) && AllNamesFit(results)
    ensures match sent
            case Failed(code) => code == ReplyTo(results).code != OK
            case Handed(n) => n == |list| && FirstError(results).None? && HoldsRoot(results, list)
    ensures ReplyTo(results).code == OK ==> sent.Handed? && HoldsAll(results, list)
    ensures sent.Handed? && TypesAgree(Prefetchable(results)) ==> Sound(Entries(results), list)
    ensures forall i :: 0 <= i < |list| ==> !list[i].ready.Pending?
  {
    var server := new DirStreamer(mark);
    ghost var last := server.Serve(results);
    EndToEnd(results, mark, server.wire, server.frames, last);
    var client := new ReadDirPlusParser();
    client.Parse(server.wire);
    sent, list := client.sent[0], client.list;
    if sent.Handed? && TypesAgree(Prefetchable(results)) {
      Soundness(results, mark, server.wire, server.frames, last);
    }
  }

  // ---- How much of a reply the client reads ----

  /** The directories among the entries before the first marker. */
  function DirsBefore(rs: seq<Rec>): nat {
    if rs == [] || !rs[0].Continue? then 0
    else (if IsModeDir(rs[0].d.mode) then 1 else 0) + DirsBefore(rs[1..])
  }

  /** The parser gives up exactly when it meets more sections than it has seen directories. */
  lemma {:induction false} DoneIff(p: Parser, rs: seq<Rec>)
    requires !p.done
    ensures Steps(p, rs).done <==> Markers(rs) > |p.pending| + if p.section.RootSection? then DirsBefore(rs) else 0
    decreases |rs|
  {
    if rs != [] {
      var q := StepRec(p, rs[0]);
      if rs[0].Continue? {
        DoneIff(q, rs[1..]);
      } else {
        MarkerPending(p, rs[0].Prefetch?);
        if !q.done {
          DoneIff(q, rs[1..]);
        }
      }
    }
  }

  lemma MarkerPending(p: Parser, commit: bool)
    requires !p.done
    ensures var q := OnMarker(p, commit);
            if p.pending == [] then q.done else !q.done && q.section.PrefetchSection? && |q.pending| == |p.pending| - 1
  {
    if p.pending == [] {
      var q := Flush(Handover(p), commit).(section := PrefetchSection);
      assert CloseAll(q.(cur := -1), []) == q.(cur := -1);
    }
  }

  lemma GivesUpIff(rs: seq<Rec>)
    ensures Steps(INIT, rs).done <==> Markers(rs) > DirsBefore(rs)
  {
    DoneIff(INIT, rs);
  }

  lemma {:induction false} ContsDirsBefore(ds: seq<Dirent>, rest: seq<Rec>)
    requires rest != [] ==> !rest[0].Continue?
    ensures DirsBefore(Conts(ds) + rest) == |Dirs(ds)|
  {
    if ds == [] {
      assert Conts(ds) + rest == rest;
    } else {
      var rs := Conts(ds) + rest;
      assert rs[1..] == Conts(ds[1..]) + rest;
      ContsDirsBefore(ds[1..], rest);
      ModeDirsCount(ds, |ds|);
    }
  }

  lemma {:induction false} ModeDirsCount(ds: seq<Dirent>, n: nat)
    requires 0 < n <= |ds|
    ensures |ModeDirs(ds, n)| == (if IsModeDir(ds[0].mode) then 1 else 0) + |ModeDirs(ds[1..], n - 1)|
  {
    if n > 1 { ModeDirsCount(ds, n - 1); }
  }

  /** Sections that are announced: at most one per directory of the server, at most 32; all of them if nothing fails. */
  lemma {:induction false} SectionMarkers(first: seq<RootEntry>, idx: nat, used: nat, failed: bool)
    requires idx <= |first| && |ServerDirs(first, idx)| == used <= MAX_PREFETCH_DIRS
    ensures var reply, all := PrefetchReply(first, idx, used, failed), Min(|ServerDirs(first, |first|)|, MAX_PREFETCH_DIRS);
            && used + Markers(reply.recs) <= all && (reply.code == OK ==> used + Markers(reply.recs) == all)
            && (reply.recs != [] ==> !reply.recs[0].Continue?)
    decreases |first| - idx
  {
    ServerDirsGrow(first, idx, |first|);
    if idx < |first| && used < MAX_PREFETCH_DIRS {
      if !first[idx].isDir {
        SectionMarkers(first, idx + 1, used, failed);
      } else if OutcomeOf(first[idx].child).Streams? {
        var Streams(es, complete) := OutcomeOf(first[idx].child);
        SectionMarkers(first, idx + 1, used + 1, !complete);
        var rest := PrefetchReply(first, idx + 1, used + 1, !complete).recs;
        OneMarker(Marker(failed), es, rest);
      } else {
        ServerDirsGrow(first, idx + 1, |first|);
      }
    }
  }

  lemma OneMarker(m: Rec, es: seq<Dirent>, rest: seq<Rec>)
    requires !m.Continue?
    ensures Markers([m] + Conts(es) + rest) == 1 + Markers(rest)
  {
    MarkersAppend([m] + Conts(es), rest);
    MarkersAppend([m], Conts(es));
    ContsHaveNoMarkers(es);
    assert [m][1..] == [];
  }

  /** The sections a reply without a root error announces, and the directories its root shows the client. */
  lemma ReplyMarkers(results: seq<Read<RootEntry>>)
    ensures var reply, first := ReplyTo(results), Prefetchable(results);
            var all := Min(|ServerDirs(first, |first|)|, MAX_PREFETCH_DIRS);
            && Markers(reply.recs) <= all && (FirstError(results).Some? ==> Markers(reply.recs) == 0)
            && (reply.code == OK ==> Markers(reply.recs) == all)
  {
    var first := Prefetchable(results);
    ContsHaveNoMarkers(Ents(Delivered(results)));
    if FirstError(results).None? {
      DeliveredWithoutError(results);
      var sections := PrefetchReply(first, 0, 0, false);
      SectionMarkers(first, 0, 0, false);
      MarkersAppend(Conts(RootOf(results)), sections.recs);
      assert ReplyTo(results).recs == Conts(RootOf(results)) + sections.recs by { assert Conts(RootOf(results)) + [] == Conts(RootOf(results)); }
    } else {
      ReplyCode(results);
    }
  }

  /** Whatever part of a reply has arrived: once it holds a marker, the client has seen the whole root. */
  lemma RootSeen(results: seq<Read<RootEntry>>, got: seq<Rec>)
    requires got <= ReplyTo(results).recs && Markers(got) > 0
    ensures DirsBefore(got) == |Dirs(RootOf(results))|
  {
    var root := Conts(RootOf(results));
    ReplyMarkers(results);
    MarkersAppend(got, ReplyTo(results).recs[|got|..]);
    assert got + ReplyTo(results).recs[|got|..] == ReplyTo(results).recs;
    DeliveredWithoutError(results);
    var sections := PrefetchReply(Prefetchable(results), 0, 0, false).recs;
    assert ReplyTo(results).recs == root + sections by { assert root + [] == root; }
    if |got| <= |root| {
      assert root == got + root[|got|..];
      EntriesHaveNoMarkers(RootOf(results), got, root[|got|..]);
    } else {
      SectionMarkers(Prefetchable(results), 0, 0, false);
      var rest := got[|root|..];
      assert got == root + rest && rest[0] == sections[0];
      ContsDirsBefore(RootOf(results), rest);
    }
  }

  // ---- Exactly when attribution goes wrong ----

  /** A root listing without its children: entries and their IsDir answers. */
  function WithChildren(es: seq<(Dirent, bool)>, kids: seq<Dir>): (root: seq<RootEntry>)
    requires |kids| == |es|
    ensures |root| == |es|
  {
    seq(|es|, i requires 0 <= i < |es| => RootEntry(es[i].0, es[i].1, kids[i]))
  }

  function Shape(es: seq<(Dirent, bool)>): seq<RootEntry> {
    WithChildren(es, seq(|es|, _ => Dir(true, [])))
  }

  /** The client's final list when the whole reply to a listing read in one call reaches it. */
  function ClientList(root: seq<RootEntry>): seq<Item> {
    var reply := ReplyTo([Batch(root)]);
    End(Steps(INIT, reply.recs), reply.code).list
  }

  lemma OneBatch(root: seq<RootEntry>)
    ensures Entries([Batch(root)]) == root && FirstError([Batch(root)]).None? && FirstBatch([Batch(root)]) == root
    ensures Delivered([Batch(root)]) == root
  {
    assert [Batch(root)][1..] == [];
  }

  lemma {:induction false} DirsIgnoreChildren(es: seq<(Dirent, bool)>, kids: seq<Dir>, n: nat)
    requires |kids| == |es| && n <= |es|
    ensures ServerDirs(WithChildren(es, kids), n) == ServerDirs(Shape(es), n)
  {
    if n > 0 { DirsIgnoreChildren(es, kids, n - 1); }
  }

  /** The witness: every directory is empty except the one at `odd`, which holds one entry. */
  function OddOneOut(n: nat, odd: nat): (kids: seq<Dir>)
    ensures |kids| == n
  {
    seq(n, i => if i == odd then Dir(true, [Batch([Dirent([], 0, 0, 0, 0, 0)])]) else Dir(true, []))
  }

  lemma ClientListHolds(root: seq<RootEntry>)
    requires |root| <= MAX_ROOT_FOR_PREFETCH
    ensures HoldsRoot([Batch(root)], ClientList(root))
    ensures ReplyTo([Batch(root)]).code == OK ==> HoldsAll([Batch(root)], ClientList(root))
  {
    OneBatch(root);
    var results, ents := [Batch(root)], Ents(root);
    var sections := PrefetchReply(root, 0, 0, false);
    var reply := ReplyTo(results);
    assert reply == Reply(Conts(ents) + sections.recs, sections.code);
    var out := RootThenSections(ents, root, sections.recs);
    PlacedHolds(End(Steps(INIT, reply.recs), reply.code), results, out, reply.code == OK);
  }

  /**
   For a given root listing, prefetched children are always attached to the right
   directory, whatever they contain and however reading them fails, if and only if
   the client's and the server's directories agree rank by rank. A symbolic link
   transmitted as a directory, or a directory whose lookup failed, breaks it.
   */
  lemma AttributionIff(es: seq<(Dirent, bool)>)
    requires |es| <= MAX_ROOT_FOR_PREFETCH
    ensures (forall kids: seq<Dir> | |kids| == |es| :: Sound(WithChildren(es, kids), ClientList(WithChildren(es, kids))))
       <==> Aligned(Ents(Shape(es)), Shape(es))
  {
    var shape := Shape(es);
    if Aligned(Ents(shape), shape) {
      forall kids: seq<Dir> | |kids| == |es|
        ensures Sound(WithChildren(es, kids), ClientList(WithChildren(es, kids)))
      {
        var root := WithChildren(es, kids);
        OneBatch(root);
        ClientListHolds(root);
        DirsIgnoreChildren(es, kids, |es|);
        assert Ents(root) == Ents(shape);
        SoundIfAligned([Batch(root)], ClientList(root));
      }
    } else {
      var j :| 0 <= j < |ServerDirs(shape, |shape|)| && j < MAX_PREFETCH_DIRS && j < |Dirs(Ents(shape))|
               && Dirs(Ents(shape))[j] != ServerDirs(shape, |shape|)[j];
      Misattributed(es, j);
    }
  }

  /** Client and server disagree about directory number `j`: some contents end up under the wrong name. */
  lemma Misattributed(es: seq<(Dirent, bool)>, j: nat)
    requires |es| <= MAX_ROOT_FOR_PREFETCH && j < MAX_PREFETCH_DIRS
    requires j < |ServerDirs(Shape(es), |Shape(es)|)| && j < |Dirs(Ents(Shape(es)))|
    requires Dirs(Ents(Shape(es)))[j] != ServerDirs(Shape(es), |Shape(es)|)[j]
    ensures exists kids: seq<Dir> :: |kids| == |es| && !Sound(WithChildren(es, kids), ClientList(WithChildren(es, kids)))
  {
    var at, odd := Dirs(Ents(Shape(es)))[j], ServerDirs(Shape(es), |es|)[j];
    var kids := OddOneOut(|es|, odd);
    var root := WithChildren(es, kids);
    var ents := Ents(root);
    assert ents == Ents(Shape(es));
    DirsIgnoreChildren(es, kids, |es|);
    ServerDirsFacts(root, |root|);
    ModeDirsFacts(ents, |ents|);
    OneBatch(root);
    ClientListHolds(root);
    forall i | 0 <= i < |root| ensures WholeDir(root[i].child) {
      if i == odd { assert root[i].child.results[1..] == []; }
    }
    HealthySectionsEndOK(root, 0, 0);
    var list := ClientList(root);
    WholeDirCompletes(root[odd].child);
    WholeDirCompletes(root[at].child);
    var one := Dirent([], 0, 0, 0, 0, 0);
    assert root[odd].child.results == [Batch([one])] && [Batch([one])][1..] == [];
    assert Entries(root[odd].child.results) == [one];
    assert Listing(root, j) == Some([one]);
    assert list[at].child == Some([one]);
    assert Entries(root[at].child.results) == [];
    assert !Sound(root, list);
  }

  /** A link transmitted with the directory bit, listed before a real directory, is given that directory's entries. */
  lemma LinkStealsListing(link: Dirent, dir: Dirent, inside: Dirent)
    requires IsModeDir(link.mode) && IsModeDir(dir.mode)
    ensures var root := [RootEntry(link, false, Dir(true, [])), RootEntry(dir, true, Dir(true, [Batch([inside])]))];
            |ClientList(root)| == 2 && ClientList(root)[0].child == Some([inside]) && ClientList(root)[1].child == None
  {
    var kid := Dir(true, [Batch([inside])]);
    var root := [RootEntry(link, false, Dir(true, [])), RootEntry(dir, true, kid)];
    var ents := Ents(root);
    assert kid.results[1..] == [];
    assert Entries(kid.results) == [inside] && WholeDir(kid);
    WholeDirCompletes(kid);
    HealthySectionsEndOK(root, 0, 0);
    OneBatch(root);
    ClientListHolds(root);
    assert ServerDirs(root, 0) == [] && !root[0].isDir && root[1].isDir;
    assert ServerDirs(root, 1) == [];
    assert ServerDirs(root, 2) == ServerDirs(root, 1) + [1];
    assert ModeDirs(ents, 1) == [0];
    assert Rank(ents, 0) == 0 && Rank(ents, 1) == 1;
    assert HoldsAll([Batch(root)], ClientList(root));
  }
}
