/**
 The server side of ReadDirPlus: the root listing, then one section per child
 directory, packed into messages of at most 8192 bytes.

 What the file system will answer is data: a directory is the list of results its
 successive ReadDir calls give (end of list: io.EOF), so every failure schedule
 is covered. `Reply` says which records a request produces and how it ends;
 `DirStreamer` is the buffered implementation.
 */
module DirServer {
  import opened Bytes
  import opened Protocol
  import opened Codec
  import opened Buffers
  import opened Dirents

  type ErrCode = c: byte | c >= 2 witness 2

  datatype Read<+T> = Batch(entries: seq<T>) | ReadErr(partial: seq<T>, code: ErrCode)

  datatype Dir = Dir(opens: bool, results: seq<Read<Dirent>>)

  /** A root entry: what is transmitted, what DirEntry.IsDir says, and what opening it would show. */
  datatype RootEntry = RootEntry(ent: Dirent, isDir: bool, child: Dir)

  const MAX_ROOT_FOR_PREFETCH := 500
  const MAX_DIR_ENTRIES := 1000
  const MAX_PREFETCH_DIRS := 32

  /** The entries delivered before the first error. */
  function Entries<T>(results: seq<Read<T>>): seq<T> {
    if results == [] || results[0].ReadErr? then [] else results[0].entries + Entries(results[1..])
  }

  /** The same plus what the failing call itself returned. */
  function Delivered<T>(results: seq<Read<T>>): seq<T> {
    if results == [] then []
    else if results[0].ReadErr? then results[0].partial
    else results[0].entries + Delivered(results[1..])
  }

  lemma {:induction false} DeliveredWithoutError<T>(results: seq<Read<T>>)
    requires FirstError(results).None?
    ensures Delivered(results) == Entries(results)
  {
    if results != [] { DeliveredWithoutError(results[1..]); }
  }

  function FirstError<T>(results: seq<Read<T>>): Option<ErrCode> {
    if results == [] then None
    else if results[0].ReadErr? then Some(results[0].code)
    else FirstError(results[1..])
  }

  /** ReadDir never returns an empty batch without an error. */
  predicate Conforming<T>(results: seq<Read<T>>) {
    forall i :: 0 <= i < |results| ==> results[i].Batch? ==> results[i].entries != []
  }

  datatype Outcome = PrepareFails | Streams(entries: seq<Dirent>, complete: bool)

  /** What prefetching one directory sends, and whether it got to the end within the limit. */
  function OutcomeOf(dir: Dir): Outcome {
    if !dir.opens || (dir.results != [] && dir.results[0].ReadErr?) then PrepareFails
    else
      var all := Entries(dir.results);
      Streams(all[..Min(|all|, MAX_DIR_ENTRIES)], FirstError(dir.results).None? && |all| <= MAX_DIR_ENTRIES)
  }

  datatype Reply = Reply(recs: seq<Rec>, code: byte)

  function Marker(failed: bool): Rec { if failed then Skip else Prefetch }

  /** The sections for the root entries from `idx` on, after `used` directories; `failed`: the last one was cut short. */
  function PrefetchReply(first: seq<RootEntry>, idx: nat, used: nat, failed: bool): Reply
    requires idx <= |first|
    decreases |first| - idx
  {
    if idx == |first| || used >= MAX_PREFETCH_DIRS then Reply([], if failed then ERROR_IO else OK)
    else if !first[idx].isDir then PrefetchReply(first, idx + 1, used, failed)
    else
      match OutcomeOf(first[idx].child)
      case PrepareFails => Reply([], ERROR_IO)
      case Streams(es, complete) =>
        var rest := PrefetchReply(first, idx + 1, used + 1, !complete);
        Reply([Marker(failed)] + Conts(es) + rest.recs, rest.code)
  }

  function Ents(es: seq<RootEntry>): (ds: seq<Dirent>)
    ensures |ds| == |es| && forall i :: 0 <= i < |es| ==> ds[i] == es[i].ent
  {
    seq(|es|, i requires 0 <= i < |es| => es[i].ent)
  }

  function FirstBatch(results: seq<Read<RootEntry>>): seq<RootEntry> {
    if results == [] || results[0].ReadErr? then [] else results[0].entries
  }

  /** The whole answer to a ReadDirPlus of a directory that opened. */
  function ReplyTo(results: seq<Read<RootEntry>>): Reply {
    if results != [] && results[0].ReadErr? then Reply([], results[0].code)
    else
      var root := Conts(Ents(Delivered(results)));
      match FirstError(results)
      case Some(code) => Reply(root, code)
      case None =>
        if |FirstBatch(results)| > MAX_ROOT_FOR_PREFETCH then Reply(root, OK)
        else
          var sections := PrefetchReply(FirstBatch(results), 0, 0, false);
          Reply(root + sections.recs, sections.code)
  }

  /** Every name fits a message of its own. */
  predicate NamesFit(ds: seq<Dirent>) {
    forall i :: 0 <= i < |ds| ==> Fits(Continue(ds[i]))
  }

  predicate AllNamesFit(results: seq<Read<RootEntry>>) {
    && NamesFit(Ents(Delivered(results)))
    && ChildNamesFit(FirstBatch(results))
  }

  predicate ChildNamesFit(es: seq<RootEntry>) {
    forall i :: 0 <= i < |es| ==> NamesFit(Entries(es[i].child.results))
  }

  lemma {:induction false} EntriesAt<T>(results: seq<Read<T>>, k: nat)
    requires k <= |results| && forall i :: 0 <= i < k ==> results[i].Batch?
    ensures Entries(results) == Entries(results[..k]) + Entries(results[k..])
    ensures FirstError(results) == FirstError(results[k..]) && FirstError(results[..k]).None?
    decreases k
  {
    if k == 0 {
      assert results[0..] == results;
    } else {
      EntriesAt(results[1..], k - 1);
      assert results[..k][1..] == results[1..][..k - 1] && results[1..][k - 1..] == results[k..];
      Reassociate(results[0].entries, Entries(results[1..][..k - 1]), Entries(results[k..]));
    }
  }

  lemma EntriesSnoc<T>(results: seq<Read<T>>, k: nat)
    requires k < |results| && forall i :: 0 <= i <= k ==> results[i].Batch?
    ensures Entries(results[..k + 1]) == Entries(results[..k]) + results[k].entries
  {
    EntriesAt(results[..k + 1], k);
    assert results[..k + 1][..k] == results[..k] && results[..k + 1][k..] == [results[k]];
    assert Entries([results[k]]) == results[k].entries + Entries([results[k]][1..]);
  }

  function PartialMessages(mark: byte, frames: seq<seq<Rec>>): (ms: seq<seq<byte>>)
    ensures |ms| == |frames| && forall i :: 0 <= i < |frames| ==> ms[i] == Message(mark, PARTIAL, frames[i])
  {
    seq(|frames|, i requires 0 <= i < |frames| => Message(mark, PARTIAL, frames[i]))
  }

  /** writeRspError: mark, code, length-prefixed description. */
  function ErrorMessage(mark: byte, code: byte, desc: seq<byte>): seq<byte> {
    [mark, code] + EncodeStr(desc).bytes
  }

  predicate ShortMessages(wire: seq<seq<byte>>) {
    forall i :: 0 <= i < |wire| ==> 2 <= |wire[i]| <= MAX_MSG
  }

  /**
   How a reply travels: partial messages, then one terminal. A successful reply is
   sent completely; an error may overtake records that were still in the buffer.
   */
  ghost predicate Carries(wire: seq<seq<byte>>, mark: byte, reply: Reply, frames: seq<seq<Rec>>, last: seq<Rec>) {
    && AllFit(reply.recs)
    && if reply.code == OK
       then wire == PartialMessages(mark, frames) + [Message(mark, OK, last)] && Concat(frames) + last == reply.recs
       else |wire| == |frames| + 1 && wire[..|frames|] == PartialMessages(mark, frames)
            && |wire[|frames|]| >= 2 && wire[|frames|][1] == reply.code && Concat(frames) <= reply.recs
  }

  class DirStreamer {
    const mark: byte
    const rsp: Buffer
    var wire: seq<seq<byte>>
    ghost var frames: seq<seq<Rec>>
    ghost var held: seq<Rec>

    constructor (mark: byte)
      ensures Sent() && wire == [] && this.mark == mark && fresh(rsp) && fresh(rsp.data)
      ensures frames == [] && held == []
    {
      this.mark := mark;
      rsp := new Buffer(MAX_MSG);
      wire, frames, held := [], [], [];
    }

    /** Everything on the wire so far is partial messages that carry `frames`. */
    ghost predicate Sent()
      reads this, rsp
    {
      && rsp.Valid() && rsp.data.Length == MAX_MSG
      && wire == PartialMessages(mark, frames)
      && ShortMessages(wire)
    }

    /** A response is being filled: `held` are its records. */
    ghost predicate Filling()
      reads this, rsp, rsp.data
    {
      Sent() && rsp.Contents() == Message(mark, PARTIAL, held)
    }

    ghost function Emitted(): seq<Rec>
      reads this
    {
      Concat(frames) + held
    }

    method Begin()
      requires Sent()
      modifies this`held, rsp`written, rsp.data
      ensures Filling() && held == []
    {
      rsp.Reset();
      var _, _ := rsp.Write([mark, PARTIAL]);
      held := [];
      assert Message(mark, PARTIAL, []) == [mark, PARTIAL];
    }

    /** s.write(rsp.Done()) for a partial response. */
    method SendHeld()
      requires Filling()
      modifies this`wire, this`frames, this`held, rsp`written
      ensures Sent() && Emitted() == old(Emitted()) && held == [] && rsp.Contents() == []
    {
      var d := rsp.Done();
      wire := wire + [d];
      ConcatAppend(frames, [held]);
      ConcatOne(held);
      frames := frames + [held];
      held := [];
      assert Concat(frames) + [] == Concat(frames);
    }

    method Put(r: Rec)
      requires Filling() && rsp.written + |RecBytes(r)| <= MAX_MSG
      modifies this`held, rsp`written, rsp.data
      ensures Filling() && held == old(held) + [r]
    {
      MessageAppend(mark, held, r);
      var n, _ := rsp.Write(RecBytes(r));
      assert RecBytes(r)[..n] == RecBytes(r);
      held := held + [r];
    }

    /** Appends one record, sending the buffer first when it would overflow. */
    method Append(r: Rec)
      requires Filling() && Fits(r)
      modifies this`wire, this`frames, this`held, rsp`written, rsp.data
      ensures Filling() && Emitted() == old(Emitted()) + [r]
    {
      if r.Continue? { DirentEncodes(r.d); }
      if rsp.written + |RecBytes(r)| > MAX_MSG {
        SendHeld();
        Begin();
      }
      assert Concat(frames) + (held + [r]) == Concat(frames) + held + [r];
      Put(r);
    }

    /** Writes the entries of a batch until the directory exceeds its limit. */
    method WriteBatch(batch: seq<Dirent>, count: nat) returns (count': nat, over: bool)
      requires Filling() && AllFit(Conts(batch)) && count <= MAX_DIR_ENTRIES
      modifies this`wire, this`frames, this`held, rsp`written, rsp.data
      ensures Filling()
      ensures over <==> count + |batch| > MAX_DIR_ENTRIES
      ensures !over ==> count' == count + |batch|
      ensures Emitted() == old(Emitted()) + Conts(batch)[..Min(|batch|, MAX_DIR_ENTRIES - count)]
    {
      var recs := Conts(batch);
      count' := count;
      for i := 0 to |recs|
        invariant count' == count + i <= MAX_DIR_ENTRIES
        invariant Filling() && Emitted() == old(Emitted()) + recs[..i]
      {
        count' := count' + 1;
        if count' > MAX_DIR_ENTRIES {
          return count', true;
        }
        TakeOneMore(old(Emitted()), recs, i);
        Append(recs[i]);
      }
      over := false;
    }

    /** streamPrefetchDir: sends a prepared directory; `failed` when it was cut short. */
    method StreamDir(dir: Dir) returns (failed: bool)
      requires Filling() && OutcomeOf(dir).Streams? && NamesFit(Entries(dir.results))
      modifies this`wire, this`frames, this`held, rsp`written, rsp.data
      ensures Filling()
      ensures Emitted() == old(Emitted()) + Conts(OutcomeOf(dir).entries)
      ensures failed == !OutcomeOf(dir).complete
    {
      var results := dir.results;
      var k, count := 0, 0;
      var batch := [];
      if results != [] {
        k, batch := 1, results[0].entries;
        EntriesSnoc(results, 0);
      }
      ghost var prefix: seq<Dirent> := [];
      while true
        invariant At(results, k, prefix, batch) && count == |prefix| <= MAX_DIR_ENTRIES
        invariant Filling() && Emitted() == old(Emitted()) + Conts(prefix)
        decreases |results| - k
      {
        AtNames(results, k, prefix, batch);
        ContsTake(old(Emitted()), prefix, batch, Min(|batch|, MAX_DIR_ENTRIES - count));
        var over;
        count, over := WriteBatch(batch, count);
        if over {
          AtOver(dir, k, prefix, batch);
          return true;
        }
        assert batch[..|batch|] == batch;
        if k == |results| || results[k].ReadErr? {
          AtEnd(dir, k, prefix, batch);
          return k < |results|;
        }
        AtNext(results, k, prefix, batch);
        prefix := prefix + batch;
        batch := results[k].entries;
        k := k + 1;
      }
      assert false;
    }

    /** nextPrefetchDir: the next directory that can be opened and read, counting every attempt in `used'`. */
    method NextDir(first: seq<RootEntry>, start: nat, used: nat) returns (found: Option<nat>, next: nat, used': nat, err: bool)
      requires start <= |first|
      ensures start <= next <= |first| && used <= used'
      ensures err ==> found.None? && forall f :: PrefetchReply(first, start, used, f) == Reply([], ERROR_IO)
      ensures !err && found.None? ==>
                && (next == |first| || used' >= MAX_PREFETCH_DIRS) && used' == used
                && forall f :: PrefetchReply(first, start, used, f) == Reply([], if f then ERROR_IO else OK)
      ensures found.Some? ==>
                && start <= found.value < next == found.value + 1 && used' == used + 1
                && OutcomeOf(first[found.value].child).Streams?
                && forall f :: PrefetchReply(first, start, used, f) ==
                     Sectioned(f, OutcomeOf(first[found.value].child), first, next, used')
    {
      used' := used;
      for i := start to |first|
        invariant used' == used
        invariant forall f :: PrefetchReply(first, start, used, f) == PrefetchReply(first, i, used, f)
      {
        if used' >= MAX_PREFETCH_DIRS {
          return None, i, used', false;
        }
        if first[i].isDir {
          used' := used' + 1;
          if OutcomeOf(first[i].child).PrepareFails? {
            return None, i + 1, used', true;
          }
          return Some(i), i + 1, used', false;
        }
      }
      return None, |first|, used', false;
    }

    method SendTerminal(code: byte, desc: seq<byte>)
      requires Sent() && |desc| <= MAX_MSG - 4
      modifies this`wire
      ensures |wire| == |frames| + 1 && wire[..|frames|] == old(wire) && ShortMessages(wire)
      ensures wire[|frames|][1] == code
      ensures code == OK ==> wire == old(wire) + [Message(mark, OK, [])]
    {
      assert Message(mark, OK, []) == [mark, OK];
      wire := wire + [if code == OK then [mark, OK] else ErrorMessage(mark, code, desc)];
    }

    /** The reply is out and terminated. */
    ghost predicate Ended(reply: Reply)
      reads this
    {
      ShortMessages(wire) && Carries(wire, mark, reply, frames, [])
    }

    /** Ends with an error: whatever is still in the buffer is dropped. */
    method FailPrefetch(ghost goal: Reply, ghost due: seq<Rec>)
      requires Sent() && AllFit(goal.recs) && Emitted() + due == goal.recs && goal.code == ERROR_IO
      modifies this`wire
      ensures Ended(goal)
    {
      assert Concat(frames) <= Emitted() <= goal.recs;
      SendTerminal(ERROR_IO, []);
    }

    method StreamSection(first: seq<RootEntry>, dir: nat, next: nat, used: nat, ghost goal: Reply) returns (failed: bool)
      requires dir < |first| && OutcomeOf(first[dir].child).Streams? && ChildNamesFit(first)
      requires Filling() && LeadsInto(Emitted(), first, next, used, OutcomeOf(first[dir].child), goal)
      modifies this`wire, this`frames, this`held, rsp`written, rsp.data
      ensures Filling() && Leads(Emitted(), first, next, used, failed, goal)
    {
      ghost var outcome := OutcomeOf(first[dir].child);
      Reassociate(Emitted(), Conts(outcome.entries), PrefetchReply(first, next, used, !outcome.complete).recs);
      failed := StreamDir(first[dir].child);
    }

    /** One run of the inner loop: sections are sent until one is complete; `ok` is false when the request ended. */
    method SendChain(first: seq<RootEntry>, at: nat, used: nat, ghost goal: Reply) returns (next: nat, used': nat, ok: bool)
      requires at < |first| && OutcomeOf(first[at].child).Streams?
      requires ChildNamesFit(first)
      requires AllFit(goal.recs)
      requires Filling() && LeadsInto(Emitted(), first, at + 1, used, OutcomeOf(first[at].child), goal)
      modifies this`wire, this`frames, this`held, rsp`written, rsp.data
      ensures at < next <= |first| && used <= used'
      ensures ok ==> Sent() && held == [] && Leads(Emitted(), first, next, used', false, goal)
      ensures !ok ==> Ended(goal)
    {
      var dir := at;
      next, used' := at + 1, used;
      while true
        invariant at <= dir < next <= |first| && used <= used' && OutcomeOf(first[dir].child).Streams?
        invariant Filling() && LeadsInto(Emitted(), first, next, used', OutcomeOf(first[dir].child), goal)
        decreases |first| - next
      {
        var failed := StreamSection(first, dir, next, used', goal);
        if !failed {
          SendHeld();
          return next, used', true;
        }
        var found, next2, used2, err := NextDir(first, next, used');
        if err || found.None? {
          FailPrefetch(goal, []);
          return next, used', false;
        }
        LeadsSection(Emitted(), first, next, used', true, goal, OutcomeOf(first[found.value].child), next2, used2);
        Append(Skip);
        dir, next, used' := found.value, next2, used2;
      }
      assert false;
    }

    /** Starts a fresh response with a PREFETCH marker. */
    method Announce(first: seq<RootEntry>, at: nat, ghost idx: nat, ghost used: nat, ghost goal: Reply)
      requires at < |first| && OutcomeOf(first[at].child).Streams?
      requires Sent() && held == [] && Leads(Emitted(), first, idx, used, false, goal)
      requires PrefetchReply(first, idx, used, false) == Sectioned(false, OutcomeOf(first[at].child), first, at + 1, used + 1)
      modifies this`wire, this`frames, this`held, rsp`written, rsp.data
      ensures Filling() && LeadsInto(Emitted(), first, at + 1, used + 1, OutcomeOf(first[at].child), goal)
    {
      LeadsSection(Emitted(), first, idx, used, false, goal, OutcomeOf(first[at].child), at + 1, used + 1);
      Begin();
      Append(Prefetch);
    }

    /** One turn of the outer loop: the next directory and the chain it starts; `ok` is false when the request ended. */
    method SendNext(first: seq<RootEntry>, idx: nat, used: nat, ghost goal: Reply) returns (next: nat, used': nat, ok: bool)
      requires idx < |first| && used < MAX_PREFETCH_DIRS && ChildNamesFit(first) && AllFit(goal.recs)
      requires Sent() && held == [] && Leads(Emitted(), first, idx, used, false, goal)
      modifies this`wire, this`frames, this`held, rsp`written, rsp.data
      ensures idx < next <= |first| && used <= used'
      ensures ok ==> Sent() && held == [] && Leads(Emitted(), first, next, used', false, goal)
      ensures !ok ==> Ended(goal)
    {
      var found, err;
      found, next, used', err := NextDir(first, idx, used);
      if err {
        FailPrefetch(goal, []);
        return idx + 1, used, false;
      }
      ok := true;
      if found.Some? {
        Announce(first, found.value, idx, used, goal);
        next, used', ok := SendChain(first, found.value, used', goal);
      }
    }

    /** The prefetch part of cmdReadDirPlus, after the root section was sent. */
    method SendSections(first: seq<RootEntry>, ghost goal: Reply)
      requires Sent() && held == [] && Leads(Emitted(), first, 0, 0, false, goal)
      requires ChildNamesFit(first)
      requires AllFit(goal.recs)
      modifies this, rsp, rsp.data
      ensures Ended(goal)
    {
      var idx, used := 0, 0;
      while idx < |first| && used < MAX_PREFETCH_DIRS
        invariant 0 <= idx <= |first| && used >= 0
        invariant Sent() && held == [] && Leads(Emitted(), first, idx, used, false, goal)
        decreases |first| - idx, MAX_PREFETCH_DIRS - used
      {
        var ok;
        idx, used, ok := SendNext(first, idx, used, goal);
        if !ok {
          return;
        }
      }
      SendTerminal(OK, []);
    }

    method WriteRoot(es: seq<RootEntry>)
      requires Filling() && AllFit(Conts(Ents(es)))
      modifies this`wire, this`frames, this`held, rsp`written, rsp.data
      ensures Filling() && Emitted() == old(Emitted()) + Conts(Ents(es))
    {
      var recs := Conts(Ents(es));
      for i := 0 to |recs|
        invariant Filling() && Emitted() == old(Emitted()) + recs[..i]
      {
        TakeOneMore(old(Emitted()), recs, i);
        Append(recs[i]);
      }
      assert recs[..|recs|] == recs;
    }

    /** s.write(rsp.Done()) after the code was set to OK: the last message of a reply without prefetch. */
    method SendLast() returns (ghost last: seq<Rec>)
      requires Filling()
      modifies this, rsp, rsp.data
      ensures frames == old(frames) && last == old(held) && ShortMessages(wire)
      ensures wire == PartialMessages(mark, frames) + [Message(mark, OK, last)]
    {
      last := held;
      assert Message(mark, OK, held) == Message(mark, PARTIAL, held)[1 := OK];
      rsp.Patch(1, OK);
      var d := rsp.Done();
      wire := wire + [d];
    }

    /** The root section: the first batch, then whatever further ReadDir calls deliver. */
    method ReadRoot(results: seq<Read<RootEntry>>) returns (err: Option<ErrCode>)
      requires Sent() && frames == [] && (results != [] ==> results[0].Batch?)
      requires NamesFit(Ents(Delivered(results)))
      modifies this`wire, this`frames, this`held, rsp`written, rsp.data
      ensures Filling() && Emitted() == Conts(Ents(Delivered(results))) && err == FirstError(results)
    {
      Begin();
      ghost var sofar := [];
      assert Emitted() == sofar;
      var k := 0;
      RootStarts(results);
      while k < |results|
        invariant RootSoFar(results, k, sofar) && Filling() && Emitted() == sofar
      {
        RootStep(results, k, sofar);
        if results[k].ReadErr? {
          WriteRoot(results[k].partial);
          return Some(results[k].code);
        }
        WriteRoot(results[k].entries);
        sofar := sofar + Conts(Ents(results[k].entries));
        k := k + 1;
      }
      RootEnds(results, k, sofar);
      err := None;
    }

    /** cmdReadDirPlus on a directory that opened, over every behaviour of the file system. */
    method Serve(results: seq<Read<RootEntry>>) returns (ghost last: seq<Rec>)
      requires Sent() && frames == [] && held == [] && Conforming(results) && AllNamesFit(results)
      modifies this, rsp, rsp.data
      ensures ShortMessages(wire)
      ensures Carries(wire, mark, ReplyTo(results), frames, last) && Markers(last) == 0
    {
      ghost var goal := ReplyTo(results);
      ReplyFits(results);
      last := [];
      if results != [] && results[0].ReadErr? {
        SendTerminal(results[0].code, []);
        return;
      }
      var first := FirstBatch(results);
      var err := ReadRoot(results);
      if err.Some? {
        SendTerminal(err.value, []);
        return;
      }
      if |first| > MAX_ROOT_FOR_PREFETCH {
        last := SendLast();
        EntriesHaveNoMarkers(Ents(Delivered(results)), Concat(frames), last);
        return;
      }
      SendHeld();
      SendSections(first, goal);
    }
  }

  /** How many section markers the records hold. */
  function Markers(rs: seq<Rec>): nat {
    if rs == [] then 0 else (if rs[0].Continue? then 0 else 1) + Markers(rs[1..])
  }

  lemma {:induction false} MarkersAppend(xs: seq<Rec>, ys: seq<Rec>)
    ensures Markers(xs + ys) == Markers(xs) + Markers(ys)
  {
    if xs == [] {
      assert xs + ys == ys;
    } else {
      assert (xs + ys)[1..] == xs[1..] + ys;
      MarkersAppend(xs[1..], ys);
    }
  }

  lemma {:induction false} ContsHaveNoMarkers(ds: seq<Dirent>)
    ensures Markers(Conts(ds)) == 0
  {
    if ds != [] {
      assert Conts(ds)[1..] == Conts(ds[1..]);
      ContsHaveNoMarkers(ds[1..]);
    }
  }

  lemma EntriesHaveNoMarkers(ds: seq<Dirent>, xs: seq<Rec>, ys: seq<Rec>)
    requires xs + ys == Conts(ds)
    ensures Markers(xs) == 0 && Markers(ys) == 0
  {
    ContsHaveNoMarkers(ds);
    MarkersAppend(xs, ys);
  }

  predicate Succeeded<T>(results: seq<Read<T>>, k: int) {
    0 <= k <= |results| && forall i :: 0 <= i < k ==> results[i].Batch?
  }

  /** After `k` successful calls the root records `sofar` have been produced. */
  ghost predicate RootSoFar(results: seq<Read<RootEntry>>, k: int, sofar: seq<Rec>) {
    Succeeded(results, k) && sofar == Conts(Ents(Delivered(results[..k])))
  }

  lemma RootStarts(results: seq<Read<RootEntry>>)
    ensures RootSoFar(results, 0, [])
  {}

  lemma RootEnds(results: seq<Read<RootEntry>>, k: int, sofar: seq<Rec>)
    requires RootSoFar(results, k, sofar) && k == |results|
    ensures sofar == Conts(Ents(Delivered(results))) && FirstError(results).None?
  {
    assert results[..k] == results;
    DeliveredSplit(results, k);
  }

  /** Delivery call by call. */
  lemma {:induction false} RootStep(results: seq<Read<RootEntry>>, k: int, sofar: seq<Rec>)
    requires RootSoFar(results, k, sofar) && k < |results| && NamesFit(Ents(Delivered(results)))
    ensures results[k].Batch? ==>
              && RootSoFar(results, k + 1, sofar + Conts(Ents(results[k].entries)))
              && AllFit(Conts(Ents(results[k].entries)))
    ensures results[k].ReadErr? ==>
              && Conts(Ents(Delivered(results))) == sofar + Conts(Ents(results[k].partial))
              && AllFit(Conts(Ents(results[k].partial))) && FirstError(results) == Some(results[k].code)
  {
    DeliveredSplit(results, k);
    var batch := if results[k].Batch? then results[k].entries else results[k].partial;
    var before := Delivered(results[..k]);
    if results[k].Batch? {
      DeliveredSplit(results[..k + 1], k);
      assert results[..k + 1][..k] == results[..k] && results[..k + 1][k..] == [results[k]];
      assert Delivered([results[k]]) == batch + Delivered([results[k]][1..]);
      assert Delivered(results[..k + 1]) == before + batch;
    }
    forall i | 0 <= i < |batch| ensures Fits(Continue(batch[i].ent)) {
      assert Ents(Delivered(results))[|before| + i] == batch[i].ent;
    }
    EntsAppend(before, batch);
  }

  lemma EntsAppend(xs: seq<RootEntry>, ys: seq<RootEntry>)
    ensures Conts(Ents(xs + ys)) == Conts(Ents(xs)) + Conts(Ents(ys))
  {
    assert Ents(xs + ys) == Ents(xs) + Ents(ys);
  }

  lemma {:induction false} DeliveredSplit<T>(results: seq<Read<T>>, k: nat)
    requires k <= |results| && forall i :: 0 <= i < k ==> results[i].Batch?
    ensures Delivered(results) == Delivered(results[..k]) + Delivered(results[k..])
    ensures FirstError(results) == FirstError(results[k..])
    decreases k
  {
    if k == 0 {
      assert results[0..] == results;
    } else {
      DeliveredSplit(results[1..], k - 1);
      assert results[..k][1..] == results[1..][..k - 1] && results[1..][k - 1..] == results[k..];
    }
  }

  lemma ReplyFits(results: seq<Read<RootEntry>>)
    requires AllNamesFit(results)
    ensures AllFit(ReplyTo(results).recs)
  {
    SectionsFit(FirstBatch(results), 0, 0, false);
    assert AllFit(Conts(Ents(Delivered(results))));
  }

  lemma {:induction false} SectionsFit(first: seq<RootEntry>, idx: nat, used: nat, failed: bool)
    requires idx <= |first| && ChildNamesFit(first)
    ensures AllFit(PrefetchReply(first, idx, used, failed).recs)
    decreases |first| - idx
  {
    if idx < |first| && used < MAX_PREFETCH_DIRS {
      if first[idx].isDir {
        match OutcomeOf(first[idx].child)
        case PrepareFails =>
        case Streams(es, complete) =>
          SectionsFit(first, idx + 1, used + 1, !complete);
          assert forall i :: 0 <= i < |es| ==> es[i] == Entries(first[idx].child.results)[i];
      } else {
        SectionsFit(first, idx + 1, used, failed);
      }
    }
  }

  function Sectioned(failed: bool, outcome: Outcome, first: seq<RootEntry>, next: nat, used: nat): Reply
    requires outcome.Streams? && next <= |first|
  {
    var rest := PrefetchReply(first, next, used, !outcome.complete);
    Reply([Marker(failed)] + Conts(outcome.entries) + rest.recs, rest.code)
  }

  /** The records emitted so far and those still due from `idx` make up the goal. */
  ghost predicate Leads(emitted: seq<Rec>, first: seq<RootEntry>, idx: int, used: int, failed: bool, goal: Reply) {
    && 0 <= idx <= |first| && used >= 0
    && var due := PrefetchReply(first, idx, used, failed);
       emitted + due.recs == goal.recs && due.code == goal.code
  }

  /** The same with a section announced but its entries not yet sent. */
  ghost predicate LeadsInto(emitted: seq<Rec>, first: seq<RootEntry>, next: int, used: int, outcome: Outcome, goal: Reply) {
    && 0 <= next <= |first| && used >= 0 && outcome.Streams?
    && var due := PrefetchReply(first, next, used, !outcome.complete);
       emitted + (Conts(outcome.entries) + due.recs) == goal.recs && due.code == goal.code
  }

  lemma LeadsSection(emitted: seq<Rec>, first: seq<RootEntry>, idx: int, used: int, failed: bool, goal: Reply,
                     outcome: Outcome, next: nat, used': nat)
    requires Leads(emitted, first, idx, used, failed, goal) && outcome.Streams? && next <= |first|
    requires PrefetchReply(first, idx, used, failed) == Sectioned(failed, outcome, first, next, used')
    ensures LeadsInto(emitted + [Marker(failed)], first, next, used', outcome, goal)
  {
    var due := PrefetchReply(first, next, used', !outcome.complete).recs;
    var m, es := [Marker(failed)], Conts(outcome.entries);
    assert emitted + (m + es + due) == emitted + m + (es + due);
  }

  lemma TakeOneMore(before: seq<Rec>, recs: seq<Rec>, i: nat)
    requires i < |recs|
    ensures before + recs[..i] + [recs[i]] == before + recs[..i + 1]
  {
    assert recs[..i + 1] == recs[..i] + [recs[i]];
  }

  lemma MessageAppend(mark: byte, rs: seq<Rec>, r: Rec)
    ensures Message(mark, PARTIAL, rs + [r]) == Message(mark, PARTIAL, rs) + RecBytes(r)
  {
    RecsBytesAppend(rs, [r]);
    RecsBytesOne(r);
    Reassociate([mark, PARTIAL], RecsBytes(rs), RecsBytes([r]));
  }

  /** Reading a directory: `k` calls made, `prefix` already sent, `batch` about to be. */
  predicate At(results: seq<Read<Dirent>>, k: int, prefix: seq<Dirent>, batch: seq<Dirent>) {
    0 <= k <= |results| && (forall i :: 0 <= i < k ==> results[i].Batch?) && prefix + batch == Entries(results[..k])
  }

  lemma AtNames(results: seq<Read<Dirent>>, k: int, prefix: seq<Dirent>, batch: seq<Dirent>)
    requires At(results, k, prefix, batch) && NamesFit(Entries(results))
    ensures AllFit(Conts(batch))
  {
    EntriesAt(results, k);
    assert forall i :: 0 <= i < |batch| ==> batch[i] == Entries(results)[|prefix| + i];
  }

  lemma AtOver(dir: Dir, k: int, prefix: seq<Dirent>, batch: seq<Dirent>)
    requires OutcomeOf(dir).Streams? && At(dir.results, k, prefix, batch)
    requires |prefix| <= MAX_DIR_ENTRIES < |prefix| + |batch|
    ensures OutcomeOf(dir) == Streams(prefix + batch[..MAX_DIR_ENTRIES - |prefix|], false)
  {
    EntriesAt(dir.results, k);
    assert Entries(dir.results)[..MAX_DIR_ENTRIES] == prefix + batch[..MAX_DIR_ENTRIES - |prefix|];
  }

  lemma AtEnd(dir: Dir, k: int, prefix: seq<Dirent>, batch: seq<Dirent>)
    requires OutcomeOf(dir).Streams? && At(dir.results, k, prefix, batch)
    requires |prefix| + |batch| <= MAX_DIR_ENTRIES && (k == |dir.results| || dir.results[k].ReadErr?)
    ensures OutcomeOf(dir) == Streams(prefix + batch, k == |dir.results|)
  {
    EntriesAt(dir.results, k);
    var all := Entries(dir.results);
    assert all == prefix + batch + [];
    assert all[..|all|] == all;
  }

  lemma AtNext(results: seq<Read<Dirent>>, k: int, prefix: seq<Dirent>, batch: seq<Dirent>)
    requires At(results, k, prefix, batch) && k < |results| && results[k].Batch?
    ensures At(results, k + 1, prefix + batch, results[k].entries)
  {
    EntriesSnoc(results, k);
  }

  lemma ContsTake(before: seq<Rec>, prefix: seq<Dirent>, batch: seq<Dirent>, n: nat)
    requires n <= |batch|
    ensures before + Conts(prefix) + Conts(batch)[..n] == before + Conts(prefix + batch[..n])
  {
    ContsAppend(prefix, batch[..n]);
    assert Conts(batch)[..n] == Conts(batch[..n]);
  }

  lemma ContsAppend(xs: seq<Dirent>, ys: seq<Dirent>)
    ensures Conts(xs + ys) == Conts(xs) + Conts(ys)
  {}
}
