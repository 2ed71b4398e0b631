/**
 The client side of ReadDirPlus: a parser that hands the root listing to its
 caller as soon as the first prefetch marker (or the end) arrives and goes on
 filling in child listings behind the caller's back. Each directory entry carries
 a channel that must be closed exactly once, after its child listing is final;
 closing a channel twice, like indexing out of range, is a panic.
 */
module DirParser {
  import opened Bytes
  import opened Protocol
  import opened Dirents

  datatype Section = RootSection | PrefetchSection
  datatype Ready = NoChannel | Pending | Closed
  datatype Item = Item(ent: Dirent, child: Option<seq<Dirent>>, ready: Ready)

  /** What goes through rootCh. The list handed over shares its array with the parser. */
  datatype RootResult = Handed(len: nat) | Failed(code: byte)

  datatype Parser = Parser(section: Section, list: seq<Item>, items: seq<Dirent>, cur: int, rootSent: bool,
                           pending: seq<nat>, sent: seq<RootResult>, done: bool, panicked: bool)

  const INIT := Parser(RootSection, [], [], -1, false, [], [], false, false)

  // ---- The parser as functions ----

  function Close(p: Parser, idx: int): Parser {
    if !(0 <= idx < |p.list|) then p.(panicked := true)
    else
      match p.list[idx].ready
      case NoChannel => p
      case Pending => p.(list := p.list[idx := p.list[idx].(ready := Closed)])
      case Closed => p.(panicked := true)
  }

  function SetChild(p: Parser, idx: int, items: seq<Dirent>): Parser {
    if !(0 <= idx < |p.list|) then p.(panicked := true)
    else Close(p.(list := p.list[idx := p.list[idx].(child := Some(items))]), idx)
  }

  function CloseAll(p: Parser, idxs: seq<nat>): Parser
    decreases |idxs|
  {
    if idxs == [] then p else CloseAll(Close(p, idxs[0]), idxs[1..])
  }

  function Flush(p: Parser, commit: bool): Parser {
    if p.section.RootSection? || p.cur < 0 then p
    else (if commit then SetChild(p, p.cur, p.items) else Close(p, p.cur)).(items := [], cur := -1)
  }

  function SendUnlessSent(p: Parser, r: RootResult): Parser {
    if p.rootSent then p else p.(sent := p.sent + [r])
  }

  /** The common exit for an error code or an unknown indicator. */
  function Abort(p: Parser, code: byte): Parser {
    var q := Flush(p, false);
    SendUnlessSent(CloseAll(q, q.pending), Failed(code)).(done := true)
  }

  /** The exit taken when a dirent does not decode. */
  function ReadFail(p: Parser): Parser {
    var q := if p.cur >= 0 then Close(p, p.cur) else p;
    SendUnlessSent(CloseAll(q, q.pending), Failed(ERROR_IO)).(done := true)
  }

  function Finish(p: Parser): Parser {
    var q := Flush(p, true);
    var r := CloseAll(q, q.pending);
    SendUnlessSent(r, Handed(|r.list|)).(done := true)
  }

  function NewItem(d: Dirent): Item {
    Item(d, None, if IsModeDir(d.mode) then Pending else NoChannel)
  }

  function OnEntry(p: Parser, d: Dirent): Parser {
    if p.section.PrefetchSection? then p.(items := p.items + [d])
    else p.(list := p.list + [NewItem(d)],
            pending := if IsModeDir(d.mode) then p.pending + [|p.list|] else p.pending)
  }

  function Handover(p: Parser): Parser {
    SendUnlessSent(p, Handed(|p.list|)).(rootSent := true)
  }

  /** PREFETCH commits the section before it, PREFETCH_SKIP discards it; both start the next one. */
  function OnMarker(p: Parser, commit: bool): Parser {
    NextChild(Flush(Handover(p), commit))
  }

  function NextChild(p: Parser): Parser {
    var q := p.(section := PrefetchSection);
    if q.pending == [] then CloseAll(q.(cur := -1), q.pending).(done := true)
    else q.(cur := q.pending[0], pending := q.pending[1..])
  }

  function ParseBody(p: Parser, r: seq<byte>): Parser
    decreases |r|
  {
    if p.done || r == [] then p
    else if r[0] == CONTINUE then
      match ReadDirent(r[1..])
      case None => ReadFail(p)
      case Some((d, rest)) => ReadConsumes(r[1..]); ParseBody(OnEntry(p, d), rest)
    else if r[0] == PREFETCH then ParseBody(OnMarker(p, true), r[1..])
    else if r[0] == PREFETCH_SKIP then ParseBody(OnMarker(p, false), r[1..])
    else Abort(p, ERROR_IO)
  }

  function ParseMessage(p: Parser, msg: seq<byte>): Parser
    requires |msg| >= 2
  {
    if msg[1] != OK && msg[1] != PARTIAL then Abort(p, msg[1])
    else
      var q := ParseBody(p, msg[2..]);
      if !q.done && msg[1] == OK then Finish(q) else q
  }

  predicate Messages(msgs: seq<seq<byte>>) {
    forall i :: 0 <= i < |msgs| ==> |msgs[i]| >= 2
  }

  /** Messages are taken until the parser is done. */
  function ParseAll(p: Parser, msgs: seq<seq<byte>>): Parser
    requires Messages(msgs)
    decreases |msgs|
  {
    if p.done || msgs == [] then p else ParseAll(ParseMessage(p, msgs[0]), msgs[1..])
  }

  // ---- The parser as written ----

  class ReadDirPlusParser {
    var section: Section
    var list: seq<Item>
    var items: seq<Dirent>
    var cur: int
    var rootSent: bool
    var pending: seq<nat>
    var sent: seq<RootResult>
    var done: bool
    var panicked: bool

    function State(): Parser
      reads this
    {
      Parser(section, list, items, cur, rootSent, pending, sent, done, panicked)
    }

    constructor ()
      ensures State() == INIT
    {
      section, list, items, cur := RootSection, [], [], -1;
      rootSent, pending, sent, done, panicked := false, [], [], false, false;
    }

    method CloseChildReady(idx: int)
      modifies this`list, this`panicked
      ensures State() == Close(old(State()), idx)
    {
      if !(0 <= idx < |list|) {
        panicked := true;
      } else if list[idx].ready.Pending? {
        list := list[idx := list[idx].(ready := Closed)];
      } else if list[idx].ready.Closed? {
        panicked := true;
      }
    }

    method SetChildItems(idx: int, children: seq<Dirent>)
      modifies this`list, this`panicked
      ensures State() == SetChild(old(State()), idx, children)
    {
      if !(0 <= idx < |list|) {
        panicked := true;
      } else {
        list := list[idx := list[idx].(child := Some(children))];
        CloseChildReady(idx);
      }
    }

    method CloseAllRemaining()
      modifies this`list, this`panicked
      ensures State() == CloseAll(old(State()), pending)
    {
      for k := 0 to |pending|
        invariant CloseAll(State(), pending[k..]) == CloseAll(old(State()), pending)
        invariant State() == old(State()).(list := list, panicked := panicked)
      {
        CloseChildReady(pending[k]);
        assert pending[k..][1..] == pending[k + 1..];
      }
    }

    method FlushPrefetch(commit: bool)
      modifies this`list, this`panicked, this`items, this`cur
      ensures State() == Flush(old(State()), commit)
    {
      if section.RootSection? || cur < 0 {
        return;
      }
      if commit {
        SetChildItems(cur, items);
      } else {
        CloseChildReady(cur);
      }
      items, cur := [], -1;
    }

    method AbortParse(code: byte)
      modifies this
      ensures State() == Abort(old(State()), code)
    {
      FlushPrefetch(false);
      CloseAllRemaining();
      if !rootSent {
        sent := sent + [Failed(code)];
      }
      done := true;
    }

    method Marker(commit: bool)
      modifies this
      ensures State() == OnMarker(old(State()), commit)
    {
      if !rootSent {
        sent := sent + [Handed(|list|)];
        rootSent := true;
      }
      FlushPrefetch(commit);
      BeginSection();
    }

    method BeginSection()
      modifies this
      ensures State() == NextChild(old(State()))
    {
      section := PrefetchSection;
      if pending == [] {
        cur := -1;
        CloseAllRemaining();
        done := true;
      } else {
        cur := pending[0];
        pending := pending[1..];
      }
    }

    method Body(msg: seq<byte>)
      modifies this
      ensures State() == ParseBody(old(State()), msg)
    {
      var r := msg;
      while r != [] && !done
        invariant ParseBody(State(), r) == ParseBody(old(State()), msg)
        decreases if done then 0 else |r| + 1
      {
        var indicator := r[0];
        if indicator == CONTINUE {
          match ReadDirent(r[1..])
          case None =>
            if cur >= 0 {
              CloseChildReady(cur);
            }
            CloseAllRemaining();
            if !rootSent {
              sent := sent + [Failed(ERROR_IO)];
            }
            done := true;
          case Some((d, rest)) =>
            ReadConsumes(r[1..]);
            if section.RootSection? {
              if IsModeDir(d.mode) {
                pending := pending + [|list|];
              }
              list := list + [NewItem(d)];
            } else {
              items := items + [d];
            }
            r := rest;
        } else if indicator == PREFETCH {
          Marker(true);
          r := r[1..];
        } else if indicator == PREFETCH_SKIP {
          Marker(false);
          r := r[1..];
        } else {
          AbortParse(ERROR_IO);
        }
      }
    }

    method OneMessage(msg: seq<byte>)
      requires |msg| >= 2
      modifies this
      ensures State() == ParseMessage(old(State()), msg)
    {
      var code := msg[1];
      if code != OK && code != PARTIAL {
        AbortParse(code);
        return;
      }
      Body(msg[2..]);
      if !done && code == OK {
        FlushPrefetch(true);
        CloseAllRemaining();
        if !rootSent {
          sent := sent + [Handed(|list|)];
        }
        done := true;
      }
    }

    /** parseReadDirPlus, fed with the responses that arrive for its mark. */
    method Parse(msgs: seq<seq<byte>>)
      requires Messages(msgs) && State() == INIT
      modifies this
      ensures State() == ParseAll(INIT, msgs)
      ensures Running(State()) || Finished(State())
    {
      var k := 0;
      while k < |msgs| && !done
        invariant 0 <= k <= |msgs|
        invariant ParseAll(State(), msgs[k..]) == ParseAll(INIT, msgs)
      {
        assert msgs[k..][0] == msgs[k] && msgs[k..][1..] == msgs[k + 1..];
        OneMessage(msgs[k]);
        k := k + 1;
      }
      ParseAllKeeps(INIT, msgs);
    }
  }

  // ---- Exactly once, for every sequence of messages ----

  /** Between messages: the open channels are those of the current section and of the directories still waiting. */
  predicate Running(p: Parser) {
    && !p.panicked && !p.done
    && (p.section.RootSection? ==> p.cur == -1 && !p.rootSent)
    && (p.section.PrefetchSection? ==> p.cur >= 0 && p.rootSent)
    && p.cur < |p.list|
    && p.sent == (if p.rootSent then [Handed(|p.list|)] else [])
    && Tracked(p)
  }

  /** `cur` and `pending` name, without repetition, exactly the entries whose channel is open. */
  predicate Tracked(p: Parser) {
    && (forall a, b :: 0 <= a < b < |p.pending| ==> p.pending[a] < p.pending[b])
    && (forall a :: 0 <= a < |p.pending| ==> p.cur < p.pending[a] < |p.list|)
    && (forall i :: 0 <= i < |p.list| ==> (p.list[i].ready.Pending? <==> i == p.cur || i in p.pending))
    && (forall i :: 0 <= i < |p.list| ==> (p.list[i].child.Some? ==> p.list[i].ready.Closed?))
  }

  /** After the last message: one root result, every channel closed. */
  predicate Finished(p: Parser) {
    && !p.panicked && p.done && |p.sent| == 1
    && (p.sent[0].Handed? ==> p.sent[0].len == |p.list|)
    && (forall i :: 0 <= i < |p.list| ==> !p.list[i].ready.Pending?)
    && (forall i :: 0 <= i < |p.list| ==> (p.list[i].child.Some? ==> p.list[i].ready.Closed?))
  }

  /** What later steps may do to earlier state: append before the handover, never touch a closed entry. */
  predicate Extends(p: Parser, q: Parser) {
    && |p.list| <= |q.list| && (p.rootSent ==> |q.list| == |p.list|)
    && p.sent <= q.sent && (p.rootSent ==> q.rootSent && q.sent == p.sent)
    && forall i :: 0 <= i < |p.list| ==>
         q.list[i].ent == p.list[i].ent && (p.list[i].ready.Pending? || q.list[i] == p.list[i])
  }

  lemma CloseOne(p: Parser)
    requires !p.panicked && 0 <= p.cur < |p.list| && Tracked(p)
    ensures var q := Close(p, p.cur).(cur := -1); !q.panicked && Tracked(q) && Extends(p, q)
    ensures forall ds :: var q := SetChild(p, p.cur, ds).(cur := -1); !q.panicked && Tracked(q) && Extends(p, q)
  {}

  lemma FlushKeeps(p: Parser, commit: bool)
    requires Running(p)
    ensures var q := Flush(p, commit);
            q.cur == -1 && !q.panicked && Tracked(q) && Extends(p, q) && !q.done && q.pending == p.pending
            && |q.list| == |p.list| && q.sent == p.sent && q.rootSent == p.rootSent
  {
    if p.section.PrefetchSection? { CloseOne(p); }
  }

  lemma {:induction false} CloseAllKeeps(p: Parser, idxs: seq<nat>)
    requires !p.panicked && p.cur == -1 && Tracked(p) && p.pending == idxs
    ensures var q := CloseAll(p, idxs);
            && q == p.(list := q.list) && Extends(p, q)
            && (forall i :: 0 <= i < |q.list| ==> !q.list[i].ready.Pending?)
            && (forall i :: 0 <= i < |q.list| ==> (q.list[i].child.Some? ==> q.list[i].ready.Closed?))
            && |q.list| == |p.list|
    decreases |idxs|
  {
    if idxs != [] {
      var p1 := Close(p, idxs[0]);
      var p2 := p1.(pending := idxs[1..]);
      assert forall i :: 0 <= i < |p.list| ==> (i in idxs <==> i == idxs[0] || i in idxs[1..]);
      CloseAllKeeps(p2, idxs[1..]);
      CloseAllFrame(p1, p2, idxs[1..]);
    }
  }

  /** CloseAll reads and changes only the list (and the panic flag). */
  lemma {:induction false} CloseAllFrame(p: Parser, p': Parser, idxs: seq<nat>)
    requires p'.list == p.list && p'.panicked == p.panicked
    ensures var q, q' := CloseAll(p, idxs), CloseAll(p', idxs);
            && q'.list == q.list && q'.panicked == q.panicked
            && q == p.(list := q.list, panicked := q.panicked)
            && q' == p'.(list := q.list, panicked := q.panicked)
    decreases |idxs|
  {
    if idxs != [] {
      CloseAllFrame(Close(p, idxs[0]), Close(p', idxs[0]), idxs[1..]);
    }
  }

  lemma ExitKeeps(p: Parser, code: byte)
    requires Running(p)
    ensures Finished(Abort(p, code)) && Extends(p, Abort(p, code))
    ensures Finished(ReadFail(p)) && Extends(p, ReadFail(p))
    ensures Finished(Finish(p)) && Extends(p, Finish(p))
  {
    FlushKeeps(p, false);
    FlushKeeps(p, true);
    CloseAllKeeps(Flush(p, false), p.pending);
    CloseAllKeeps(Flush(p, true), p.pending);
    ReadFailLikeAbort(p);
  }

  /** Not resetting the current section before giving up makes no difference to the channels. */
  lemma ReadFailLikeAbort(p: Parser)
    requires Running(p)
    ensures ReadFail(p) == Abort(p, ERROR_IO).(cur := p.cur, items := p.items)
  {
    if p.section.PrefetchSection? {
      var q := Close(p, p.cur);
      CloseAllFrame(q, q.(items := [], cur := -1), q.pending);
    } else {
      CloseAllFrame(p, p, p.pending);
    }
  }

  lemma EntryKeeps(p: Parser, d: Dirent)
    requires Running(p)
    ensures Running(OnEntry(p, d)) && Extends(p, OnEntry(p, d))
  {
    var q := OnEntry(p, d);
    if p.section.RootSection? {
      forall i | 0 <= i < |q.list| ensures q.list[i].ready.Pending? <==> i == q.cur || i in q.pending {
        if i < |p.list| { assert q.list[i] == p.list[i]; }
      }
    }
  }

  lemma MarkerKeeps(p: Parser, commit: bool)
    requires Running(p)
    ensures var q := OnMarker(p, commit); (Running(q) || Finished(q)) && Extends(p, q)
  {
    var h := Handover(p);
    var f := Flush(h, commit);
    if p.section.PrefetchSection? {
      assert h == p;
      FlushKeeps(p, commit);
    } else {
      assert f == h;
    }
    var q := OnMarker(p, commit);
    if f.pending != [] {
      assert forall i :: 0 <= i < |f.list| ==> (i in f.pending <==> i == f.pending[0] || i in f.pending[1..]);
      assert Tracked(q);
    }
  }

  lemma ExtendsTrans(p: Parser, q: Parser, r: Parser)
    requires Extends(p, q) && Extends(q, r)
    requires forall i :: 0 <= i < |p.list| ==> (p.list[i].ready.Closed? ==> q.list[i].ready.Closed?)
    ensures Extends(p, r)
  {}

  lemma {:induction false} BodyKeeps(p: Parser, r: seq<byte>)
    requires Running(p)
    ensures var q := ParseBody(p, r); (Running(q) || Finished(q)) && Extends(p, q)
    decreases |r|
  {
    if r != [] {
      ExitKeeps(p, ERROR_IO);
      if r[0] == CONTINUE {
        match ReadDirent(r[1..])
        case None =>
        case Some((d, rest)) =>
          ReadConsumes(r[1..]);
          EntryKeeps(p, d);
          BodyKeeps(OnEntry(p, d), rest);
          ExtendsTrans(p, OnEntry(p, d), ParseBody(OnEntry(p, d), rest));
      } else if r[0] == PREFETCH || r[0] == PREFETCH_SKIP {
        var m := OnMarker(p, r[0] == PREFETCH);
        MarkerKeeps(p, r[0] == PREFETCH);
        if !m.done {
          BodyKeeps(m, r[1..]);
          ExtendsTrans(p, m, ParseBody(m, r[1..]));
        }
      }
    }
  }

  lemma MessageKeeps(p: Parser, msg: seq<byte>)
    requires Running(p) && |msg| >= 2
    ensures var q := ParseMessage(p, msg); (Running(q) || Finished(q)) && Extends(p, q)
    ensures msg[1] != PARTIAL ==> Finished(ParseMessage(p, msg))
  {
    if msg[1] != OK && msg[1] != PARTIAL {
      ExitKeeps(p, msg[1]);
    } else {
      var q := ParseBody(p, msg[2..]);
      BodyKeeps(p, msg[2..]);
      if !q.done && msg[1] == OK {
        ExitKeeps(q, OK);
        ExtendsTrans(p, q, Finish(q));
      }
    }
  }

  /**
   Whatever the server sends, well formed or not: no channel is closed twice, a
   finished parse has sent exactly one root result and closed every channel, the
   list never grows after it was handed out, and an entry never changes once its
   channel is closed.
   */
  lemma {:induction false} ParseAllKeeps(p: Parser, msgs: seq<seq<byte>>)
    requires Messages(msgs) && Running(p)
    ensures var q := ParseAll(p, msgs); (Running(q) || Finished(q)) && Extends(p, q)
    decreases |msgs|
  {
    if msgs != [] {
      var m := ParseMessage(p, msgs[0]);
      MessageKeeps(p, msgs[0]);
      if !m.done {
        ParseAllKeeps(m, msgs[1..]);
        ExtendsTrans(p, m, ParseAll(m, msgs[1..]));
      }
    }
  }
}
