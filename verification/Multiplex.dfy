/**
 Many requests over one connection. A request locks one of 256 marks, sends its
 commands under that mark, and takes the responses that arrive for the mark until it
 has seen enough. On the server every command starts a worker (data commands of a
 stream go to the worker registered for the mark); workers write responses in any
 interleaving. Neither side ever sees who asked: the mark is all there is on the
 wire. The `origin` of a frame is recorded here only to state the theorem.
 */
module Multiplex {
  import opened Bytes
  import opened Protocol

  const MARKS := 256
  const MAX_WORKERS := 64

  datatype Rsp = Rsp(code: byte, body: seq<byte>)

  /** The answer to data for a stream that is not open, and to a second open of one that is. */
  const REFUSAL := Rsp(INVALID, [])

  /**
   A request: how many commands it sends, what its worker will answer, and when, given
   the responses taken so far, its requester stops and gives the mark back.
   */
  datatype Request = Request(stream: bool, cmds: nat, script: seq<Rsp>, stops: seq<Rsp> -> bool)

  /**
   Only a stream takes several commands; a requester has stopped by its worker's last
   answer; the client of a stream goes on waiting after a refusal.
   */
  ghost predicate WellFormed(q: Request) {
    && q.cmds >= 1 && (!q.stream ==> q.cmds == 1)
    && q.script != [] && q.stops(q.script)
    && (q.stream ==> forall taken: seq<Rsp> :: taken != [] && taken[|taken| - 1].code == INVALID ==> !q.stops(taken))
  }

  /** The requester stops exactly at its worker's last answer. */
  ghost predicate Conforming(q: Request) {
    WellFormed(q) && forall n :: 0 < n < |q.script| ==> !q.stops(q.script[..n])
  }

  type Requests = nat -> Request

  ghost predicate AllConform(reqs: Requests) { forall r :: Conforming(reqs(r)) }

  datatype Phase = Acquiring | Holding(mark: nat, sent: nat) | Finished

  datatype Cmd = Cmd(mark: nat, first: bool, id: nat)

  datatype Frame = Frame(mark: nat, rsp: Rsp, origin: nat)

  datatype Worker = Worker(mark: nat, got: nat, emitted: nat)

  datatype State = State(
    lastMark: nat,                 // the atomic counter
    holder: map<nat, nat>,         // locked marks
    phase: map<nat, Phase>,        // requests started so far
    up: seq<Cmd>,                  // commands on the wire
    workers: map<nat, Worker>,     // workers started so far
    streams: map<nat, nat>,        // write streams registered by mark
    down: seq<Frame>,              // responses on the wire
    hand: Option<Frame>,           // the one the client's read loop holds
    chan: map<nat, Frame>,         // the one-slot response channels
    log: map<nat, seq<Frame>>)     // what each request has taken

  const INIT := State(0, map[], map[], [], map[], map[], [], None, map[], map[])

  datatype Event =
    | Begin(r: nat) | TryMark(r: nat) | Send(r: nat)
    | Dispatch | Emit(w: nat) | Retire(w: nat)
    | Receive | Deliver | Take(r: nat)

  predicate Running(s: State, reqs: Requests, w: nat) {
    w in s.workers && s.workers[w].emitted < |reqs(w).script|
  }

  function RunningWorkers(s: State, reqs: Requests): set<nat> {
    set w | w in s.workers && s.workers[w].emitted < |reqs(w).script|
  }

  /** The next command opens a stream under a mark whose last stream is still registered. */
  predicate Clash(s: State, reqs: Requests) {
    s.up != [] && s.up[0].first && reqs(s.up[0].id).stream && s.up[0].mark in s.streams
  }

  predicate Enabled(s: State, reqs: Requests, e: Event) {
    match e
    case Begin(r) => r !in s.phase
    case TryMark(r) => r in s.phase && s.phase[r].Acquiring?
    case Send(r) => r in s.phase && s.phase[r].Holding? && s.phase[r].sent < reqs(r).cmds
    case Dispatch => s.up != [] && (s.up[0].first && !Clash(s, reqs) ==> |RunningWorkers(s, reqs)| < MAX_WORKERS)
    case Emit(w) =>
      && Running(s, reqs, w)
      && (s.workers[w].emitted == |reqs(w).script| - 1 ==> s.workers[w].got == reqs(w).cmds)
    case Retire(w) => w in s.workers && !Running(s, reqs, w) && s.workers[w].mark in s.streams && s.streams[s.workers[w].mark] == w
    case Receive => s.down != [] && s.hand.None?
    case Deliver => s.hand.Some? && s.hand.value.mark !in s.chan
    case Take(r) => r in s.phase && s.phase[r].Holding? && s.phase[r].sent == reqs(r).cmds && s.phase[r].mark in s.chan && r in s.log
  }

  function Rsps(fs: seq<Frame>): (rs: seq<Rsp>)
    ensures |rs| == |fs| && forall i :: 0 <= i < |fs| ==> rs[i] == fs[i].rsp
  {
    seq(|fs|, i requires 0 <= i < |fs| => fs[i].rsp)
  }

  /** uint8(lastMark.Add(1)) */
  function NextMark(lastMark: nat): nat { (lastMark + 1) % MARKS }

  function Apply(s: State, reqs: Requests, e: Event): State
    requires Enabled(s, reqs, e)
  {
    match e
    case Begin(r) => s.(phase := s.phase[r := Acquiring])
    case TryMark(r) =>
      var m, t := NextMark(s.lastMark), s.(lastMark := (s.lastMark + 1) % 0x1_0000_0000);
      if m in s.holder then t
      else t.(holder := s.holder[m := r], phase := s.phase[r := Holding(m, 0)], log := s.log[r := []])
    case Send(r) =>
      var Holding(m, k) := s.phase[r];
      s.(up := s.up + [Cmd(m, k == 0, r)], phase := s.phase[r := Holding(m, k + 1)])
    case Dispatch =>
      var c, t := s.up[0], s.(up := s.up[1..]);
      if Clash(s, reqs) then
        t.(down := s.down + [Frame(c.mark, REFUSAL, c.id)])
      else if c.first then
        t.(workers := s.workers[c.id := Worker(c.mark, 1, 0)],
           streams := if reqs(c.id).stream then s.streams[c.mark := c.id] else s.streams)
      else if c.mark in s.streams && s.streams[c.mark] in s.workers then
        var w := s.streams[c.mark];
        t.(workers := s.workers[w := s.workers[w].(got := s.workers[w].got + 1)])
      else
        t.(down := s.down + [Frame(c.mark, REFUSAL, c.id)])
    case Emit(w) =>
      var k := s.workers[w];
      s.(down := s.down + [Frame(k.mark, reqs(w).script[k.emitted], w)],
         workers := s.workers[w := k.(emitted := k.emitted + 1)])
    case Retire(w) => s.(streams := s.streams - {s.workers[w].mark})
    case Receive => s.(hand := Some(s.down[0]), down := s.down[1..])
    case Deliver => s.(chan := s.chan[s.hand.value.mark := s.hand.value], hand := None)
    case Take(r) =>
      var m := s.phase[r].mark;
      var f := s.chan[m];
      var t := s.(chan := s.chan - {m}, log := s.log[r := s.log[r] + [f]]);
      if reqs(r).stops(Rsps(t.log[r])) then t.(holder := s.holder - {m}, phase := s.phase[r := Finished]) else t
  }

  predicate IsRun(s: State, reqs: Requests, es: seq<Event>)
    decreases |es|
  {
    es == [] || (Enabled(s, reqs, es[0]) && IsRun(Apply(s, reqs, es[0]), reqs, es[1..]))
  }

  function Exec(s: State, reqs: Requests, es: seq<Event>): State
    requires IsRun(s, reqs, es)
    decreases |es|
  {
    if es == [] then s else Exec(Apply(s, reqs, es[0]), reqs, es[1..])
  }

  // ---- What is in flight for a mark ----

  function CmdsFor(up: seq<Cmd>, m: nat): seq<Cmd> {
    if up == [] then [] else (if up[0].mark == m then [up[0]] else []) + CmdsFor(up[1..], m)
  }

  function FramesFor(down: seq<Frame>, m: nat): seq<Frame> {
    if down == [] then [] else (if down[0].mark == m then [down[0]] else []) + FramesFor(down[1..], m)
  }

  lemma {:induction false} CmdsForSnoc(up: seq<Cmd>, c: Cmd, m: nat)
    ensures CmdsFor(up + [c], m) == CmdsFor(up, m) + if c.mark == m then [c] else []
  {
    if up == [] {
      assert [] + [c] == [c] && [c][1..] == [];
    } else {
      CmdsForSnoc(up[1..], c, m);
      assert (up + [c])[1..] == up[1..] + [c];
      var a, b, d := if up[0].mark == m then [up[0]] else [], CmdsFor(up[1..], m), if c.mark == m then [c] else [];
      assert a + (b + d) == a + b + d;
    }
  }

  lemma {:induction false} FramesForSnoc(down: seq<Frame>, f: Frame, m: nat)
    ensures FramesFor(down + [f], m) == FramesFor(down, m) + if f.mark == m then [f] else []
  {
    if down == [] {
      assert [] + [f] == [f] && [f][1..] == [];
    } else {
      FramesForSnoc(down[1..], f, m);
      assert (down + [f])[1..] == down[1..] + [f];
      var a, b, d := if down[0].mark == m then [down[0]] else [], FramesFor(down[1..], m), if f.mark == m then [f] else [];
      assert a + (b + d) == a + b + d;
    }
  }

  /** Responses under way to the holder of `m`, oldest first. */
  function Pipe(s: State, m: nat): seq<Frame> {
    (if m in s.chan then [s.chan[m]] else []) +
    ((if s.hand.Some? && s.hand.value.mark == m then [s.hand.value] else []) + FramesFor(s.down, m))
  }

  /** The frames a worker for request `r` under mark `m` produces, `n` of them. */
  function Answers(reqs: Requests, r: nat, m: nat, n: nat): (fs: seq<Frame>)
    requires n <= |reqs(r).script|
    ensures |fs| == n
  {
    seq(n, i requires 0 <= i < n => Frame(m, reqs(r).script[i], r))
  }

  /** The commands number `from` to `to` of request `r`. */
  function Commands(r: nat, m: nat, from: nat, to: nat): (cs: seq<Cmd>)
    requires from <= to
    ensures |cs| == to - from
  {
    seq(to - from, i requires 0 <= i < to - from => Cmd(m, from + i == 0, r))
  }

  function Got(s: State, r: nat): nat { if r in s.workers then s.workers[r].got else 0 }

  function Emitted(s: State, r: nat): nat { if r in s.workers then s.workers[r].emitted else 0 }

  // ---- The invariant, mark by mark ----

  /** A locked mark: everything under it belongs to its holder, nothing is lost or reordered. */
  ghost predicate HeldOk(s: State, reqs: Requests, m: nat, r: nat) {
    && r in s.phase && s.phase[r].Holding? && s.phase[r].mark == m && r in s.log
    && s.phase[r].sent <= reqs(r).cmds
    && Got(s, r) <= s.phase[r].sent && Emitted(s, r) <= |reqs(r).script|
    && CmdsFor(s.up, m) == Commands(r, m, Got(s, r), s.phase[r].sent)
    && s.log[r] + Pipe(s, m) == Answers(reqs, r, m, Emitted(s, r))
    && |s.log[r]| < |reqs(r).script|
    && (r in s.workers ==> s.workers[r].mark == m && s.workers[r].got >= 1)
    && (Emitted(s, r) == |reqs(r).script| ==> Got(s, r) == reqs(r).cmds)
    && (reqs(r).stream && Running(s, reqs, r) ==> m in s.streams && s.streams[m] == r)
  }

  /** A free mark: nothing is under way for it in either direction. */
  ghost predicate FreeOk(s: State, m: nat) {
    CmdsFor(s.up, m) == [] && Pipe(s, m) == []
  }

  predicate AllRefused(fs: seq<Frame>) { forall i :: 0 <= i < |fs| ==> fs[i].rsp.code == INVALID }

  predicate DataOf(cs: seq<Cmd>, r: nat) { forall i :: 0 <= i < |cs| ==> !cs[i].first && cs[i].id == r }

  /** A stream that was refused when it opened: it has no worker and sees nothing but refusals. */
  ghost predicate Starved(s: State, reqs: Requests, m: nat, r: nat) {
    && r in s.phase && s.phase[r].Holding? && s.phase[r].mark == m && r in s.log
    && 1 <= s.phase[r].sent <= reqs(r).cmds && reqs(r).stream && r !in s.workers
    && DataOf(CmdsFor(s.up, m), r) && AllRefused(s.log[r]) && AllRefused(Pipe(s, m))
  }

  ghost predicate MarkOk(s: State, reqs: Requests, m: nat) {
    if m in s.holder then HeldOk(s, reqs, m, s.holder[m]) || Starved(s, reqs, m, s.holder[m]) else FreeOk(s, m)
  }

  /** Every request that holds a mark is being served. */
  ghost predicate Served(s: State, reqs: Requests) {
    forall m :: m in s.holder ==> HeldOk(s, reqs, m, s.holder[m])
  }

  /** The lock table and the requests agree. */
  ghost predicate LocksOk(s: State) {
    && (forall m :: m in s.holder ==> m < MARKS && s.holder[m] in s.phase)
    && (forall r :: r in s.phase && s.phase[r].Holding? ==> s.phase[r].mark in s.holder && s.holder[s.phase[r].mark] == r)
  }

  /** A worker still running works for the request that holds its mark. */
  ghost predicate WorkersOk(s: State, reqs: Requests) {
    && (forall w :: w in s.workers ==> w in s.phase && !s.phase[w].Acquiring? && s.workers[w].emitted <= |reqs(w).script|)
    && (forall w :: Running(s, reqs, w) ==> w in s.phase && s.phase[w].Holding? && s.phase[w].mark == s.workers[w].mark)
  }

  ghost predicate StreamsOk(s: State, reqs: Requests) {
    forall m :: m in s.streams ==> s.streams[m] in s.workers && s.workers[s.streams[m]].mark == m && reqs(s.streams[m]).stream
  }

  ghost predicate TablesOk(s: State, reqs: Requests) {
    LocksOk(s) && WorkersOk(s, reqs) && StreamsOk(s, reqs)
  }

  /** A finished request took exactly its own worker's answers, all of them, in order. */
  ghost predicate DoneOk(s: State, reqs: Requests) {
    forall r :: r in s.phase && s.phase[r].Finished? ==>
      r in s.log && |s.log[r]| == |reqs(r).script| &&
      forall i :: 0 <= i < |s.log[r]| ==> s.log[r][i].rsp == reqs(r).script[i] && s.log[r][i].origin == r
  }

  ghost predicate Inv(s: State, reqs: Requests) {
    TablesOk(s, reqs) && DoneOk(s, reqs) && forall m :: MarkOk(s, reqs, m)
  }

  lemma Initially(reqs: Requests)
    ensures Inv(INIT, reqs)
  {
    forall m ensures MarkOk(INIT, reqs, m) {
      assert Pipe(INIT, m) == [];
    }
  }

  // ---- Every step keeps it; only a clash ends service ----

  /** Nothing that concerns mark `m` differs between `s` and `t`. */
  ghost predicate Untouched(s: State, t: State, m: nat) {
    && (m in t.holder <==> m in s.holder)
    && CmdsFor(t.up, m) == CmdsFor(s.up, m) && Pipe(t, m) == Pipe(s, m)
    && (m in t.streams <==> m in s.streams) && (m in s.streams ==> t.streams[m] == s.streams[m])
    && (m in s.holder ==> t.holder[m] == s.holder[m] && SameRequest(s, t, s.holder[m]))
  }

  ghost predicate SameRequest(s: State, t: State, r: nat) {
    && r in s.phase && r in t.phase && t.phase[r] == s.phase[r]
    && (r in t.log <==> r in s.log) && (r in s.log ==> t.log[r] == s.log[r])
    && (r in t.workers <==> r in s.workers) && (r in s.workers ==> t.workers[r] == s.workers[r])
  }

  ghost predicate IsServed(s: State, reqs: Requests, m: nat) { m in s.holder && HeldOk(s, reqs, m, s.holder[m]) }

  ghost predicate IsStarved(s: State, reqs: Requests, m: nat, r: nat) {
    m in s.holder && s.holder[m] == r && !HeldOk(s, reqs, m, r) && Starved(s, reqs, m, r)
  }

  /** What a step does for mark `m`: its account stays in order, service goes on, a starved stream stays so. */
  ghost predicate MarkKept(s: State, t: State, reqs: Requests, m: nat) {
    && MarkOk(t, reqs, m)
    && (m in t.holder && (m in s.holder ==> IsServed(s, reqs, m)) ==> IsServed(t, reqs, m))
    && (m in s.holder && IsStarved(s, reqs, m, s.holder[m]) ==>
          m in t.holder && t.holder[m] == s.holder[m] && Starved(t, reqs, m, s.holder[m]))
  }

  ghost predicate Kept(s: State, t: State, reqs: Requests) {
    Inv(t, reqs) && (Served(s, reqs) ==> Served(t, reqs)) && StarvedKept(s, t, reqs)
  }

  ghost predicate StarvedKept(s: State, t: State, reqs: Requests) {
    forall m, r :: IsStarved(s, reqs, m, r) ==> m in t.holder && t.holder[m] == r && Starved(t, reqs, m, r)
  }

  lemma AllKept(s: State, t: State, reqs: Requests)
    requires TablesOk(t, reqs) && DoneOk(t, reqs) && forall m :: MarkKept(s, t, reqs, m)
    ensures Kept(s, t, reqs)
  {
    forall m ensures MarkOk(t, reqs, m) {
      assert MarkKept(s, t, reqs, m);
    }
    if Served(s, reqs) {
      forall m | m in t.holder ensures HeldOk(t, reqs, m, t.holder[m]) {
        assert MarkKept(s, t, reqs, m);
      }
    }
    forall m, r | IsStarved(s, reqs, m, r) ensures m in t.holder && t.holder[m] == r && Starved(t, reqs, m, r) {
      assert MarkKept(s, t, reqs, m);
    }
  }

  lemma UntouchedKept(s: State, t: State, reqs: Requests, m: nat)
    requires MarkOk(s, reqs, m) && Untouched(s, t, m)
    ensures MarkKept(s, t, reqs, m)
  {
    if m in s.holder {
      var r := s.holder[m];
      assert HeldOk(s, reqs, m, r) ==> HeldOk(t, reqs, m, r);
      assert Starved(s, reqs, m, r) ==> Starved(t, reqs, m, r);
    }
  }

  /** A request is served or starved, never both. */
  lemma NotBoth(s: State, reqs: Requests, m: nat, r: nat)
    requires HeldOk(s, reqs, m, r)
    ensures !Starved(s, reqs, m, r)
  {
    if r !in s.workers && s.phase[r].sent >= 1 {
      assert CmdsFor(s.up, m)[0] == Commands(r, m, 0, s.phase[r].sent)[0];
      assert CmdsFor(s.up, m)[0].first;
    }
  }

  lemma BeginKeeps(s: State, reqs: Requests, r: nat)
    requires Inv(s, reqs) && Enabled(s, reqs, Begin(r))
    ensures Kept(s, Apply(s, reqs, Begin(r)), reqs)
  {
    var t := Apply(s, reqs, Begin(r));
    forall m ensures MarkKept(s, t, reqs, m) {
      assert MarkOk(s, reqs, m) && Pipe(t, m) == Pipe(s, m);
      UntouchedKept(s, t, reqs, m);
    }
    AllKept(s, t, reqs);
  }

  lemma TryMarkLocks(s: State, reqs: Requests, r: nat)
    requires LocksOk(s) && Enabled(s, reqs, TryMark(r))
    ensures LocksOk(Apply(s, reqs, TryMark(r)))
  {
  }

  lemma TryMarkWorkers(s: State, reqs: Requests, r: nat)
    requires WorkersOk(s, reqs) && Enabled(s, reqs, TryMark(r))
    ensures WorkersOk(Apply(s, reqs, TryMark(r)), reqs)
  {
    assert r !in s.workers;
    assert forall w :: Running(Apply(s, reqs, TryMark(r)), reqs, w) ==> Running(s, reqs, w);
  }

  lemma TryMarkTables(s: State, reqs: Requests, r: nat)
    requires TablesOk(s, reqs) && DoneOk(s, reqs) && Enabled(s, reqs, TryMark(r))
    ensures var t := Apply(s, reqs, TryMark(r)); TablesOk(t, reqs) && DoneOk(t, reqs)
  {
    TryMarkLocks(s, reqs, r);
    TryMarkWorkers(s, reqs, r);
  }

  lemma TryMarkOwn(s: State, reqs: Requests, r: nat, m: nat)
    requires Conforming(reqs(r)) && r !in s.workers && FreeOk(s, m) && Enabled(s, reqs, TryMark(r))
    requires m == NextMark(s.lastMark) && m !in s.holder
    ensures MarkKept(s, Apply(s, reqs, TryMark(r)), reqs, m)
  {
    var t := Apply(s, reqs, TryMark(r));
    assert Pipe(t, m) == Pipe(s, m);
    assert t.log[r] + Pipe(t, m) == Answers(reqs, r, m, 0);
    assert CmdsFor(t.up, m) == Commands(r, m, 0, 0);
    assert HeldOk(t, reqs, m, r);
  }

  /** What an attempt to lock a mark leaves alone. */
  ghost predicate OnlyLocks(s: State, t: State, r: nat, h: nat) {
    && t.up == s.up && t.streams == s.streams && t.workers == s.workers
    && t.down == s.down && t.hand == s.hand && t.chan == s.chan
    && (forall q :: q in s.phase && q != r ==> q in t.phase && t.phase[q] == s.phase[q])
    && (forall q :: q != r ==> (q in t.log <==> q in s.log) && (q in s.log ==> t.log[q] == s.log[q]))
    && (forall m :: m in s.holder ==> m in t.holder && t.holder[m] == s.holder[m])
    && (forall m :: m in t.holder ==> m in s.holder || m == h)
  }

  lemma TryMarkShape(s: State, reqs: Requests, r: nat)
    requires Enabled(s, reqs, TryMark(r))
    ensures OnlyLocks(s, Apply(s, reqs, TryMark(r)), r, NextMark(s.lastMark))
  {
  }

  lemma TryMarkOthers(s: State, t: State, reqs: Requests, r: nat, h: nat, m: nat)
    requires MarkOk(s, reqs, m) && OnlyLocks(s, t, r, h) && (m in s.holder || m != h)
    requires r in s.phase && s.phase[r].Acquiring?
    ensures MarkKept(s, t, reqs, m)
  {
    assert Pipe(t, m) == Pipe(s, m);
    if m in s.holder {
      assert s.holder[m] != r && SameRequest(s, t, s.holder[m]);
    }
    UntouchedKept(s, t, reqs, m);
  }

  lemma TryMarkKeeps(s: State, reqs: Requests, r: nat)
    requires AllConform(reqs) && Inv(s, reqs) && Enabled(s, reqs, TryMark(r))
    ensures Kept(s, Apply(s, reqs, TryMark(r)), reqs)
  {
    TryMarkTables(s, reqs, r);
    TryMarkShape(s, reqs, r);
    forall m ensures MarkKept(s, Apply(s, reqs, TryMark(r)), reqs, m) {
      assert MarkOk(s, reqs, m);
      if m == NextMark(s.lastMark) && m !in s.holder {
        TryMarkOwn(s, reqs, r, m);
      } else {
        TryMarkOthers(s, Apply(s, reqs, TryMark(r)), reqs, r, NextMark(s.lastMark), m);
      }
    }
    AllKept(s, Apply(s, reqs, TryMark(r)), reqs);
  }

  lemma SendTables(s: State, reqs: Requests, r: nat)
    requires TablesOk(s, reqs) && DoneOk(s, reqs) && Enabled(s, reqs, Send(r))
    ensures var t := Apply(s, reqs, Send(r)); TablesOk(t, reqs) && DoneOk(t, reqs)
  {
  }

  lemma SendServed(s: State, reqs: Requests, r: nat)
    requires Enabled(s, reqs, Send(r)) && HeldOk(s, reqs, s.phase[r].mark, r)
    ensures HeldOk(Apply(s, reqs, Send(r)), reqs, s.phase[r].mark, r)
  {
    var t := Apply(s, reqs, Send(r));
    var Holding(h, k) := s.phase[r];
    CmdsForSnoc(s.up, Cmd(h, k == 0, r), h);
    assert Pipe(t, h) == Pipe(s, h);
    assert Commands(r, h, Got(s, r), k) + [Cmd(h, k == 0, r)] == Commands(r, h, Got(s, r), k + 1);
  }

  lemma SendStarved(s: State, reqs: Requests, r: nat)
    requires Enabled(s, reqs, Send(r)) && Starved(s, reqs, s.phase[r].mark, r)
    ensures Starved(Apply(s, reqs, Send(r)), reqs, s.phase[r].mark, r)
  {
    var t := Apply(s, reqs, Send(r));
    var Holding(h, k) := s.phase[r];
    CmdsForSnoc(s.up, Cmd(h, false, r), h);
    assert Pipe(t, h) == Pipe(s, h);
  }

  lemma SendOthers(s: State, reqs: Requests, r: nat, m: nat)
    requires Enabled(s, reqs, Send(r)) && MarkOk(s, reqs, m) && m != s.phase[r].mark
    ensures MarkKept(s, Apply(s, reqs, Send(r)), reqs, m)
  {
    var t := Apply(s, reqs, Send(r));
    var Holding(h, k) := s.phase[r];
    CmdsForSnoc(s.up, Cmd(h, k == 0, r), m);
    assert Pipe(t, m) == Pipe(s, m);
    UntouchedKept(s, t, reqs, m);
  }

  lemma SendKeeps(s: State, reqs: Requests, r: nat)
    requires Inv(s, reqs) && Enabled(s, reqs, Send(r))
    ensures Kept(s, Apply(s, reqs, Send(r)), reqs)
  {
    var t, h := Apply(s, reqs, Send(r)), s.phase[r].mark;
    SendTables(s, reqs, r);
    forall m ensures MarkKept(s, t, reqs, m) {
      assert MarkOk(s, reqs, m);
      if m != h {
        SendOthers(s, reqs, r, m);
      } else if HeldOk(s, reqs, m, r) {
        SendServed(s, reqs, r);
      } else {
        SendStarved(s, reqs, r);
      }
    }
    AllKept(s, t, reqs);
  }

  /** The command at the head of the wire belongs to the holder of its mark. */
  ghost predicate HeadOk(s: State) {
    && s.up != []
    && var c := s.up[0];
      && c.id in s.phase && s.phase[c.id].Holding? && s.phase[c.id].mark == c.mark
      && c.mark in s.holder && s.holder[c.mark] == c.id
      && (c.first ==> c.id !in s.workers)
  }

  /**
   The head command of a request that is being served opens exactly when the request
   has no worker yet, and otherwise that worker is the stream registered for the mark.
   */
  ghost predicate Routed(s: State, reqs: Requests) {
    && HeadOk(s)
    && var c := s.up[0];
      && (c.first <==> c.id !in s.workers) && Got(s, c.id) < s.phase[c.id].sent
      && (!c.first ==> c.mark in s.streams && s.streams[c.mark] == c.id && Running(s, reqs, c.id))
  }

  lemma HeadHeld(s: State, reqs: Requests)
    requires Inv(s, reqs) && s.up != []
    ensures HeadOk(s)
  {
    var c := s.up[0];
    assert MarkOk(s, reqs, c.mark);
    assert CmdsFor(s.up, c.mark)[0] == c;
    var r := s.holder[c.mark];
    if HeldOk(s, reqs, c.mark, r) {
      assert Commands(r, c.mark, Got(s, r), s.phase[r].sent)[0] == c;
    }
  }

  lemma HeadIsRouted(s: State, reqs: Requests)
    requires AllConform(reqs) && Inv(s, reqs) && s.up != [] && HeldOk(s, reqs, s.up[0].mark, s.up[0].id)
    ensures Routed(s, reqs)
  {
    var c := s.up[0];
    HeadHeld(s, reqs);
    assert CmdsFor(s.up, c.mark)[0] == c;
    var r := c.id;
    assert Commands(r, c.mark, Got(s, r), s.phase[r].sent)[0] == c;
    assert Conforming(reqs(r));
  }

  /** The data of a starved request goes to a stream that is not its own, or is refused. */
  lemma StarvedIsMisrouted(s: State, reqs: Requests)
    requires Inv(s, reqs) && s.up != [] && Starved(s, reqs, s.up[0].mark, s.up[0].id)
    ensures !s.up[0].first && (s.up[0].mark in s.streams ==> s.streams[s.up[0].mark] != s.up[0].id)
  {
    assert CmdsFor(s.up, s.up[0].mark)[0] == s.up[0];
  }

  lemma HeadLeaves(s: State, m: nat)
    requires s.up != []
    ensures CmdsFor(s.up, m) == (if s.up[0].mark == m then [s.up[0]] else []) + CmdsFor(s.up[1..], m)
    ensures s.up[0].mark == m ==> CmdsFor(s.up[1..], m) == CmdsFor(s.up, m)[1..]
  {
  }

  lemma WorkerChanged(s: State, t: State, reqs: Requests, w: nat, k: Worker)
    requires WorkersOk(s, reqs) && t.phase == s.phase && t.workers == s.workers[w := k] && k.emitted <= |reqs(w).script|
    requires w in s.phase && !s.phase[w].Acquiring?
    requires k.emitted < |reqs(w).script| ==> s.phase[w].Holding? && s.phase[w].mark == k.mark
    ensures WorkersOk(t, reqs)
  {
    forall v | Running(t, reqs, v) ensures v in t.phase && t.phase[v].Holding? && t.phase[v].mark == t.workers[v].mark {
      if v != w { assert Running(s, reqs, v); }
    }
  }

  lemma DispatchWorkers(s: State, reqs: Requests)
    requires HeadOk(s) && WorkersOk(s, reqs) && Enabled(s, reqs, Dispatch)
    ensures WorkersOk(Apply(s, reqs, Dispatch), reqs)
  {
    var t, c := Apply(s, reqs, Dispatch), s.up[0];
    if Refuses(s, reqs) {
      assert t.workers == s.workers && t.phase == s.phase;
      assert forall v :: Running(t, reqs, v) <==> Running(s, reqs, v);
    } else if c.first {
      WorkerChanged(s, t, reqs, c.id, Worker(c.mark, 1, 0));
    } else {
      var w := s.streams[c.mark];
      assert Running(s, reqs, w) <==> s.workers[w].emitted < |reqs(w).script|;
      WorkerChanged(s, t, reqs, w, s.workers[w].(got := s.workers[w].got + 1));
    }
  }

  lemma DispatchStreams(s: State, reqs: Requests)
    requires HeadOk(s) && StreamsOk(s, reqs) && Enabled(s, reqs, Dispatch)
    ensures StreamsOk(Apply(s, reqs, Dispatch), reqs)
  {
  }

  lemma DispatchTables(s: State, reqs: Requests)
    requires HeadOk(s) && TablesOk(s, reqs) && DoneOk(s, reqs) && Enabled(s, reqs, Dispatch)
    ensures var t := Apply(s, reqs, Dispatch); TablesOk(t, reqs) && DoneOk(t, reqs)
  {
    var t := Apply(s, reqs, Dispatch);
    assert t.phase == s.phase && t.holder == s.holder && t.log == s.log;
    DispatchWorkers(s, reqs);
    DispatchStreams(s, reqs);
  }

  lemma PipeSnoc(s: State, t: State, f: Frame, m: nat)
    requires t.down == s.down + [f] && t.hand == s.hand && t.chan == s.chan
    ensures Pipe(t, m) == Pipe(s, m) + if f.mark == m then [f] else []
  {
    FramesForSnoc(s.down, f, m);
    var a, b, c := if m in s.chan then [s.chan[m]] else [], if s.hand.Some? && s.hand.value.mark == m then [s.hand.value] else [],
                   FramesFor(s.down, m);
    var d := if f.mark == m then [f] else [];
    assert a + (b + (c + d)) == a + (b + c) + d;
  }

  /** A dispatch starts or feeds a worker, or refuses under the command's own mark. */
  predicate Refuses(s: State, reqs: Requests) {
    Clash(s, reqs) || (s.up != [] && !s.up[0].first && !(s.up[0].mark in s.streams && s.streams[s.up[0].mark] in s.workers))
  }

  lemma DispatchPipe(s: State, reqs: Requests, m: nat)
    requires Enabled(s, reqs, Dispatch)
    ensures Pipe(Apply(s, reqs, Dispatch), m) ==
      Pipe(s, m) + if Refuses(s, reqs) && m == s.up[0].mark then [Frame(m, REFUSAL, s.up[0].id)] else []
  {
    var t := Apply(s, reqs, Dispatch);
    if Refuses(s, reqs) {
      PipeSnoc(s, t, Frame(s.up[0].mark, REFUSAL, s.up[0].id), m);
    } else {
      assert Pipe(t, m) == Pipe(s, m);
    }
  }

  /** A dispatch leaves the holder of another mark alone. */
  lemma DispatchSame(s: State, reqs: Requests, m: nat)
    requires HeadOk(s) && StreamsOk(s, reqs) && MarkOk(s, reqs, m) && m != s.up[0].mark && m in s.holder
    requires Enabled(s, reqs, Dispatch)
    ensures SameRequest(s, Apply(s, reqs, Dispatch), s.holder[m])
  {
    var t, c, r := Apply(s, reqs, Dispatch), s.up[0], s.holder[m];
    assert t.phase == s.phase && t.log == s.log;
    assert r != c.id && (c.mark in s.streams ==> r != s.streams[c.mark] || r !in s.workers);
  }

  lemma DispatchOthers(s: State, reqs: Requests, m: nat)
    requires HeadOk(s) && StreamsOk(s, reqs) && MarkOk(s, reqs, m) && m != s.up[0].mark
    requires Enabled(s, reqs, Dispatch)
    ensures MarkKept(s, Apply(s, reqs, Dispatch), reqs, m)
  {
    HeadLeaves(s, m);
    DispatchPipe(s, reqs, m);
    DispatchTouches(s, reqs);
    if m in s.holder {
      DispatchSame(s, reqs, m);
    }
    UntouchedKept(s, Apply(s, reqs, Dispatch), reqs, m);
  }

  /** A dispatch takes the head command, and registers a stream under that command's mark at most. */
  lemma DispatchTouches(s: State, reqs: Requests)
    requires Enabled(s, reqs, Dispatch)
    ensures var t, c := Apply(s, reqs, Dispatch), s.up[0];
      t.up == s.up[1..] && t.holder == s.holder && (t.streams == s.streams || t.streams == s.streams[c.mark := c.id])
  {
  }

  lemma DispatchServed(s: State, reqs: Requests)
    requires Routed(s, reqs) && HeldOk(s, reqs, s.up[0].mark, s.up[0].id) && Conforming(reqs(s.up[0].id))
    requires Enabled(s, reqs, Dispatch) && !Clash(s, reqs)
    ensures HeldOk(Apply(s, reqs, Dispatch), reqs, s.up[0].mark, s.up[0].id)
  {
    var r, m := s.up[0].id, s.up[0].mark;
    var g, k := Got(s, r), s.phase[r].sent;
    HeadLeaves(s, m);
    assert Commands(r, m, g, k)[1..] == Commands(r, m, g + 1, k);
    DispatchPipe(s, reqs, m);
    assert !Refuses(s, reqs);
    DispatchFeeds(s, reqs);
    StillServed(s, Apply(s, reqs, Dispatch), reqs, m, r);
  }

  /** A command of a request that is served goes to that request's own worker. */
  lemma DispatchFeeds(s: State, reqs: Requests)
    requires Routed(s, reqs) && Enabled(s, reqs, Dispatch) && !Clash(s, reqs)
    requires s.up[0].id in s.workers ==> s.workers[s.up[0].id].mark == s.up[0].mark
    ensures var t, r, m := Apply(s, reqs, Dispatch), s.up[0].id, s.up[0].mark;
      && t.phase == s.phase && t.log == s.log && t.up == s.up[1..]
      && r in t.workers && t.workers[r] == Worker(m, Got(s, r) + 1, Emitted(s, r))
      && (reqs(r).stream ==> m in t.streams && t.streams[m] == r)
  {
  }

  lemma StillServed(s: State, t: State, reqs: Requests, m: nat, r: nat)
    requires HeldOk(s, reqs, m, r) && Got(s, r) < s.phase[r].sent && Emitted(s, r) < |reqs(r).script|
    requires t.phase == s.phase && t.log == s.log && Pipe(t, m) == Pipe(s, m)
    requires r in t.workers && t.workers[r] == Worker(m, Got(s, r) + 1, Emitted(s, r))
    requires CmdsFor(t.up, m) == Commands(r, m, Got(s, r) + 1, s.phase[r].sent)
    requires reqs(r).stream ==> m in t.streams && t.streams[m] == r
    ensures HeldOk(t, reqs, m, r)
  {
  }

  lemma DispatchStarved(s: State, reqs: Requests)
    requires HeadOk(s) && StreamsOk(s, reqs) && Starved(s, reqs, s.up[0].mark, s.up[0].id) && Enabled(s, reqs, Dispatch)
    ensures Starved(Apply(s, reqs, Dispatch), reqs, s.up[0].mark, s.up[0].id)
  {
    var m := s.up[0].mark;
    HeadLeaves(s, m);
    assert CmdsFor(s.up, m)[0] == s.up[0];
    DispatchPipe(s, reqs, m);
  }

  /** A refused open starves the request that sent it. */
  lemma ClashStarves(s: State, reqs: Requests)
    requires Routed(s, reqs) && HeldOk(s, reqs, s.up[0].mark, s.up[0].id) && Clash(s, reqs)
    ensures Starved(Apply(s, reqs, Dispatch), reqs, s.up[0].mark, s.up[0].id)
  {
    var r, m := s.up[0].id, s.up[0].mark;
    var k := s.phase[r].sent;
    HeadLeaves(s, m);
    assert CmdsFor(s.up[1..], m) == Commands(r, m, 0, k)[1..] == Commands(r, m, 1, k);
    assert Answers(reqs, r, m, 0) == [] && s.log[r] == [] && Pipe(s, m) == [];
    DispatchPipe(s, reqs, m);
  }

  /** What a dispatch does for the mark of its command: only a clash ends service. */
  lemma DispatchOwn(s: State, reqs: Requests)
    requires AllConform(reqs) && Inv(s, reqs) && Enabled(s, reqs, Dispatch) && HeadOk(s)
    ensures var t, m := Apply(s, reqs, Dispatch), s.up[0].mark;
      && MarkOk(t, reqs, m) && (!Clash(s, reqs) ==> MarkKept(s, t, reqs, m))
      && (Clash(s, reqs) ==> IsServed(s, reqs, m) && Starved(t, reqs, m, s.up[0].id))
  {
    var t, c := Apply(s, reqs, Dispatch), s.up[0];
    assert MarkOk(s, reqs, c.mark);
    if HeldOk(s, reqs, c.mark, c.id) {
      DispatchOwnServed(s, reqs);
    } else {
      DispatchOwnStarved(s, reqs);
    }
    if !Clash(s, reqs) {
      SameHolderKept(s, t, reqs, c.mark, c.id);
    }
  }

  lemma SameHolderKept(s: State, t: State, reqs: Requests, m: nat, r: nat)
    requires m in s.holder && s.holder[m] == r && m in t.holder && t.holder[m] == r
    requires HeldOk(s, reqs, m, r) ==> HeldOk(t, reqs, m, r)
    requires !HeldOk(s, reqs, m, r) ==> Starved(t, reqs, m, r)
    ensures MarkKept(s, t, reqs, m)
  {
  }

  lemma DispatchOwnStarved(s: State, reqs: Requests)
    requires Inv(s, reqs) && Enabled(s, reqs, Dispatch) && HeadOk(s) && Starved(s, reqs, s.up[0].mark, s.up[0].id)
    ensures !Clash(s, reqs) && Starved(Apply(s, reqs, Dispatch), reqs, s.up[0].mark, s.up[0].id)
  {
    StarvedIsMisrouted(s, reqs);
    DispatchStarved(s, reqs);
  }

  lemma DispatchOwnServed(s: State, reqs: Requests)
    requires AllConform(reqs) && Inv(s, reqs) && Enabled(s, reqs, Dispatch) && HeldOk(s, reqs, s.up[0].mark, s.up[0].id)
    ensures Clash(s, reqs) ==> Starved(Apply(s, reqs, Dispatch), reqs, s.up[0].mark, s.up[0].id)
    ensures !Clash(s, reqs) ==> HeldOk(Apply(s, reqs, Dispatch), reqs, s.up[0].mark, s.up[0].id)
  {
    assert Conforming(reqs(s.up[0].id));
    HeadIsRouted(s, reqs);
    if Clash(s, reqs) {
      ClashStarves(s, reqs);
    } else {
      DispatchServed(s, reqs);
    }
  }

  /** A dispatch keeps every account; service ends only where the open clashed. */
  lemma DispatchKeeps(s: State, reqs: Requests)
    requires AllConform(reqs) && Inv(s, reqs) && Enabled(s, reqs, Dispatch)
    ensures Inv(Apply(s, reqs, Dispatch), reqs) && StarvedKept(s, Apply(s, reqs, Dispatch), reqs)
    ensures !Clash(s, reqs) ==> Kept(s, Apply(s, reqs, Dispatch), reqs)
    ensures Clash(s, reqs) ==> Starved(Apply(s, reqs, Dispatch), reqs, s.up[0].mark, s.up[0].id)
  {
    var t, c := Apply(s, reqs, Dispatch), s.up[0];
    HeadHeld(s, reqs);
    DispatchTables(s, reqs);
    DispatchOwn(s, reqs);
    forall m ensures MarkOk(t, reqs, m) && (m != c.mark || !Clash(s, reqs) ==> MarkKept(s, t, reqs, m)) {
      assert MarkOk(s, reqs, m);
      if m != c.mark {
        DispatchOthers(s, reqs, m);
      }
    }
    if Clash(s, reqs) {
      forall m, r | IsStarved(s, reqs, m, r) ensures m in t.holder && t.holder[m] == r && Starved(t, reqs, m, r) {
        assert m != c.mark;
        assert MarkKept(s, t, reqs, m);
      }
    } else {
      AllKept(s, t, reqs);
    }
  }

  lemma EmitTables(s: State, reqs: Requests, w: nat)
    requires TablesOk(s, reqs) && DoneOk(s, reqs) && Enabled(s, reqs, Emit(w))
    ensures var t := Apply(s, reqs, Emit(w)); TablesOk(t, reqs) && DoneOk(t, reqs)
  {
    assert Running(s, reqs, w);
  }

  lemma EmitServed(s: State, reqs: Requests, w: nat)
    requires Enabled(s, reqs, Emit(w)) && HeldOk(s, reqs, s.workers[w].mark, w)
    ensures HeldOk(Apply(s, reqs, Emit(w)), reqs, s.workers[w].mark, w)
  {
    var t, k := Apply(s, reqs, Emit(w)), s.workers[w];
    var m, f := k.mark, Frame(k.mark, reqs(w).script[k.emitted], w);
    PipeSnoc(s, t, f, m);
    assert Answers(reqs, w, m, k.emitted) + [f] == Answers(reqs, w, m, k.emitted + 1);
    assert s.log[w] + (Pipe(s, m) + [f]) == s.log[w] + Pipe(s, m) + [f];
  }

  lemma EmitOthers(s: State, reqs: Requests, w: nat, m: nat)
    requires Enabled(s, reqs, Emit(w)) && MarkOk(s, reqs, m)
    requires m != s.workers[w].mark && (m in s.holder ==> s.holder[m] != w)
    ensures MarkKept(s, Apply(s, reqs, Emit(w)), reqs, m)
  {
    var t, k := Apply(s, reqs, Emit(w)), s.workers[w];
    PipeSnoc(s, t, Frame(k.mark, reqs(w).script[k.emitted], w), m);
    UntouchedKept(s, t, reqs, m);
  }

  lemma EmitKeeps(s: State, reqs: Requests, w: nat)
    requires Inv(s, reqs) && Enabled(s, reqs, Emit(w))
    ensures Kept(s, Apply(s, reqs, Emit(w)), reqs)
  {
    var t := Apply(s, reqs, Emit(w));
    EmitTables(s, reqs, w);
    forall m ensures MarkKept(s, t, reqs, m) {
      assert MarkOk(s, reqs, m);
      if m == s.workers[w].mark {
        EmitServed(s, reqs, w);
      } else {
        EmitOthers(s, reqs, w, m);
      }
    }
    AllKept(s, t, reqs);
  }

  lemma RetireMark(s: State, reqs: Requests, w: nat, m: nat)
    requires MarkOk(s, reqs, m) && Enabled(s, reqs, Retire(w))
    ensures MarkKept(s, Apply(s, reqs, Retire(w)), reqs, m)
  {
    var t := Apply(s, reqs, Retire(w));
    assert Pipe(t, m) == Pipe(s, m);
    if m != s.workers[w].mark {
      UntouchedKept(s, t, reqs, m);
    } else if m in s.holder {
      var r := s.holder[m];
      assert HeldOk(s, reqs, m, r) ==> HeldOk(t, reqs, m, r);
      assert Starved(s, reqs, m, r) ==> Starved(t, reqs, m, r);
    }
  }

  lemma RetireKeeps(s: State, reqs: Requests, w: nat)
    requires Inv(s, reqs) && Enabled(s, reqs, Retire(w))
    ensures Kept(s, Apply(s, reqs, Retire(w)), reqs)
  {
    forall m ensures MarkKept(s, Apply(s, reqs, Retire(w)), reqs, m) {
      RetireMark(s, reqs, w, m);
    }
    AllKept(s, Apply(s, reqs, Retire(w)), reqs);
  }

  lemma ReceiveMark(s: State, reqs: Requests, m: nat)
    requires MarkOk(s, reqs, m) && Enabled(s, reqs, Receive)
    ensures MarkKept(s, Apply(s, reqs, Receive), reqs, m)
  {
    var t := Apply(s, reqs, Receive);
    assert Pipe(t, m) == Pipe(s, m);
    UntouchedKept(s, t, reqs, m);
  }

  lemma ReceiveKeeps(s: State, reqs: Requests)
    requires Inv(s, reqs) && Enabled(s, reqs, Receive)
    ensures Kept(s, Apply(s, reqs, Receive), reqs)
  {
    forall m ensures MarkKept(s, Apply(s, reqs, Receive), reqs, m) {
      ReceiveMark(s, reqs, m);
    }
    AllKept(s, Apply(s, reqs, Receive), reqs);
  }

  lemma DeliverMark(s: State, reqs: Requests, m: nat)
    requires MarkOk(s, reqs, m) && Enabled(s, reqs, Deliver)
    ensures MarkKept(s, Apply(s, reqs, Deliver), reqs, m)
  {
    var t := Apply(s, reqs, Deliver);
    assert Pipe(t, m) == Pipe(s, m);
    UntouchedKept(s, t, reqs, m);
  }

  lemma DeliverKeeps(s: State, reqs: Requests)
    requires Inv(s, reqs) && Enabled(s, reqs, Deliver)
    ensures Kept(s, Apply(s, reqs, Deliver), reqs)
  {
    forall m ensures MarkKept(s, Apply(s, reqs, Deliver), reqs, m) {
      DeliverMark(s, reqs, m);
    }
    AllKept(s, Apply(s, reqs, Deliver), reqs);
  }

  /** What a requester is about to take is the next answer of its own worker. */
  ghost predicate NextIsOwn(s: State, reqs: Requests, r: nat)
    requires Enabled(s, reqs, Take(r))
  {
    var m := s.phase[r].mark;
    && m in s.holder && s.holder[m] == r && |s.log[r]| < Emitted(s, r) <= |reqs(r).script|
    && s.chan[m] == Frame(m, reqs(r).script[|s.log[r]|], r)
    && s.log[r] == Answers(reqs, r, m, |s.log[r]|)
    && Rsps(s.log[r] + [s.chan[m]]) == reqs(r).script[..|s.log[r]| + 1]
  }

  lemma TakesOwnNext(s: State, reqs: Requests, r: nat)
    requires LocksOk(s) && Enabled(s, reqs, Take(r)) && HeldOk(s, reqs, s.phase[r].mark, r)
    ensures NextIsOwn(s, reqs, r)
  {
    var m := s.phase[r].mark;
    var all, n := Answers(reqs, r, m, Emitted(s, r)), |s.log[r]|;
    assert s.chan[m] == Pipe(s, m)[0] == (s.log[r] + Pipe(s, m))[n] == all[n];
    assert s.log[r] == (s.log[r] + Pipe(s, m))[..n] == all[..n];
  }

  /** A starved requester takes a refusal and goes on waiting. */
  lemma StarvedWaits(s: State, reqs: Requests, r: nat)
    requires Enabled(s, reqs, Take(r)) && Starved(s, reqs, s.phase[r].mark, r) && WellFormed(reqs(r))
    ensures s.chan[s.phase[r].mark].rsp.code == INVALID && !reqs(r).stops(Rsps(s.log[r] + [s.chan[s.phase[r].mark]]))
  {
    var f := s.chan[s.phase[r].mark];
    assert Pipe(s, s.phase[r].mark)[0] == f;
    var taken := Rsps(s.log[r] + [f]);
    assert taken[|taken| - 1] == f.rsp;
  }

  lemma TakeOthers(s: State, reqs: Requests, r: nat, m: nat)
    requires LocksOk(s) && Enabled(s, reqs, Take(r)) && MarkOk(s, reqs, m) && m != s.phase[r].mark
    ensures MarkKept(s, Apply(s, reqs, Take(r)), reqs, m)
  {
    var t := Apply(s, reqs, Take(r));
    assert Pipe(t, m) == Pipe(s, m);
    UntouchedKept(s, t, reqs, m);
  }

  /** Taking moves one frame from what is under way to what has been taken. */
  lemma TakeMoves(s: State, reqs: Requests, r: nat)
    requires Enabled(s, reqs, Take(r))
    ensures var t, m := Apply(s, reqs, Take(r)), s.phase[r].mark;
      && t.log[r] + Pipe(t, m) == s.log[r] + Pipe(s, m) && t.log[r] == s.log[r] + [s.chan[m]]
      && Pipe(s, m) == [s.chan[m]] + Pipe(t, m)
  {
    var t, m := Apply(s, reqs, Take(r)), s.phase[r].mark;
    assert Pipe(s, m) == [s.chan[m]] + Pipe(t, m);
    assert s.log[r] + ([s.chan[m]] + Pipe(t, m)) == s.log[r] + [s.chan[m]] + Pipe(t, m);
  }

  /** Served: the requester goes on, or has everything and leaves the mark quiet. */
  lemma TakeServed(s: State, reqs: Requests, r: nat)
    requires Enabled(s, reqs, Take(r)) && NextIsOwn(s, reqs, r) && Conforming(reqs(r))
    requires HeldOk(s, reqs, s.phase[r].mark, r)
    ensures MarkKept(s, Apply(s, reqs, Take(r)), reqs, s.phase[r].mark)
  {
    TakeMoves(s, reqs, r);
    var n, q := |s.log[r]| + 1, reqs(r);
    assert n == |q.script| ==> q.script[..n] == q.script;
    assert q.stops(q.script[..n]) <==> n == |q.script|;
    var t, m := Apply(s, reqs, Take(r)), s.phase[r].mark;
    if n < |q.script| {
      assert HeldOk(t, reqs, m, r);
    } else {
      assert FreeOk(t, m);
    }
  }

  lemma TakeStarved(s: State, reqs: Requests, r: nat)
    requires Enabled(s, reqs, Take(r)) && Starved(s, reqs, s.phase[r].mark, r) && WellFormed(reqs(r))
    ensures Starved(Apply(s, reqs, Take(r)), reqs, s.phase[r].mark, r) && Apply(s, reqs, Take(r)).phase == s.phase
  {
    StarvedWaits(s, reqs, r);
    TakeMoves(s, reqs, r);
    var t, m := Apply(s, reqs, Take(r)), s.phase[r].mark;
    RefusedTail(s.chan[m], Pipe(t, m));
    assert t.phase == s.phase && t.up == s.up && t.workers == s.workers;
    assert AllRefused(t.log[r]);
  }

  lemma RefusedTail(f: Frame, fs: seq<Frame>)
    requires AllRefused([f] + fs)
    ensures AllRefused(fs)
  {
    assert forall i :: 0 <= i < |fs| ==> ([f] + fs)[i + 1] == fs[i];
  }

  lemma TakeTables(s: State, reqs: Requests, r: nat)
    requires Enabled(s, reqs, Take(r)) && TablesOk(s, reqs)
    requires Apply(s, reqs, Take(r)).phase != s.phase ==> !Running(s, reqs, r)
    ensures TablesOk(Apply(s, reqs, Take(r)), reqs)
  {
  }

  lemma TakeDone(s: State, reqs: Requests, r: nat)
    requires Enabled(s, reqs, Take(r)) && NextIsOwn(s, reqs, r) && Conforming(reqs(r))
    requires DoneOk(s, reqs)
    ensures DoneOk(Apply(s, reqs, Take(r)), reqs)
    ensures Apply(s, reqs, Take(r)).phase != s.phase ==> |s.log[r]| + 1 == |reqs(r).script|
  {
    var n, q := |s.log[r]| + 1, reqs(r);
    assert n < |q.script| ==> !q.stops(q.script[..n]);
  }

  lemma TakeKeeps(s: State, reqs: Requests, r: nat)
    requires AllConform(reqs) && Inv(s, reqs) && Enabled(s, reqs, Take(r))
    ensures Kept(s, Apply(s, reqs, Take(r)), reqs)
  {
    var t, h := Apply(s, reqs, Take(r)), s.phase[r].mark;
    assert Conforming(reqs(r)) && MarkOk(s, reqs, h);
    if HeldOk(s, reqs, h, r) {
      TakesOwnNext(s, reqs, r);
      TakeDone(s, reqs, r);
      TakeServed(s, reqs, r);
    } else {
      TakeStarved(s, reqs, r);
      StarvedWaits(s, reqs, r);
    }
    TakeTables(s, reqs, r);
    forall m ensures MarkKept(s, t, reqs, m) {
      assert MarkOk(s, reqs, m);
      if m != h {
        TakeOthers(s, reqs, r, m);
      }
    }
    AllKept(s, t, reqs);
  }

  lemma StepKeeps(s: State, reqs: Requests, e: Event)
    requires AllConform(reqs) && Inv(s, reqs) && Enabled(s, reqs, e)
    ensures Inv(Apply(s, reqs, e), reqs)
    ensures Served(s, reqs) && !(e.Dispatch? && Clash(s, reqs)) ==> Served(Apply(s, reqs, e), reqs)
    ensures StarvedKept(s, Apply(s, reqs, e), reqs)
  {
    match e
    case Begin(r) => BeginKeeps(s, reqs, r);
    case TryMark(r) => TryMarkKeeps(s, reqs, r);
    case Send(r) => SendKeeps(s, reqs, r);
    case Dispatch => DispatchKeeps(s, reqs);
    case Emit(w) => EmitKeeps(s, reqs, w);
    case Retire(w) => RetireKeeps(s, reqs, w);
    case Receive => ReceiveKeeps(s, reqs);
    case Deliver => DeliverKeeps(s, reqs);
    case Take(r) => TakeKeeps(s, reqs, r);
  }

  lemma {:induction false} RunKeeps(s: State, reqs: Requests, es: seq<Event>)
    requires AllConform(reqs) && Inv(s, reqs) && IsRun(s, reqs, es)
    ensures Inv(Exec(s, reqs, es), reqs)
    decreases |es|
  {
    if es != [] {
      StepKeeps(s, reqs, es[0]);
      RunKeeps(Apply(s, reqs, es[0]), reqs, es[1..]);
    }
  }

  // ---- The theorems, over every run ----

  /** A mark nobody holds is not spoken of: no command, no response, no worker for it. */
  ghost predicate Quiet(s: State, reqs: Requests) {
    forall m :: m !in s.holder ==> FreeOk(s, m) && NoWorker(s, reqs, m)
  }

  ghost predicate NoWorker(s: State, reqs: Requests, m: nat) {
    forall w :: Running(s, reqs, w) ==> s.workers[w].mark != m
  }

  /** What the holder of a mark has taken is the beginning of its own worker's answers. */
  ghost predicate TookOwn(s: State, reqs: Requests, r: nat) {
    && r in s.phase && s.phase[r].Holding? && r in s.log && |s.log[r]| <= |reqs(r).script|
    && s.log[r] == Answers(reqs, r, s.phase[r].mark, |s.log[r]|)
  }

  /**
   Whatever the interleaving: a finished request took exactly its own worker's answers,
   a free mark is quiet, and a request under way has taken the beginning of its own
   worker's answers, or is a stream that was refused when it opened.
   */
  lemma EveryRun(reqs: Requests, es: seq<Event>)
    requires AllConform(reqs) && IsRun(INIT, reqs, es)
    ensures var s := Exec(INIT, reqs, es);
      && Quiet(s, reqs) && DoneOk(s, reqs)
      && forall r :: r in s.phase && s.phase[r].Holding? ==> TookOwn(s, reqs, r) || Starved(s, reqs, s.phase[r].mark, r)
  {
    var s := Exec(INIT, reqs, es);
    Initially(reqs);
    RunKeeps(INIT, reqs, es);
    forall m | m !in s.holder ensures FreeOk(s, m) && NoWorker(s, reqs, m) {
      assert MarkOk(s, reqs, m);
    }
    forall r | r in s.phase && s.phase[r].Holding? ensures TookOwn(s, reqs, r) || Starved(s, reqs, s.phase[r].mark, r) {
      var m := s.phase[r].mark;
      assert MarkOk(s, reqs, m);
      if HeldOk(s, reqs, m, r) {
        assert s.log[r] == (s.log[r] + Pipe(s, m))[..|s.log[r]|];
      }
    }
  }

  // ---- Refused streams, and exactly when there are none ----

  /** No open is ever dispatched while its mark is registered. */
  predicate ClashFree(s: State, reqs: Requests, es: seq<Event>)
    requires IsRun(s, reqs, es)
    decreases |es|
  {
    es == [] || (!(es[0].Dispatch? && Clash(s, reqs)) && ClashFree(Apply(s, reqs, es[0]), reqs, es[1..]))
  }

  /** At every point of the run everybody who holds a mark is being served. */
  ghost predicate AlwaysServed(s: State, reqs: Requests, es: seq<Event>)
    requires IsRun(s, reqs, es)
    decreases |es|
  {
    Served(s, reqs) && (es == [] || AlwaysServed(Apply(s, reqs, es[0]), reqs, es[1..]))
  }

  /** Along a run every request is served throughout if and only if no open clashes. */
  lemma {:induction false} ServedIff(s: State, reqs: Requests, es: seq<Event>)
    requires AllConform(reqs) && Inv(s, reqs) && Served(s, reqs) && IsRun(s, reqs, es)
    ensures AlwaysServed(s, reqs, es) <==> ClashFree(s, reqs, es)
    decreases |es|
  {
    if es != [] {
      var t := Apply(s, reqs, es[0]);
      StepKeeps(s, reqs, es[0]);
      if es[0].Dispatch? && Clash(s, reqs) {
        DispatchKeeps(s, reqs);
        HeadHeld(s, reqs);
        var c := s.up[0];
        assert t.holder[c.mark] == c.id;
        if HeldOk(t, reqs, c.mark, c.id) { NotBoth(t, reqs, c.mark, c.id); }
        assert !Served(t, reqs);
      } else {
        ServedIff(t, reqs, es[1..]);
      }
    }
  }

  /** From the start of the connection. */
  lemma ServedFromStartIff(reqs: Requests, es: seq<Event>)
    requires AllConform(reqs) && IsRun(INIT, reqs, es)
    ensures AlwaysServed(INIT, reqs, es) <==> ClashFree(INIT, reqs, es)
  {
    Initially(reqs);
    ServedIff(INIT, reqs, es);
  }

  /** A starved request waits forever: whatever happens next, it has not finished. */
  lemma {:induction false} StarvedForever(s: State, reqs: Requests, es: seq<Event>, m: nat, r: nat)
    requires AllConform(reqs) && Inv(s, reqs) && IsRun(s, reqs, es)
    requires m in s.holder && s.holder[m] == r && Starved(s, reqs, m, r)
    ensures var t := Exec(s, reqs, es); r in t.phase && !t.phase[r].Finished? && Starved(t, reqs, m, r)
    decreases |es|
  {
    if es != [] {
      StepKeeps(s, reqs, es[0]);
      if HeldOk(s, reqs, m, r) { NotBoth(s, reqs, m, r); }
      assert IsStarved(s, reqs, m, r);
      StarvedForever(Apply(s, reqs, es[0]), reqs, es[1..], m, r);
    }
  }
}
