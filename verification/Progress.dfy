/**
 Does a connection get on? Under conforming requests the client's read loop never holds
 a response it cannot deliver, and some step is always possible, with one exception: the
 server runs at most 64 workers, an open stream is one of them, and while 64 streams
 wait for data a command that needs a worker of its own keeps that data from them.
 A requester that stops with two answers to come jams the read loop. The last part
 carries this over to closing the session.
 */
module Progress {
  import opened Bytes
  import opened Protocol
  import opened Multiplex
  import opened MarkReuse
  import CS = ClientSession

  // ---- The client's read loop ----

  /** The read loop holds a response for the full channel of a mark nobody holds. */
  predicate Jammed(s: State) {
    s.hand.Some? && s.hand.value.mark in s.chan && s.hand.value.mark !in s.holder
  }

  lemma NeverJammed(reqs: Requests, es: seq<Event>)
    requires AllConform(reqs) && IsRun(INIT, reqs, es)
    ensures !Jammed(Exec(INIT, reqs, es))
  {
    EveryRun(reqs, es);
    var s := Exec(INIT, reqs, es);
    if s.hand.Some? && s.hand.value.mark !in s.holder {
      assert FreeOk(s, s.hand.value.mark);
    }
  }

  lemma Leftover(reqs: Requests, r: nat, j: nat, es: seq<Event>) returns (fs: seq<Event>)
    requires j < |reqs(r).script| && reqs(r).cmds >= 1
    requires IsRun(INIT, reqs, es) && Exec(INIT, reqs, es) == Stopped(reqs, r, j)
    ensures IsRun(INIT, reqs, fs)
    ensures Exec(INIT, reqs, fs) ==
      Stopped(reqs, r, j).(workers := map[r := Worker(1, reqs(r).cmds, j + 1)], chan := map[1 := Frame(1, reqs(r).script[j], r)])
  {
    RunAppend(INIT, reqs, es, Emit(r));
    RunAppend(INIT, reqs, es + [Emit(r)], Receive);
    RunAppend(INIT, reqs, es + [Emit(r)] + [Receive], Deliver);
    fs := es + [Emit(r)] + [Receive] + [Deliver];
    var t := Exec(INIT, reqs, fs);
    assert t.workers == map[r := Worker(1, reqs(r).cmds, j + 1)] && t.chan == map[1 := Frame(1, reqs(r).script[j], r)] && t.down == [];
  }

  /** A requester that stops with two answers to come leaves the read loop jammed and nobody holding a mark. */
  lemma EarlyStopJams(reqs: Requests, r: nat, j: nat) returns (es: seq<Event>)
    requires WellFormed(reqs(r)) && 0 < j && j + 2 <= |reqs(r).script| && reqs(r).stops(reqs(r).script[..j])
    requires forall n :: 0 < n < j ==> !reqs(r).stops(reqs(r).script[..n])
    ensures IsRun(INIT, reqs, es) && Jammed(Exec(INIT, reqs, es)) && Exec(INIT, reqs, es).holder == map[]
    ensures Exec(INIT, reqs, es).chan.Keys == {1} && Exec(INIT, reqs, es).hand.value.mark == 1
  {
    var fs := StoppedReached(reqs, r, j);
    var gs := Leftover(reqs, r, j, fs);
    RunAppend(INIT, reqs, gs, Emit(r));
    RunAppend(INIT, reqs, gs + [Emit(r)], Receive);
    es := gs + [Emit(r)] + [Receive];
  }

  /** Nobody is given mark `m` during the run. */
  predicate Unclaimed(s: State, reqs: Requests, es: seq<Event>, m: nat)
    requires IsRun(s, reqs, es)
    decreases |es|
  {
    m !in s.holder && (es == [] || Unclaimed(Apply(s, reqs, es[0]), reqs, es[1..], m))
  }

  /** Nothing more reaches any channel. */
  ghost predicate Cut(s: State, t: State) {
    t.hand == s.hand && t.chan.Keys <= s.chan.Keys && forall m :: m in t.chan ==> t.chan[m] == s.chan[m]
  }

  ghost predicate NobodyHolds(s: State, m: nat) { forall r :: r in s.phase && s.phase[r].Holding? ==> s.phase[r].mark != m }

  lemma UnclaimedStep(s: State, reqs: Requests, e: Event, m: nat)
    requires NobodyHolds(s, m) && Enabled(s, reqs, e) && m !in Apply(s, reqs, e).holder
    ensures NobodyHolds(Apply(s, reqs, e), m)
  {
    var t := Apply(s, reqs, e);
    if e.TryMark? {
      assert t.phase == s.phase || (NextMark(s.lastMark) != m && t.phase == s.phase[e.r := Holding(NextMark(s.lastMark), 0)]);
    } else {
      PhaseSteps(s, reqs, e);
    }
  }

  /** Only an attempt at a mark makes anybody hold one. */
  lemma PhaseSteps(s: State, reqs: Requests, e: Event)
    requires Enabled(s, reqs, e) && !e.TryMark?
    ensures var t := Apply(s, reqs, e);
      forall r :: r in t.phase && t.phase[r].Holding? ==> r in s.phase && s.phase[r].Holding? && s.phase[r].mark == t.phase[r].mark
  {
    if !(e.Begin? || e.Send? || e.Take?) {
      assert Apply(s, reqs, e).phase == s.phase;
    }
  }

  /** Only the read loop puts anything into a channel. */
  lemma ChanSteps(s: State, reqs: Requests, e: Event)
    requires Enabled(s, reqs, e) && !e.Receive? && !e.Deliver?
    ensures var t := Apply(s, reqs, e);
      t.hand == s.hand && t.chan == if e.Take? then s.chan - {s.phase[e.r].mark} else s.chan
  {
  }

  lemma JamStep(s: State, reqs: Requests, e: Event)
    requires Jammed(s) && NobodyHolds(s, s.hand.value.mark) && Enabled(s, reqs, e) && s.hand.value.mark !in Apply(s, reqs, e).holder
    ensures Jammed(Apply(s, reqs, e)) && Cut(s, Apply(s, reqs, e))
  {
    ChanSteps(s, reqs, e);
  }

  /** From then on no response reaches any channel until somebody is given that very mark. */
  lemma {:induction false} JamStays(s: State, reqs: Requests, es: seq<Event>)
    requires Jammed(s) && NobodyHolds(s, s.hand.value.mark) && IsRun(s, reqs, es) && Unclaimed(s, reqs, es, s.hand.value.mark)
    ensures Jammed(Exec(s, reqs, es)) && Cut(s, Exec(s, reqs, es))
    decreases |es|
  {
    if es != [] {
      UnclaimedStep(s, reqs, es[0], s.hand.value.mark);
      JamStep(s, reqs, es[0]);
      JamStays(Apply(s, reqs, es[0]), reqs, es[1..]);
    }
  }

  // ---- The server's workers ----

  /** A worker that has sent all but its last answer and lacks commands for that. */
  predicate Waits(s: State, reqs: Requests, w: nat) {
    w in s.workers && s.workers[w].emitted == |reqs(w).script| - 1 && s.workers[w].got != reqs(w).cmds
  }

  /** 64 workers wait for data, the next command needs a 65th, and nothing is under way to the client. */
  ghost predicate Gridlock(s: State, reqs: Requests) {
    && s.up != [] && s.up[0].first && !Clash(s, reqs) && |RunningWorkers(s, reqs)| >= MAX_WORKERS
    && (forall w :: Running(s, reqs, w) ==> Waits(s, reqs, w))
    && s.down == [] && s.hand.None? && s.chan == map[]
  }

  /** Every requester has sent its commands. */
  ghost predicate AllSent(s: State, reqs: Requests) {
    forall r :: r in s.phase && s.phase[r].Holding? ==> s.phase[r].sent == reqs(r).cmds
  }

  /** A step that serves a request; starting one, looking for a mark and dropping a registration are not. */
  predicate Serves(e: Event) { e.Send? || e.Dispatch? || e.Emit? || e.Receive? || e.Deliver? || e.Take? }

  ghost predicate Moves(s: State, reqs: Requests) { exists e :: Serves(e) && Enabled(s, reqs, e) }

  lemma HolderOk(s: State, reqs: Requests, r: nat)
    requires Inv(s, reqs) && r in s.phase && s.phase[r].Holding?
    ensures r in s.log && s.phase[r].sent <= reqs(r).cmds
  {
    assert MarkOk(s, reqs, s.phase[r].mark);
  }

  /** Whatever lies in a channel, the holder of its mark can take it. */
  lemma FullMoves(s: State, reqs: Requests, m: nat)
    requires Inv(s, reqs) && AllSent(s, reqs) && m in s.chan
    ensures Moves(s, reqs)
  {
    assert MarkOk(s, reqs, m);
    assert Pipe(s, m)[0] == s.chan[m];
    var r := s.holder[m];
    assert s.phase[r].Holding? && s.phase[r].mark == m;
    assert Serves(Take(r)) && Enabled(s, reqs, Take(r));
  }

  lemma DownMoves(s: State, reqs: Requests)
    requires Inv(s, reqs) && AllSent(s, reqs) && (s.chan != map[] || s.hand.Some? || s.down != [])
    ensures Moves(s, reqs)
  {
    if s.chan != map[] {
      var m :| m in s.chan;
      FullMoves(s, reqs, m);
    } else if s.hand.Some? {
      assert Serves(Deliver) && Enabled(s, reqs, Deliver);
    } else {
      assert Serves(Receive) && Enabled(s, reqs, Receive);
    }
  }

  /** With nothing under way to the client, a served request has a command or an answer to come. */
  lemma UpMoves(s: State, reqs: Requests, m: nat)
    requires AllConform(reqs) && Inv(s, reqs) && AllSent(s, reqs) && IsServed(s, reqs, m)
    requires s.chan == map[] && s.hand.None? && s.down == [] && !Gridlock(s, reqs)
    ensures Moves(s, reqs)
  {
    var r := s.holder[m];
    assert Pipe(s, m) == [] && s.log[r] + Pipe(s, m) == s.log[r];
    assert Emitted(s, r) < |reqs(r).script|;
    if r in s.workers && !Waits(s, reqs, r) {
      assert Serves(Emit(r)) && Enabled(s, reqs, Emit(r));
    } else {
      assert Conforming(reqs(r));
      assert Got(s, r) < reqs(r).cmds;
      assert |CmdsFor(s.up, m)| > 0 && s.up != [];
      DispatchMoves(s, reqs);
    }
  }

  lemma DispatchMoves(s: State, reqs: Requests)
    requires s.up != [] && s.chan == map[] && s.hand.None? && s.down == [] && !Gridlock(s, reqs)
    ensures Moves(s, reqs)
  {
    if Enabled(s, reqs, Dispatch) {
      assert Serves(Dispatch);
    } else {
      var w :| Running(s, reqs, w) && !Waits(s, reqs, w);
      assert Serves(Emit(w)) && Enabled(s, reqs, Emit(w));
    }
  }

  lemma GridlockStops(s: State, reqs: Requests)
    requires Gridlock(s, reqs) && AllSent(s, reqs)
    ensures !Moves(s, reqs)
  {
    forall e | Serves(e) ensures !Enabled(s, reqs, e) {
      if e.Emit? && Running(s, reqs, e.w) { assert Waits(s, reqs, e.w); }
    }
  }

  /**
   While some request is being served, a step that serves a request is possible if and
   only if the connection is not gridlocked with everything sent.
   */
  lemma MovesIff(reqs: Requests, es: seq<Event>, m: nat)
    requires AllConform(reqs) && IsRun(INIT, reqs, es) && IsServed(Exec(INIT, reqs, es), reqs, m)
    ensures var s := Exec(INIT, reqs, es); Moves(s, reqs) <==> !(Gridlock(s, reqs) && AllSent(s, reqs))
  {
    var s := Exec(INIT, reqs, es);
    Initially(reqs);
    RunKeeps(INIT, reqs, es);
    if !AllSent(s, reqs) {
      var r :| r in s.phase && s.phase[r].Holding? && s.phase[r].sent != reqs(r).cmds;
      HolderOk(s, reqs, r);
      assert Serves(Send(r)) && Enabled(s, reqs, Send(r));
    } else if Gridlock(s, reqs) {
      GridlockStops(s, reqs);
    } else if s.chan != map[] || s.hand.Some? || s.down != [] {
      DownMoves(s, reqs);
    } else {
      UpMoves(s, reqs, m);
    }
  }

  /** Whoever holds a mark still holds it and has taken nothing since. */
  ghost predicate NobodyServed(s: State, t: State) {
    forall r :: r in s.phase && s.phase[r].Holding? ==>
      && r in t.phase && t.phase[r].Holding? && t.phase[r].mark == s.phase[r].mark
      && (r in s.log ==> r in t.log && t.log[r] == s.log[r])
  }

  lemma GridlockStep(s: State, reqs: Requests, e: Event)
    requires Gridlock(s, reqs) && Enabled(s, reqs, e)
    ensures Gridlock(Apply(s, reqs, e), reqs) && NobodyServed(s, Apply(s, reqs, e))
  {
    assert forall w :: Running(s, reqs, w) ==> !Enabled(s, reqs, Emit(w));
    assert !e.Take? && !e.Receive? && !e.Deliver? && !e.Dispatch? && !e.Emit?;
    var t := Apply(s, reqs, e);
    assert t.workers == s.workers && t.up[0] == s.up[0];
    assert RunningWorkers(t, reqs) == RunningWorkers(s, reqs);
    assert forall w :: Running(t, reqs, w) ==> Running(s, reqs, w);
  }

  /** A gridlock is never left, whatever happens: no request is served again. */
  lemma {:induction false} GridlockForever(s: State, reqs: Requests, es: seq<Event>)
    requires Gridlock(s, reqs) && IsRun(s, reqs, es)
    ensures Gridlock(Exec(s, reqs, es), reqs) && NobodyServed(s, Exec(s, reqs, es))
    decreases |es|
  {
    if es != [] {
      GridlockStep(s, reqs, es[0]);
      GridlockForever(Apply(s, reqs, es[0]), reqs, es[1..]);
    }
  }

  // ---- How a gridlock comes about ----

  /** Requests 0 to `k` - 1 are streams that have been opened under marks 1 to `k`, and nothing else. */
  ghost predicate Lined(s: State, k: nat) {
    && s.lastMark == k && s.up == [] && s.down == [] && s.hand.None? && s.chan == map[]
    && (forall m: nat :: m in s.holder <==> 1 <= m <= k) && (forall m: nat :: m in s.streams <==> 1 <= m <= k)
    && (forall r: nat :: r in s.phase <==> r < k)
    && (forall w: nat :: w in s.workers <==> w < k) && (forall w: nat :: w < k ==> s.workers[w] == Worker(w + 1, 1, 0))
  }

  /** A large write: a stream of two commands or more, answered once. */
  ghost predicate LargeWrite(q: Request) { Conforming(q) && q.stream && q.cmds >= 2 && |q.script| == 1 }

  function Below(k: nat): (ns: set<nat>)
    ensures |ns| == k && forall n: nat :: n in ns <==> n < k
  {
    if k == 0 then {} else Below(k - 1) + {k - 1}
  }

  lemma LinedRuns(s: State, reqs: Requests, k: nat)
    requires Lined(s, k) && forall r: nat :: r < k ==> LargeWrite(reqs(r))
    ensures |RunningWorkers(s, reqs)| == k
  {
    assert RunningWorkers(s, reqs) == Below(k);
  }

  /** Request `k` holds mark `k` + 1 and has sent its first command. */
  function Joined(s: State, k: nat): State {
    s.(lastMark := k + 1, holder := s.holder[k + 1 := k], phase := s.phase[k := Holding(k + 1, 1)],
       log := s.log[k := []], up := [Cmd(k + 1, true, k)])
  }

  lemma LocksNext(s: State, reqs: Requests, k: nat)
    requires Lined(s, k) && k <= MAX_WORKERS
    ensures Enabled(s, reqs, Begin(k)) && Enabled(Apply(s, reqs, Begin(k)), reqs, TryMark(k))
    ensures Apply(Apply(s, reqs, Begin(k)), reqs, TryMark(k)) ==
      s.(lastMark := k + 1, holder := s.holder[k + 1 := k], phase := s.phase[k := Holding(k + 1, 0)], log := s.log[k := []])
  {
    assert NextMark(s.lastMark) == k + 1;
    assert s.phase[k := Acquiring][k := Holding(k + 1, 0)] == s.phase[k := Holding(k + 1, 0)];
  }

  lemma SendsNext(s: State, reqs: Requests, k: nat)
    requires s.up == [] && k in s.phase && s.phase[k] == Holding(k + 1, 0) && reqs(k).cmds >= 1
    ensures Enabled(s, reqs, Send(k))
    ensures Apply(s, reqs, Send(k)) == s.(phase := s.phase[k := Holding(k + 1, 1)], up := [Cmd(k + 1, true, k)])
  {
  }

  /** One more request finds a mark and sends its first command. */
  lemma Opens(reqs: Requests, es: seq<Event>, k: nat) returns (fs: seq<Event>)
    requires IsRun(INIT, reqs, es) && Lined(Exec(INIT, reqs, es), k) && k <= MAX_WORKERS && reqs(k).cmds >= 1
    ensures IsRun(INIT, reqs, fs) && Exec(INIT, reqs, fs) == Joined(Exec(INIT, reqs, es), k)
  {
    var s := Exec(INIT, reqs, es);
    LocksNext(s, reqs, k);
    var b := Apply(s, reqs, Begin(k));
    var c := Apply(b, reqs, TryMark(k));
    SendsNext(c, reqs, k);
    var d := Apply(c, reqs, Send(k));
    assert c.phase[k := Holding(k + 1, 1)] == s.phase[k := Holding(k + 1, 1)];
    fs := Extended(reqs, es, s, Begin(k), b);
    fs := Extended(reqs, fs, b, TryMark(k), c);
    fs := Extended(reqs, fs, c, Send(k), d);
  }

  lemma {:induction false} LinedReached(reqs: Requests, k: nat) returns (es: seq<Event>)
    requires k <= MAX_WORKERS && forall r: nat :: r < k ==> LargeWrite(reqs(r))
    ensures IsRun(INIT, reqs, es) && Lined(Exec(INIT, reqs, es), k)
    decreases k
  {
    es := [];
    if k > 0 {
      var fs := LinedReached(reqs, k - 1);
      var gs := Opens(reqs, fs, k - 1);
      OneMoreLined(Exec(INIT, reqs, fs), reqs, k - 1);
      RunAppend(INIT, reqs, gs, Dispatch);
      es := gs + [Dispatch];
    }
  }

  lemma OneMoreLined(s: State, reqs: Requests, k: nat)
    requires Lined(s, k) && k < MAX_WORKERS && forall r: nat :: r <= k ==> LargeWrite(reqs(r))
    ensures Enabled(Joined(s, k), reqs, Dispatch) && Lined(Apply(Joined(s, k), reqs, Dispatch), k + 1)
  {
    var t := Joined(s, k);
    LinedRuns(s, reqs, k);
    assert RunningWorkers(t, reqs) == RunningWorkers(s, reqs);
    assert LargeWrite(reqs(k));
    assert !Clash(t, reqs) && t.up[1..] == [];
  }

  /** It does come up: 64 large writes have been opened when any other command is sent. */
  lemma GridlockReached(reqs: Requests) returns (es: seq<Event>)
    requires forall r: nat :: r < MAX_WORKERS ==> LargeWrite(reqs(r))
    requires reqs(MAX_WORKERS).cmds >= 1
    ensures IsRun(INIT, reqs, es) && Gridlock(Exec(INIT, reqs, es), reqs)
  {
    var fs := LinedReached(reqs, MAX_WORKERS);
    es := Opens(reqs, fs, MAX_WORKERS);
    var s, t := Exec(INIT, reqs, fs), Exec(INIT, reqs, es);
    LinedRuns(s, reqs, MAX_WORKERS);
    assert RunningWorkers(t, reqs) == RunningWorkers(s, reqs);
    forall w | Running(t, reqs, w) ensures Waits(t, reqs, w) {
      assert LargeWrite(reqs(w));
    }
  }

  // ---- Closing the session ----

  /** Both models show the same moment: who holds a mark, what lies in the channels and in hand, and for which marks more will come. */
  ghost predicate SameMoment(s: State, reqs: Requests, t: CS.State) {
    && t.loops != [] && t.holder.Keys == s.holder.Keys && t.slots == s.chan.Keys
    && (forall m :: t.loops[|t.loops| - 1] == CS.Delivering(m) <==> s.hand.Some? && s.hand.value.mark == m)
    && (forall m :: m in t.due ==> MoreComes(s, reqs, m))
  }

  ghost predicate MoreComes(s: State, reqs: Requests, m: nat) {
    FramesFor(s.down, m) != [] || CmdsFor(s.up, m) != [] || !NoWorker(s, reqs, m)
  }

  /** With conforming requests an idle session has nothing under way. */
  lemma IdleIsSilent(reqs: Requests, es: seq<Event>, m: nat)
    requires AllConform(reqs) && IsRun(INIT, reqs, es) && m !in Exec(INIT, reqs, es).holder
    ensures var s := Exec(INIT, reqs, es);
      !MoreComes(s, reqs, m) && m !in s.chan && !(s.hand.Some? && s.hand.value.mark == m)
  {
    EveryRun(reqs, es);
    var s := Exec(INIT, reqs, es);
    assert FreeOk(s, m) && NoWorker(s, reqs, m);
    assert |Pipe(s, m)| == 0;
  }

  /** So with conforming requests only a connection that is being stopped leaves Close waiting. */
  lemma ConformingCloseIff(reqs: Requests, es: seq<Event>, fs: seq<CS.Event>, c: nat)
    requires AllConform(reqs) && IsRun(INIT, reqs, es) && CS.IsRun(CS.INIT, fs)
    requires SameMoment(Exec(INIT, reqs, es), reqs, CS.Exec(CS.INIT, fs))
    requires CS.Enabled(CS.Exec(CS.INIT, fs), CS.CloseLooks(c)) && CS.MayClose(CS.Exec(CS.INIT, fs).core)
    ensures var t := CS.Exec(CS.INIT, fs); CS.AlwaysAnswered(CS.Apply(t, CS.CloseLooks(c))) <==> !CS.StaleConn(t)
  {
    var s, t := Exec(INIT, reqs, es), CS.Exec(CS.INIT, fs);
    CS.Reachable(fs);
    CS.ClosingIsIdle(t);
    forall m ensures CS.Pile(t, m) == 0 {
      IdleIsSilent(reqs, es, m);
    }
    CS.CloseAnsweredIff(fs, c);
  }

  /** And a jammed read loop leaves it waiting. */
  lemma JammedCloseHangs(s: State, reqs: Requests, fs: seq<CS.Event>, c: nat)
    requires Jammed(s) && CS.IsRun(CS.INIT, fs) && SameMoment(s, reqs, CS.Exec(CS.INIT, fs))
    requires CS.Enabled(CS.Exec(CS.INIT, fs), CS.CloseLooks(c)) && CS.MayClose(CS.Exec(CS.INIT, fs).core)
    requires CS.Exec(CS.INIT, fs).core.conn.Some?
    ensures !CS.AlwaysAnswered(CS.Apply(CS.Exec(CS.INIT, fs), CS.CloseLooks(c)))
  {
    var t := CS.Exec(CS.INIT, fs);
    CS.CloseAnsweredIff(fs, c);
    assert CS.Pile(t, s.hand.value.mark) >= 2;
  }

  /** Both come about together: whenever a requester stops with two answers to come, Close may be left waiting. */
  lemma EarlyStopHangsClose(reqs: Requests, r: nat, j: nat) returns (es: seq<Event>, fs: seq<CS.Event>)
    requires WellFormed(reqs(r)) && 0 < j && j + 2 <= |reqs(r).script| && reqs(r).stops(reqs(r).script[..j])
    requires forall n :: 0 < n < j ==> !reqs(r).stops(reqs(r).script[..n])
    ensures IsRun(INIT, reqs, es) && Jammed(Exec(INIT, reqs, es))
    ensures CS.IsRun(CS.INIT, fs) && SameMoment(Exec(INIT, reqs, es), reqs, CS.Exec(CS.INIT, fs))
    ensures CS.Enabled(CS.Exec(CS.INIT, fs), CS.CloseLooks(0)) && CS.MayClose(CS.Exec(CS.INIT, fs).core)
    ensures !CS.AlwaysAnswered(CS.Apply(CS.Exec(CS.INIT, fs), CS.CloseLooks(0)))
  {
    es := EarlyStopJams(reqs, r, j);
    fs := CS.ClogIsReachable();
    var s, t := Exec(INIT, reqs, es), CS.Exec(CS.INIT, fs);
    assert t.holder.Keys == s.holder.Keys && t.slots == s.chan.Keys;
    JammedCloseHangs(s, reqs, fs, 0);
  }
}
