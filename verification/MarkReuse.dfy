/**
 What can go wrong when a mark is used again, as runs: a requester that stops before
 its worker's last answer frees a mark that is still being answered, and a stream
 opened under a mark whose last stream is still registered is refused.
 */
module MarkReuse {
  import opened Bytes
  import opened Protocol
  import opened Multiplex

  lemma {:induction false} RunAppend(s: State, reqs: Requests, es: seq<Event>, e: Event)
    requires IsRun(s, reqs, es) && Enabled(Exec(s, reqs, es), reqs, e)
    ensures IsRun(s, reqs, es + [e]) && Exec(s, reqs, es + [e]) == Apply(Exec(s, reqs, es), reqs, e)
    decreases |es|
  {
    if es == [] {
      assert [] + [e] == [e] && [e][1..] == [];
    } else {
      RunAppend(Apply(s, reqs, es[0]), reqs, es[1..], e);
      assert (es + [e])[1..] == es[1..] + [e];
    }
  }

  lemma Extended(reqs: Requests, fs: seq<Event>, s: State, e: Event, t: State) returns (es: seq<Event>)
    requires IsRun(INIT, reqs, fs) && Exec(INIT, reqs, fs) == s && Enabled(s, reqs, e) && Apply(s, reqs, e) == t
    ensures IsRun(INIT, reqs, es) && Exec(INIT, reqs, es) == t
  {
    RunAppend(INIT, reqs, fs, e);
    es := fs + [e];
  }

  // ---- One request on its own, from its commands to its answers ----

  /** Request `r` alone, `k` of its commands sent. */
  function Sent(r: nat, k: nat): State {
    State(1, map[1 := r], map[r := Holding(1, k)], Commands(r, 1, 0, k), map[], map[], [], None, map[], map[r := []])
  }

  lemma {:induction false} SentReached(reqs: Requests, r: nat, k: nat) returns (es: seq<Event>)
    requires k <= reqs(r).cmds
    ensures IsRun(INIT, reqs, es) && Exec(INIT, reqs, es) == Sent(r, k)
    decreases k
  {
    if k == 0 {
      RunAppend(INIT, reqs, [], Begin(r));
      RunAppend(INIT, reqs, [] + [Begin(r)], TryMark(r));
      es := [] + [Begin(r)] + [TryMark(r)];
      var t := Exec(INIT, reqs, es);
      assert t.phase == map[r := Holding(1, 0)] && t.holder == map[1 := r] && t.log == map[r := []] && t.up == Commands(r, 1, 0, 0);
    } else {
      var fs := SentReached(reqs, r, k - 1);
      RunAppend(INIT, reqs, fs, Send(r));
      es := fs + [Send(r)];
      var t := Exec(INIT, reqs, es);
      assert t.up == Commands(r, 1, 0, k) && t.phase == map[r := Holding(1, k)];
    }
  }

  function Registered(reqs: Requests, r: nat): map<nat, nat> { if reqs(r).stream then map[1 := r] else map[] }

  /** Its worker has got `g` commands, has answered `j` times, and all of that has been taken. */
  function Answered(reqs: Requests, r: nat, g: nat, j: nat): State
    requires j <= |reqs(r).script| && 1 <= g <= reqs(r).cmds
  {
    State(1, map[1 := r], map[r := Holding(1, reqs(r).cmds)], Commands(r, 1, g, reqs(r).cmds), map[r := Worker(1, g, j)],
          Registered(reqs, r), [], None, map[], map[r := Answers(reqs, r, 1, j)])
  }

  lemma OpenDispatched(reqs: Requests, r: nat)
    requires WellFormed(reqs(r))
    ensures Enabled(Sent(r, reqs(r).cmds), reqs, Dispatch)
    ensures Apply(Sent(r, reqs(r).cmds), reqs, Dispatch) == Answered(reqs, r, 1, 0)
  {
    var s, n := Sent(r, reqs(r).cmds), reqs(r).cmds;
    assert RunningWorkers(s, reqs) == {};
    assert s.up[0] == Cmd(1, true, r) && s.up[1..] == Commands(r, 1, 1, n);
    assert Answers(reqs, r, 1, 0) == [];
  }

  lemma DataDispatched(reqs: Requests, r: nat, g: nat)
    requires WellFormed(reqs(r)) && 1 <= g < reqs(r).cmds
    ensures Enabled(Answered(reqs, r, g, 0), reqs, Dispatch)
    ensures Apply(Answered(reqs, r, g, 0), reqs, Dispatch) == Answered(reqs, r, g + 1, 0)
  {
    var s, n := Answered(reqs, r, g, 0), reqs(r).cmds;
    assert s.up[0] == Cmd(1, false, r) && s.up[1..] == Commands(r, 1, g + 1, n);
    assert s.workers[r := Worker(1, g + 1, 0)] == map[r := Worker(1, g + 1, 0)];
  }

  lemma Opened(reqs: Requests, r: nat) returns (es: seq<Event>)
    requires WellFormed(reqs(r))
    ensures IsRun(INIT, reqs, es) && Exec(INIT, reqs, es) == Answered(reqs, r, 1, 0)
  {
    var fs := SentReached(reqs, r, reqs(r).cmds);
    OpenDispatched(reqs, r);
    es := Extended(reqs, fs, Sent(r, reqs(r).cmds), Dispatch, Answered(reqs, r, 1, 0));
  }

  lemma OneMoreDispatched(reqs: Requests, r: nat, g: nat, fs: seq<Event>) returns (es: seq<Event>)
    requires WellFormed(reqs(r)) && 1 <= g < reqs(r).cmds
    requires IsRun(INIT, reqs, fs) && Exec(INIT, reqs, fs) == Answered(reqs, r, g, 0)
    ensures IsRun(INIT, reqs, es) && Exec(INIT, reqs, es) == Answered(reqs, r, g + 1, 0)
  {
    DataDispatched(reqs, r, g);
    es := Extended(reqs, fs, Answered(reqs, r, g, 0), Dispatch, Answered(reqs, r, g + 1, 0));
  }

  lemma {:induction false} AllDispatched(reqs: Requests, r: nat, g: nat) returns (es: seq<Event>)
    requires WellFormed(reqs(r)) && 1 <= g <= reqs(r).cmds
    ensures IsRun(INIT, reqs, es) && Exec(INIT, reqs, es) == Answered(reqs, r, g, 0)
    decreases g
  {
    if g == 1 {
      es := Opened(reqs, r);
    } else {
      var fs := AllDispatched(reqs, r, g - 1);
      es := OneMoreDispatched(reqs, r, g - 1, fs);
    }
  }

  /** Answer number `j` lies in the requester's channel. */
  function Delivered(reqs: Requests, r: nat, j: nat): State
    requires j < |reqs(r).script| && reqs(r).cmds >= 1
  {
    Answered(reqs, r, reqs(r).cmds, j).(workers := map[r := Worker(1, reqs(r).cmds, j + 1)],
                                       chan := map[1 := Frame(1, reqs(r).script[j], r)])
  }

  lemma NextDelivered(reqs: Requests, r: nat, j: nat, es: seq<Event>) returns (fs: seq<Event>)
    requires j < |reqs(r).script| && reqs(r).cmds >= 1
    requires IsRun(INIT, reqs, es) && Exec(INIT, reqs, es) == Answered(reqs, r, reqs(r).cmds, j)
    ensures IsRun(INIT, reqs, fs) && Exec(INIT, reqs, fs) == Delivered(reqs, r, j)
  {
    RunAppend(INIT, reqs, es, Emit(r));
    RunAppend(INIT, reqs, es + [Emit(r)], Receive);
    RunAppend(INIT, reqs, es + [Emit(r)] + [Receive], Deliver);
    fs := es + [Emit(r)] + [Receive] + [Deliver];
    var t := Exec(INIT, reqs, fs);
    assert t.workers == map[r := Worker(1, reqs(r).cmds, j + 1)] && t.chan == map[1 := Frame(1, reqs(r).script[j], r)] && t.down == [];
  }

  lemma AnswerTaken(reqs: Requests, r: nat, j: nat)
    requires j < |reqs(r).script|
    ensures Answers(reqs, r, 1, j) + [Frame(1, reqs(r).script[j], r)] == Answers(reqs, r, 1, j + 1)
    ensures Rsps(Answers(reqs, r, 1, j + 1)) == reqs(r).script[..j + 1]
  {
  }

  lemma TakesOn(reqs: Requests, r: nat, j: nat)
    requires j < |reqs(r).script| && reqs(r).cmds >= 1 && !reqs(r).stops(reqs(r).script[..j + 1])
    ensures Enabled(Delivered(reqs, r, j), reqs, Take(r))
    ensures Apply(Delivered(reqs, r, j), reqs, Take(r)) == Answered(reqs, r, reqs(r).cmds, j + 1)
  {
    var s, f := Delivered(reqs, r, j), Frame(1, reqs(r).script[j], r);
    AnswerTaken(reqs, r, j);
    assert s.chan - {1} == map[];
    assert s.log[r := s.log[r] + [f]] == map[r := Answers(reqs, r, 1, j + 1)];
  }

  /** The requester has stopped after `j` answers. */
  function Stopped(reqs: Requests, r: nat, j: nat): State
    requires j <= |reqs(r).script| && reqs(r).cmds >= 1
  {
    Answered(reqs, r, reqs(r).cmds, j).(holder := map[], phase := map[r := Finished])
  }

  lemma TakesLast(reqs: Requests, r: nat, j: nat)
    requires j < |reqs(r).script| && reqs(r).cmds >= 1 && reqs(r).stops(reqs(r).script[..j + 1])
    ensures Enabled(Delivered(reqs, r, j), reqs, Take(r))
    ensures Apply(Delivered(reqs, r, j), reqs, Take(r)) == Stopped(reqs, r, j + 1)
  {
    var s, f := Delivered(reqs, r, j), Frame(1, reqs(r).script[j], r);
    AnswerTaken(reqs, r, j);
    assert s.chan - {1} == map[] && s.holder - {1} == map[] && s.phase[r := Finished] == map[r := Finished];
    assert s.log[r := s.log[r] + [f]] == map[r := Answers(reqs, r, 1, j + 1)];
  }

  lemma {:induction false} AnsweredReached(reqs: Requests, r: nat, j: nat) returns (es: seq<Event>)
    requires WellFormed(reqs(r)) && j < |reqs(r).script|
    requires forall n :: 0 < n <= j ==> !reqs(r).stops(reqs(r).script[..n])
    ensures IsRun(INIT, reqs, es) && Exec(INIT, reqs, es) == Answered(reqs, r, reqs(r).cmds, j)
    decreases j
  {
    if j == 0 {
      es := AllDispatched(reqs, r, reqs(r).cmds);
    } else {
      var fs := AnsweredReached(reqs, r, j - 1);
      var gs := NextDelivered(reqs, r, j - 1, fs);
      TakesOn(reqs, r, j - 1);
      es := Extended(reqs, gs, Delivered(reqs, r, j - 1), Take(r), Answered(reqs, r, reqs(r).cmds, j));
    }
  }

  /** The run in which the requester takes its answers and stops at the first point it can. */
  lemma StoppedReached(reqs: Requests, r: nat, j: nat) returns (es: seq<Event>)
    requires WellFormed(reqs(r)) && 0 < j <= |reqs(r).script| && reqs(r).stops(reqs(r).script[..j])
    requires forall n :: 0 < n < j ==> !reqs(r).stops(reqs(r).script[..n])
    ensures IsRun(INIT, reqs, es) && Exec(INIT, reqs, es) == Stopped(reqs, r, j)
  {
    var fs := AnsweredReached(reqs, r, j - 1);
    var gs := NextDelivered(reqs, r, j - 1, fs);
    TakesLast(reqs, r, j - 1);
    es := Extended(reqs, gs, Delivered(reqs, r, j - 1), Take(r), Stopped(reqs, r, j));
  }

  // ---- Stopping early ----

  /** A requester that stops before its worker's last answer frees a mark that is still being answered. */
  lemma EarlyStopLeaks(reqs: Requests, r: nat, j: nat) returns (es: seq<Event>)
    requires WellFormed(reqs(r)) && 0 < j < |reqs(r).script| && reqs(r).stops(reqs(r).script[..j])
    requires forall n :: 0 < n < j ==> !reqs(r).stops(reqs(r).script[..n])
    ensures IsRun(INIT, reqs, es) && !Quiet(Exec(INIT, reqs, es), reqs)
  {
    es := StoppedReached(reqs, r, j);
    var t := Stopped(reqs, r, j);
    assert 1 !in t.holder && Running(t, reqs, r) && t.workers[r].mark == 1;
    assert !NoWorker(t, reqs, 1);
  }

  lemma FirstStop(q: Request, i: nat) returns (j: nat)
    requires 0 < i <= |q.script| && q.stops(q.script[..i])
    ensures 0 < j <= i && q.stops(q.script[..j])
    ensures forall n :: 0 < n < j ==> !q.stops(q.script[..n])
  {
    j := 1;
    while !q.stops(q.script[..j])
      invariant 0 < j <= i && forall n :: 0 < n < j ==> !q.stops(q.script[..n])
      decreases i - j
    {
      j := j + 1;
    }
  }

  /**
   Marks are safe to reuse in every run exactly when every requester stops at its
   worker's last answer and not before.
   */
  lemma QuietIff(reqs: Requests)
    requires forall r :: WellFormed(reqs(r))
    ensures AllConform(reqs) <==> forall es :: IsRun(INIT, reqs, es) ==> Quiet(Exec(INIT, reqs, es), reqs)
  {
    if AllConform(reqs) {
      forall es | IsRun(INIT, reqs, es) ensures Quiet(Exec(INIT, reqs, es), reqs) {
        EveryRun(reqs, es);
      }
    } else {
      var r :| !Conforming(reqs(r));
      assert WellFormed(reqs(r));
      var i :| 0 < i < |reqs(r).script| && reqs(r).stops(reqs(r).script[..i]);
      var j := FirstStop(reqs(r), i);
      var es := EarlyStopLeaks(reqs, r, j);
    }
  }

  // ---- Opening a stream too soon ----

  predicate InUse(m: nat, k: nat) { (2 <= m <= k + 1 && m < MARKS) || (m == 0 && k >= MARKS - 1) }

  /** Stream 0 is over but still registered under mark 1; requests 1 to `k` hold the marks after it. */
  ghost predicate Crowded(s: State, k: nat) {
    && s.lastMark == k + 1 && s.up == [] && s.streams == map[1 := 0]
    && (forall r: nat :: r in s.phase <==> r <= k)
    && (forall m: nat :: m in s.holder <==> InUse(m, k))
  }

  lemma OneMore(s: State, b: State, t: State, reqs: Requests, k: nat)
    requires Crowded(s, k) && k < MARKS - 1
    requires b == s.(phase := s.phase[k + 1 := Acquiring])
    requires Enabled(b, reqs, TryMark(k + 1)) && t == Apply(b, reqs, TryMark(k + 1))
    ensures Crowded(t, k + 1)
  {
    var m := NextMark(s.lastMark);
    assert m == if k + 2 == MARKS then 0 else k + 2;
    assert !InUse(m, k);
    forall n: nat ensures n in t.holder <==> InUse(n, k + 1) {
      assert n in t.holder <==> n == m || n in s.holder;
    }
  }

  /** Two more steps. */
  lemma RunAppendTwo(s: State, reqs: Requests, es: seq<Event>, a: State, e: Event, b: State, f: Event, c: State)
    requires IsRun(s, reqs, es) && Exec(s, reqs, es) == a
    requires Enabled(a, reqs, e) && b == Apply(a, reqs, e) && Enabled(b, reqs, f) && c == Apply(b, reqs, f)
    ensures IsRun(s, reqs, es + [e] + [f]) && Exec(s, reqs, es + [e] + [f]) == c
  {
    RunAppend(s, reqs, es, e);
    RunAppend(s, reqs, es + [e], f);
  }

  lemma StreamOver(reqs: Requests) returns (es: seq<Event>)
    requires Conforming(reqs(0)) && reqs(0).stream
    ensures IsRun(INIT, reqs, es) && Crowded(Exec(INIT, reqs, es), 0)
  {
    var n := |reqs(0).script|;
    assert reqs(0).script[..n] == reqs(0).script;
    es := StoppedReached(reqs, 0, n);
    assert Commands(0, 1, reqs(0).cmds, reqs(0).cmds) == [];
    var s := Stopped(reqs, 0, n);
    assert s.holder == map[] && s.phase == map[0 := Finished];
  }

  lemma {:induction false} CrowdedReached(reqs: Requests, k: nat) returns (es: seq<Event>)
    requires Conforming(reqs(0)) && reqs(0).stream && k < MARKS
    ensures IsRun(INIT, reqs, es) && Crowded(Exec(INIT, reqs, es), k)
    decreases k
  {
    if k == 0 {
      es := StreamOver(reqs);
    } else {
      var fs := CrowdedReached(reqs, k - 1);
      var s := Exec(INIT, reqs, fs);
      var b := Apply(s, reqs, Begin(k));
      var t := Apply(b, reqs, TryMark(k));
      OneMore(s, b, t, reqs, k - 1);
      RunAppendTwo(INIT, reqs, fs, s, Begin(k), b, TryMark(k), t);
      es := fs + [Begin(k)] + [TryMark(k)];
    }
  }

  lemma ThenClash(s: State, reqs: Requests)
    requires Crowded(s, MARKS - 1) && Conforming(reqs(MARKS)) && reqs(MARKS).stream
    ensures Enabled(s, reqs, Begin(MARKS))
    ensures var b := Apply(s, reqs, Begin(MARKS));
      Enabled(b, reqs, TryMark(MARKS)) &&
      var t := Apply(b, reqs, TryMark(MARKS));
      Enabled(t, reqs, Send(MARKS)) && Clash(Apply(t, reqs, Send(MARKS)), reqs)
  {
    assert NextMark(s.lastMark) == 1 && !InUse(1, MARKS - 1);
  }

  /**
   A clash does come up: the counter has gone round once while the server has sent a
   stream's last answer but not yet dropped its registration.
   */
  lemma ClashReached(reqs: Requests) returns (es: seq<Event>)
    requires Conforming(reqs(0)) && reqs(0).stream && Conforming(reqs(MARKS)) && reqs(MARKS).stream
    ensures IsRun(INIT, reqs, es) && Clash(Exec(INIT, reqs, es), reqs) && Exec(INIT, reqs, es).up[0].id == MARKS
  {
    var fs := CrowdedReached(reqs, MARKS - 1);
    ThenClash(Exec(INIT, reqs, fs), reqs);
    RunAppend(INIT, reqs, fs, Begin(MARKS));
    RunAppend(INIT, reqs, fs + [Begin(MARKS)], TryMark(MARKS));
    RunAppend(INIT, reqs, fs + [Begin(MARKS)] + [TryMark(MARKS)], Send(MARKS));
    es := fs + [Begin(MARKS)] + [TryMark(MARKS)] + [Send(MARKS)];
  }

  /** And then the second stream waits forever, whatever happens next. */
  lemma ClashHangs(reqs: Requests, es: seq<Event>, fs: seq<Event>)
    requires AllConform(reqs) && IsRun(INIT, reqs, es) && Clash(Exec(INIT, reqs, es), reqs)
    requires IsRun(Apply(Exec(INIT, reqs, es), reqs, Dispatch), reqs, fs)
    ensures var r := Exec(INIT, reqs, es).up[0].id;
      var t := Exec(Apply(Exec(INIT, reqs, es), reqs, Dispatch), reqs, fs);
      r in t.phase && !t.phase[r].Finished?
  {
    var s := Exec(INIT, reqs, es);
    Initially(reqs);
    RunKeeps(INIT, reqs, es);
    HeadHeld(s, reqs);
    DispatchKeeps(s, reqs);
    StarvedForever(Apply(s, reqs, Dispatch), reqs, fs, s.up[0].mark, s.up[0].id);
  }
}
