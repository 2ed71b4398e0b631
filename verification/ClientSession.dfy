/**
 The client session's lifecycle, its connection-error lock and its response channels.

 A step is one critical section (or one atomic operation) of one goroutine: callers
 that acquire marks, send, take responses and release marks as they please, callers of
 Close, the read loop of every connection there has been, ping loops and writers that
 fail. A run is any interleaving, with any number of reconnections.
 */
module ClientSession {
  import opened Bytes

  datatype Lifecycle = Running | Recovering | Closing | Closed

  /** The fields shared by all goroutines; a connection is named by its number. */
  datatype Core = Core(
    state: Lifecycle,
    activeReqs: int,
    exitErr: Option<int>,
    exits: nat,
    conn: Option<nat>,
    errLock: bool)

  // ---- The critical sections ----

  /** exit, guarded by exitOnce. */
  function Exit(c: Core, err: Option<int>): Core {
    if c.exits > 0 then c else c.(exitErr := err, state := Closed, exits := c.exits + 1)
  }

  predicate Admits(c: Core) { c.state != Closing && c.state != Closed }

  function Admit(c: Core): Core {
    if Admits(c) then c.(activeReqs := c.activeReqs + 1) else c
  }

  function Depart(c: Core): Core { c.(activeReqs := c.activeReqs - 1) }

  /** Close may go ahead: the session runs and nobody is using it. */
  predicate MayClose(c: Core) { c.state == Running && c.activeReqs == 0 }

  function BeginClose(c: Core): Core {
    if MayClose(c) then c.(state := Closing) else c
  }

  /** The first section of stopConn. */
  function EnterStop(c: Core): Core {
    if c.state == Closing || c.state == Closed then c else c.(state := Recovering)
  }

  /** The last section of errorMode. */
  function Resume(c: Core): Core {
    if c.state == Recovering then c.(state := Running) else c
  }

  /** connErrLock.TryLock on a failure path: held afterwards whoever took it. */
  function NoteError(c: Core): Core { c.(errLock := true) }

  /** A writer's failure: the error is noted and the connection dropped. */
  function DropConn(c: Core): Core { c.(errLock := true, conn := None) }

  function ClearConn(c: Core): Core { c.(conn := None) }

  function UnlockError(c: Core): Core { c.(errLock := false) }

  // ---- The same sections as the object's methods ----

  class Session {
    var state: Lifecycle
    var activeReqs: int
    var exitErr: Option<int>
    var exits: nat
    var conn: Option<nat>
    var errLock: bool
    var lastMark: nat
    const marks: array<bool>

    ghost predicate Valid() reads this { marks.Length == 256 && lastMark < 0x1_0000_0000 }

    ghost function View(): Core reads this { Core(state, activeReqs, exitErr, exits, conn, errLock) }

    /** NewSession followed by Start. */
    constructor ()
      ensures Valid() && View() == Core(Running, 0, None, 0, Some(0), false)
      ensures fresh(marks) && forall m :: 0 <= m < 256 ==> !marks[m]
    {
      state, activeReqs, exitErr, exits, conn, errLock := Running, 0, None, 0, Some(0), false;
      lastMark := 0;
      marks := new bool[256](_ => false);
    }

    method ExitWith(err: Option<int>)
      modifies this
      ensures View() == Exit(old(View()), err) && lastMark == old(lastMark)
    {
      if exits == 0 {
        exitErr := err;
        state := Closed;
        exits := exits + 1;
      }
    }

    /**
     newClientMark: refused while closing; otherwise counted, and given the first mark
     after the last one given that nobody holds. With every mark held the search has
     gone once round and is where it was.
     */
    method NewClientMark() returns (v: nat, ok: bool, found: bool)
      requires Valid()
      modifies this, marks
      ensures Valid() && View() == Admit(old(View())) && ok == Admits(old(View()))
      ensures !ok ==> !found && lastMark == old(lastMark)
      ensures ok ==> found == HasFree(old(marks[..]))
      ensures ok && !found ==> lastMark == (old(lastMark) + 256) % 0x1_0000_0000
      ensures found ==> v < 256 && !old(marks[v]) && IsFirstFree(old(marks[..]), old(lastMark), v)
      ensures marks[..] == if found then old(marks[..])[v := true] else old(marks[..])
    {
      if state == Closing || state == Closed {
        return 0, false, false;
      }
      activeReqs := activeReqs + 1;
      v, found := HuntMark();
      ok := true;
    }

    /** The search, for one turn of the 256 marks. */
    method HuntMark() returns (v: nat, found: bool)
      requires Valid()
      modifies this`lastMark, marks
      ensures Valid() && found == HasFree(old(marks[..]))
      ensures !found ==> lastMark == (old(lastMark) + 256) % 0x1_0000_0000
      ensures found ==> v < 256 && !old(marks[v]) && IsFirstFree(old(marks[..]), old(lastMark), v)
      ensures marks[..] == if found then old(marks[..])[v := true] else old(marks[..])
    {
      ghost var from := lastMark;
      var k := 0;
      v := 0;
      while k < 256
        invariant Valid() && k <= 256 && marks[..] == old(marks[..]) && lastMark == (from + k) % 0x1_0000_0000
        invariant forall i :: 0 < i <= k ==> MarkTaken(marks[..], from, i)
      {
        k := k + 1;
        Wrapped(from, k);
        lastMark := (lastMark + 1) % 0x1_0000_0000;
        v := lastMark % 256;
        if !marks[v] {
          assert FirstFree(marks[..], from, k);
          marks[v] := true;
          return v, true;
        }
      }
      NoneFree(marks[..], from);
      found := false;
    }

    /** releaseClientMark. */
    method ReleaseClientMark(m: nat)
      requires Valid() && m < 256 && marks[m]
      modifies this, marks
      ensures Valid() && View() == Depart(old(View())) && marks[..] == old(marks[..])[m := false]
    {
      marks[m] := false;
      activeReqs := activeReqs - 1;
    }

    /** One pass of Close under the lifecycle lock; `sleep` when it has to wait and look again. */
    method TryClose() returns (begun: bool, sleep: bool, seen: Option<nat>)
      requires Valid()
      modifies this
      ensures Valid() && View() == BeginClose(old(View())) && seen == conn
      ensures begun == MayClose(old(View())) && sleep == (!begun && Admits(old(View())))
    {
      seen := conn;
      begun, sleep := false, false;
      match state
      case Closed => return;
      case Closing => return;
      case Recovering => sleep := true;
      case Running =>
        if activeReqs != 0 {
          sleep := true;
        } else {
          state := Closing;
          begun := true;
        }
    }

    /** stopConn up to the release of the error lock. */
    method StopConn() returns (graceful: bool)
      requires Valid() && errLock
      modifies this
      ensures Valid() && graceful == (old(state) == Closing)
      ensures View() == UnlockError(ClearConn(EnterStop(old(View()))))
    {
      graceful := state == Closing;
      if !graceful && state != Closed {
        state := Recovering;
      }
      conn := None;
      errLock := false;
    }

    /** A failed write: requireWrite and writeDone. */
    method WriteFailed()
      requires Valid()
      modifies this
      ensures Valid() && View() == DropConn(old(View()))
    {
      if !errLock {
        errLock := true;
      }
      conn := None;
    }

    /** errorMode after a successful redial: connection `g` is taken, then the state is set. */
    method Recover(g: nat)
      requires Valid()
      modifies this
      ensures Valid() && View() == Resume(old(View()).(conn := Some(g)))
    {
      conn := Some(g);
      if state == Recovering {
        state := Running;
      }
    }
  }

  /** `k` steps after `from` is the first free mark. */
  ghost predicate FirstFree(marks: seq<bool>, from: nat, k: nat)
    requires |marks| == 256
  {
    !MarkTaken(marks, from, k) && forall i :: 0 < i < k ==> MarkTaken(marks, from, i)
  }

  ghost predicate IsFirstFree(marks: seq<bool>, from: nat, v: nat)
    requires |marks| == 256
  {
    exists k :: 0 < k <= 256 && v == (from + k) % 256 && FirstFree(marks, from, k)
  }

  predicate HasFree(marks: seq<bool>) { exists m :: 0 <= m < |marks| && !marks[m] }

  predicate MarkTaken(marks: seq<bool>, from: nat, k: nat)
    requires |marks| == 256
  {
    marks[(from + k) % 256]
  }

  lemma Wrapped(from: nat, k: nat)
    requires k >= 1
    ensures ((from + k - 1) % 0x1_0000_0000 + 1) % 0x1_0000_0000 == (from + k) % 0x1_0000_0000
    ensures ((from + k) % 0x1_0000_0000) % 256 == (from + k) % 256
  {
    NextWraps(from + k - 1);
    LowByte(from + k);
  }

  lemma NextWraps(n: nat)
    ensures (n % 0x1_0000_0000 + 1) % 0x1_0000_0000 == (n + 1) % 0x1_0000_0000
  {
  }

  lemma LowByte(n: nat)
    ensures (n % 0x1_0000_0000) % 256 == n % 256
  {
    var q, r := n / 0x1_0000_0000, n % 0x1_0000_0000;
    assert n == 256 * (0x100_0000 * q) + r;
    Multiple(0x100_0000 * q, r);
  }

  lemma Multiple(a: nat, r: nat)
    ensures (256 * a + r) % 256 == r % 256
  {
  }

  /** Some free mark lies within a full turn. */
  lemma FreeAhead(marks: seq<bool>, from: nat) returns (d: nat)
    requires |marks| == 256 && HasFree(marks)
    ensures 0 < d <= 256 && !MarkTaken(marks, from, d)
  {
    var m :| 0 <= m < 256 && !marks[m];
    var f := from % 256;
    d := if m > f then m - f else m - f + 256;
    assert from == 256 * (from / 256) + f;
    assert (from + d) % 256 == m;
  }

  lemma NoneFree(marks: seq<bool>, from: nat)
    requires |marks| == 256 && forall k :: 0 < k <= 256 ==> MarkTaken(marks, from, k)
    ensures !HasFree(marks)
  {
    if HasFree(marks) {
      var d := FreeAhead(marks, from);
    }
  }

  // ---- All goroutines together ----

  const MARKS := 256

  datatype Phase = Counted | Holding(mark: nat) | Unlocked | Gone

  /** Where a connection's read loop stands, from reading to the end of error mode. */
  datatype Loop =
    | Reading
    | Delivering(mark: nat)               // a response in hand, for the one-slot channel of `mark`
    | Failed                              // the error was noted (every exit path and the panic handler do)
    | Stopping(graceful: bool)
    | Cleared(graceful: bool)             // about to unlock connErrLock
    | Notifying(graceful: bool, next: nat)
    | Warning(graceful: bool, next: nat)  // found mark `next` locked, about to send it an error
    | Reconnected
    | Ended

  datatype Closer = Trying | Begun(seen: Option<nat>) | Waiting

  datatype State = State(
    core: Core,
    phase: map<nat, Phase>,
    holder: map<nat, nat>,
    loops: seq<Loop>,
    closers: map<nat, Closer>,
    cut: set<nat>,                  // connections closed, or whose context was cancelled
    slots: set<nat>,                // marks whose response channel is full
    due: multiset<nat>)             // responses the server has yet to deliver, by mark

  const INIT := State(Core(Running, 0, None, 0, Some(0), false), map[], map[], [Reading], map[], {}, {}, multiset{})

  datatype Event =
    | Enter(r: nat) | TryMark(r: nat, m: nat) | Sends(r: nat, answers: nat) | Takes(r: nat) | Unlock(r: nat) | Leave(r: nat)
    | PingFails | WriteFails
    | Arrives(g: nat, m: nat) | Delivered(g: nat)
    | ReadFails(g: nat) | StopEnters(g: nat) | ConnCleared(g: nat) | ErrUnlocked(g: nat)
    | NotifyLooks(g: nat) | NotifySends(g: nat)
    | GracefulExit(g: nat, err: Option<int>) | RedialFails(g: nat, cause: int) | Redialed(g: nat) | Resumes(g: nat)
    | CloseCalled(c: nat) | CloseLooks(c: nat) | CloseActs(c: nat, fails: bool)

  predicate LoopAt(s: State, g: nat, l: Loop) { g < |s.loops| && s.loops[g] == l }

  predicate Holds(s: State, r: nat) { r in s.phase && s.phase[r].Holding? }

  predicate Enabled(s: State, e: Event) {
    match e
    case Enter(r) => r !in s.phase
    case TryMark(r, m) => r in s.phase && s.phase[r] == Counted && m < MARKS
    case Sends(r, _) => Holds(s, r) && s.core.conn.Some?
    case Takes(r) => Holds(s, r) && s.phase[r].mark in s.slots
    case Unlock(r) => Holds(s, r) && s.phase[r].mark in s.holder
    case Leave(r) => r in s.phase && s.phase[r] == Unlocked
    case PingFails => true
    case WriteFails => s.core.conn.Some?
    case Arrives(g, m) => LoopAt(s, g, Reading) && m in s.due
    case Delivered(g) => g < |s.loops| && s.loops[g].Delivering? && s.loops[g].mark !in s.slots
    case ReadFails(g) => LoopAt(s, g, Reading)
    case StopEnters(g) => LoopAt(s, g, Failed)
    case ConnCleared(g) => g < |s.loops| && s.loops[g].Stopping?
    case ErrUnlocked(g) => g < |s.loops| && s.loops[g].Cleared?
    case NotifyLooks(g) => g < |s.loops| && s.loops[g].Notifying? && s.loops[g].next < MARKS
    case NotifySends(g) => g < |s.loops| && s.loops[g].Warning? && s.loops[g].next !in s.slots
    case GracefulExit(g, _) => LoopAt(s, g, Notifying(true, MARKS))
    case RedialFails(g, _) => LoopAt(s, g, Notifying(false, MARKS))
    case Redialed(g) => LoopAt(s, g, Notifying(false, MARKS))
    case Resumes(g) => LoopAt(s, g, Reconnected)
    case CloseCalled(c) => c !in s.closers
    case CloseLooks(c) => c in s.closers && s.closers[c].Trying?
    case CloseActs(c, _) => c in s.closers && s.closers[c].Begun?
  }

  /** connCtxCancel: whatever connection is the newest one. */
  function Cancel(s: State): set<nat> { if s.loops == [] then s.cut else s.cut + {|s.loops| - 1} }

  function Apply(s: State, e: Event): State
    requires Enabled(s, e)
  {
    match e
    case Enter(r) => s.(core := Admit(s.core), phase := s.phase[r := if Admits(s.core) then Counted else Gone])
    case TryMark(r, m) => if m in s.holder then s else s.(holder := s.holder[m := r], phase := s.phase[r := Holding(m)])
    case Sends(r, answers) => s.(due := s.due[s.phase[r].mark := s.due[s.phase[r].mark] + answers])
    case Takes(r) => s.(slots := s.slots - {s.phase[r].mark})
    case Unlock(r) => s.(holder := s.holder - {s.phase[r].mark}, phase := s.phase[r := Unlocked])
    case Leave(r) => s.(core := Depart(s.core), phase := s.phase[r := Gone])
    case PingFails => s.(core := NoteError(s.core), cut := Cancel(s))
    case WriteFails => s.(core := DropConn(s.core), cut := Cancel(s))
    case Arrives(g, m) => s.(due := s.due[m := s.due[m] - 1], loops := s.loops[g := Delivering(m)])
    case Delivered(g) => s.(slots := s.slots + {s.loops[g].mark}, loops := s.loops[g := Reading])
    case ReadFails(g) => s.(core := NoteError(s.core), loops := s.loops[g := Failed])
    case StopEnters(g) => s.(core := EnterStop(s.core), loops := s.loops[g := Stopping(s.core.state == Closing)])
    case ConnCleared(g) => s.(core := ClearConn(s.core), loops := s.loops[g := Cleared(s.loops[g].graceful)])
    case ErrUnlocked(g) => s.(core := UnlockError(s.core), loops := s.loops[g := Notifying(s.loops[g].graceful, 0)])
    case NotifyLooks(g) =>
      var Notifying(b, i) := s.loops[g];
      s.(loops := s.loops[g := if i in s.holder then Warning(b, i) else Notifying(b, i + 1)])
    case NotifySends(g) =>
      var Warning(b, i) := s.loops[g];
      s.(slots := s.slots + {i}, loops := s.loops[g := Notifying(b, i + 1)])
    case GracefulExit(g, err) => s.(core := Exit(s.core, err), loops := s.loops[g := Ended])
    case RedialFails(g, cause) => s.(core := Exit(s.core, Some(cause)), loops := s.loops[g := Ended])
    case Redialed(g) => s.(core := s.core.(conn := Some(|s.loops|)), loops := s.loops[g := Reconnected] + [Reading], due := multiset{})
    case Resumes(g) => s.(core := Resume(s.core), loops := s.loops[g := Ended])
    case CloseCalled(c) => s.(closers := s.closers[c := Trying])
    case CloseLooks(c) =>
      s.(core := BeginClose(s.core),
         closers := s.closers[c := if MayClose(s.core) then Begun(s.core.conn) else if Admits(s.core) then Trying else Waiting])
    case CloseActs(c, fails) =>
      var seen := s.closers[c].seen;
      s.(core := if seen.None? then Exit(s.core, None) else if fails then NoteError(s.core) else s.core,
         closers := s.closers[c := Waiting],
         cut := if seen.None? then s.cut else (if fails then Cancel(s) else s.cut) + {seen.value})
  }

  predicate IsRun(s: State, es: seq<Event>)
    decreases |es|
  {
    es == [] || (Enabled(s, es[0]) && IsRun(Apply(s, es[0]), es[1..]))
  }

  function Exec(s: State, es: seq<Event>): State
    requires IsRun(s, es)
    decreases |es|
  {
    if es == [] then s else Exec(Apply(s, es[0]), es[1..])
  }

  // ---- What every state has ----

  predicate Active(p: Phase) { p.Counted? || p.Holding? || p.Unlocked? }

  /** The requests that hold a mark, look for one, or have yet to report its return. */
  function ActiveSet(phase: map<nat, Phase>): set<nat> { set r | r in phase && Active(phase[r]) }

  ghost predicate MarksOk(s: State) {
    && (forall r :: r in s.phase && s.phase[r].Holding? ==> s.phase[r].mark in s.holder && s.holder[s.phase[r].mark] == r)
    && (forall m :: m in s.holder ==> s.holder[m] in s.phase && s.phase[s.holder[m]] == Holding(m))
  }

  ghost predicate LifecycleOk(c: Core) {
    && (c.state == Closing ==> c.activeReqs == 0)
    && (c.state == Closed <==> c.exits > 0) && c.exits <= 1
  }

  predicate NeedsLock(l: Loop) { l.Failed? || l.Stopping? || l.Cleared? }

  predicate Over(l: Loop) { l.Reconnected? || l.Ended? }

  /** One connection at a time has a read loop, and from its failure to its unlock the lock is held. */
  ghost predicate LoopsOk(s: State) {
    && |s.loops| >= 1
    && (forall g :: 0 <= g < |s.loops| - 1 ==> Over(s.loops[g]))
    && (NeedsLock(s.loops[|s.loops| - 1]) ==> s.core.errLock)
  }

  ghost predicate Inv(s: State) {
    && s.core.activeReqs == |ActiveSet(s.phase)|
    && LifecycleOk(s.core) && MarksOk(s) && LoopsOk(s)
  }

  lemma PhaseCount(phase: map<nat, Phase>, r: nat, p: Phase)
    ensures var was, now := r in phase && Active(phase[r]), Active(p);
      |ActiveSet(phase[r := p])| == |ActiveSet(phase)| + (if now then 1 else 0) - (if was then 1 else 0)
  {
    var a, b := ActiveSet(phase), ActiveSet(phase[r := p]);
    if Active(p) {
      assert b == (a - {r}) + {r};
    } else {
      assert b == a - {r};
    }
  }

  lemma CountKeeps(s: State, e: Event)
    requires Inv(s) && Enabled(s, e)
    ensures var t := Apply(s, e); t.core.activeReqs == |ActiveSet(t.phase)| && LifecycleOk(t.core)
  {
    match e {
      case Enter(r) => PhaseCount(s.phase, r, if Admits(s.core) then Counted else Gone);
      case TryMark(r, m) => PhaseCount(s.phase, r, Holding(m));
      case Unlock(r) => PhaseCount(s.phase, r, Unlocked);
      case Leave(r) =>
        PhaseCount(s.phase, r, Gone);
        assert r in ActiveSet(s.phase);
      case _ =>
    }
  }

  lemma MarksKeep(s: State, e: Event)
    requires MarksOk(s) && Enabled(s, e)
    ensures MarksOk(Apply(s, e))
  {
    if !(e.Enter? || e.TryMark? || e.Unlock? || e.Leave?) {
      assert Apply(s, e).phase == s.phase && Apply(s, e).holder == s.holder;
    }
  }

  /** A step of a read loop. */
  predicate OfLoop(e: Event) {
    e.Arrives? || e.Delivered? || e.ReadFails? || e.StopEnters? || e.ConnCleared? || e.ErrUnlocked? || e.NotifyLooks? ||
    e.NotifySends? || e.GracefulExit? || e.RedialFails? || e.Redialed? || e.Resumes?
  }

  /** A step moves one read loop, a dial adds one, and the lock is released only where it was held for the unlock. */
  lemma LoopMoves(s: State, e: Event)
    requires LoopsOk(s) && Enabled(s, e) && OfLoop(e) && !e.Redialed?
    ensures var t := Apply(s, e);
      && e.g < |s.loops| && t.loops == s.loops[e.g := t.loops[e.g]] && (Over(s.loops[e.g]) ==> Over(t.loops[e.g]))
      && (NeedsLock(t.loops[e.g]) ==> t.core.errLock)
      && (t.core.errLock || !s.core.errLock || e.ErrUnlocked?)
  {
    assert !e.Resumes? ==> !Over(s.loops[e.g]);
  }

  lemma LoopsKeep(s: State, e: Event)
    requires LoopsOk(s) && Enabled(s, e)
    ensures LoopsOk(Apply(s, e))
  {
    var t := Apply(s, e);
    if e.Redialed? {
      assert !Over(s.loops[e.g]);
    } else if OfLoop(e) {
      LoopMoves(s, e);
      if e.ErrUnlocked? { assert !Over(s.loops[e.g]); }
    } else {
      assert t.loops == s.loops && (s.core.errLock ==> t.core.errLock);
    }
  }

  lemma StepKeeps(s: State, e: Event)
    requires Inv(s) && Enabled(s, e)
    ensures Inv(Apply(s, e))
  {
    CountKeeps(s, e);
    MarksKeep(s, e);
    LoopsKeep(s, e);
  }

  lemma {:induction false} RunKeeps(s: State, es: seq<Event>)
    requires Inv(s) && IsRun(s, es)
    ensures Inv(Exec(s, es))
    decreases |es|
  {
    if es != [] {
      StepKeeps(s, es[0]);
      RunKeeps(Apply(s, es[0]), es[1..]);
    }
  }

  // ---- The theorems ----

  /**
   At any point of any run: the counter is the number of requests using the session, none
   uses it while it closes, the session ended exactly if exit took effect, and it did so
   at most once; no two requests hold the same mark.
   */
  lemma LifecycleHolds(es: seq<Event>)
    requires IsRun(INIT, es)
    ensures var s := Exec(INIT, es);
      && s.core.activeReqs == |ActiveSet(s.phase)|
      && (s.core.state == Closing ==> ActiveSet(s.phase) == {})
      && (s.core.state == Closed <==> s.core.exits == 1) && s.core.exits <= 1
      && MarksOk(s)
  {
    assert ActiveSet(INIT.phase) == {};
    RunKeeps(INIT, es);
  }

  /** Whenever a read loop is about to unlock connErrLock, the lock is held. */
  lemma UnlockFindsLockHeld(es: seq<Event>, g: nat)
    requires IsRun(INIT, es) && Enabled(Exec(INIT, es), ErrUnlocked(g))
    ensures Exec(INIT, es).core.errLock
  {
    assert ActiveSet(INIT.phase) == {};
    RunKeeps(INIT, es);
    ClearedHoldsLock(Exec(INIT, es), g);
  }

  lemma ClearedHoldsLock(s: State, g: nat)
    requires LoopsOk(s) && Enabled(s, ErrUnlocked(g))
    ensures s.core.errLock
  {
    assert !Over(s.loops[g]);
  }

  /** Closing leads nowhere but to Closed. */
  lemma {:induction false} ClosingEndsClosed(s: State, es: seq<Event>)
    requires Inv(s) && IsRun(s, es) && !Admits(s.core)
    ensures var t := Exec(s, es); !Admits(t.core) && (s.core.state == Closed ==> t.core.state == Closed && t.core.exitErr == s.core.exitErr)
    decreases |es|
  {
    if es != [] {
      StepKeeps(s, es[0]);
      ClosingStep(s, es[0]);
      ClosingEndsClosed(Apply(s, es[0]), es[1..]);
    }
  }

  lemma ClosingStep(s: State, e: Event)
    requires LifecycleOk(s.core) && Enabled(s, e) && !Admits(s.core)
    ensures var c := Apply(s, e).core; !Admits(c) && (s.core.state == Closed ==> c.state == Closed && c.exitErr == s.core.exitErr)
  {
  }

  // ---- Is every Close answered? ----

  predicate AtWork(l: Loop) { l.Reading? || l.Delivering? }

  predicate PastStop(l: Loop) { l.Stopping? || l.Cleared? || l.Notifying? || l.Warning? }

  /** Responses for mark `m` that nobody has taken: in its channel, in the read loop's hand, or still to come. */
  function Pile(s: State, m: nat): nat
    requires s.loops != []
  {
    s.due[m] + (if m in s.slots then 1 else 0) + (if s.loops[|s.loops| - 1] == Delivering(m) then 1 else 0)
  }

  /** The connection `Close` would be handed is one whose read loop has already begun to stop. */
  predicate StaleConn(s: State) {
    s.core.conn.Some? && s.core.conn.value < |s.loops| && s.loops[s.core.conn.value].Stopping?
  }

  /** The read loop `Close` would wait for has two responses to deliver under one mark. */
  ghost predicate Clogs(s: State)
    requires s.loops != []
  {
    s.core.conn.Some? && AtWork(s.loops[|s.loops| - 1]) && exists m :: Pile(s, m) >= 2
  }

  /** Steps the session takes by itself: no failing network, no dialling, no server, no new caller. */
  predicate Sure(s: State, e: Event) {
    match e
    case CloseActs(_, _) => true
    case ReadFails(g) => g in s.cut
    case Delivered(_) => true
    case StopEnters(_) => true
    case ConnCleared(_) => true
    case ErrUnlocked(_) => true
    case NotifyLooks(_) => true
    case NotifySends(_) => true
    case GracefulExit(_, _) => true
    case _ => false
  }

  predicate SureRun(s: State, es: seq<Event>)
    decreases |es|
  {
    es == [] || (Enabled(s, es[0]) && Sure(s, es[0]) && SureRun(Apply(s, es[0]), es[1..]))
  }

  lemma {:induction false} SureIsRun(s: State, es: seq<Event>)
    requires SureRun(s, es)
    ensures IsRun(s, es)
    decreases |es|
  {
    if es != [] { SureIsRun(Apply(s, es[0]), es[1..]); }
  }

  /** By its own steps the session comes to its end. */
  ghost predicate Ends(s: State) { exists es :: SureRun(s, es) && IsRun(s, es) && Exec(s, es).core.state == Closed }

  /** Whatever happens, the session has ended or ends by its own steps. */
  ghost predicate AlwaysAnswered(s: State) { forall es :: IsRun(s, es) ==> Ends(Exec(s, es)) }

  // ---- What holds of connections and closers ----

  /** The connection in use is the newest one, and its loop has not cleared it yet. */
  predicate ConnFits(c: Core, last: nat, l: Loop) {
    && !l.Reconnected? && (l.Ended? ==> c.exits > 0)
    && (c.conn.Some? ==> c.conn.value == last && (AtWork(l) || l.Failed? || l.Stopping?))
    && (Admits(c) && PastStop(l) ==> !l.graceful)
  }

  predicate ConnOk(s: State)
    requires s.loops != []
  {
    ConnFits(s.core, |s.loops| - 1, s.loops[|s.loops| - 1])
  }

  /** Before the session closes no closer has begun; only connections there are get cut. */
  ghost predicate CutOk(s: State) {
    && (Admits(s.core) ==> forall c :: c in s.closers ==> !s.closers[c].Begun?)
    && (forall c :: c in s.closers && s.closers[c].Begun? && s.closers[c].seen.Some? ==> s.closers[c].seen.value < |s.loops|)
    && (forall g :: g in s.cut ==> g < |s.loops|)
  }

  ghost predicate ClosersOk(s: State)
    requires s.loops != []
  {
    ConnOk(s) && CutOk(s)
  }

  /** Steps that leave the read loops alone. */
  lemma ConnKeepsCore(s: State, e: Event)
    requires LifecycleOk(s.core) && s.loops != [] && ConnOk(s) && Enabled(s, e) && !OfLoop(e)
    ensures Apply(s, e).loops == s.loops && ConnOk(Apply(s, e))
  {
  }

  /** Steps of a read loop: the newest one, or an older one leaving error mode. */
  lemma NewestActs(s: State, e: Event)
    requires LoopsOk(s) && ConnOk(s) && Enabled(s, e) && OfLoop(e)
    ensures if e.Resumes? then e.g < |s.loops| - 1 else e.g == |s.loops| - 1
  {
    assert !e.Resumes? ==> !Over(s.loops[e.g]);
  }

  lemma ConnKeepsLoop(s: State, e: Event)
    requires LifecycleOk(s.core) && LoopsOk(s) && ConnOk(s) && Enabled(s, e) && OfLoop(e)
    ensures Apply(s, e).loops != [] && ConnOk(Apply(s, e))
  {
    NewestActs(s, e);
  }

  lemma ConnKeeps(s: State, e: Event)
    requires LifecycleOk(s.core) && LoopsOk(s) && ConnOk(s) && Enabled(s, e)
    ensures LoopsOk(Apply(s, e)) && ConnOk(Apply(s, e))
  {
    LoopsKeep(s, e);
    if OfLoop(e) {
      ConnKeepsLoop(s, e);
    } else {
      ConnKeepsCore(s, e);
    }
  }

  lemma CutKeeps(s: State, e: Event)
    requires LoopsOk(s) && ConnOk(s) && CutOk(s) && Enabled(s, e)
    ensures CutOk(Apply(s, e))
  {
    assert |Apply(s, e).loops| >= |s.loops|;
  }

  lemma {:induction false} RunClosersOk(s: State, es: seq<Event>)
    requires Inv(s) && ClosersOk(s) && IsRun(s, es)
    ensures Inv(Exec(s, es)) && ClosersOk(Exec(s, es))
    decreases |es|
  {
    if es != [] {
      StepKeeps(s, es[0]);
      ConnKeeps(s, es[0]);
      CutKeeps(s, es[0]);
      RunClosersOk(Apply(s, es[0]), es[1..]);
    }
  }

  lemma Reachable(es: seq<Event>)
    requires IsRun(INIT, es)
    ensures Inv(Exec(INIT, es)) && ClosersOk(Exec(INIT, es))
  {
    assert ActiveSet(INIT.phase) == {};
    RunClosersOk(INIT, es);
  }

  /** While the session closes nobody uses it. */
  lemma ClosingIsIdle(s: State)
    requires Inv(s) && s.core.activeReqs == 0
    ensures s.holder == map[] && forall r :: r in s.phase ==> !Active(s.phase[r])
  {
    assert ActiveSet(s.phase) == {};
    forall r | r in s.phase ensures !Active(s.phase[r]) {
      assert r !in ActiveSet(s.phase);
    }
  }

  // ---- Answered: somebody is about to end the session, and nothing is in the way ----

  predicate WillExit(s: State) { exists c :: c in s.closers && s.closers[c] == Begun(None) }

  predicate WillAsk(s: State, g: nat) { exists c :: c in s.closers && s.closers[c] == Begun(Some(g)) }

  ghost predicate NoPile(s: State)
    requires s.loops != []
  {
    forall m :: Pile(s, m) <= 1
  }

  /** A closer is about to exit, or the connection being read was (or is about to be) closed and
      its read loop can deliver what it gets, or that loop is already on its way out. */
  ghost predicate Answerable(s: State)
    requires s.loops != []
  {
    var last := |s.loops| - 1;
    var l := s.loops[last];
    || WillExit(s)
    || ((l.Stopping? || l.Cleared? || (l.Notifying? && l.next <= MARKS)) && l.graceful)
    || l.Failed?
    || (AtWork(l) && (last in s.cut || WillAsk(s, last)) && NoPile(s))
  }

  /** No step adds to a pile while nobody holds a mark. */
  lemma PileKeeps(s: State, e: Event, m: nat)
    requires Inv(s) && ConnOk(s) && s.core.activeReqs == 0 && Enabled(s, e) && Apply(s, e).loops != []
    requires AtWork(s.loops[|s.loops| - 1])
    ensures Pile(Apply(s, e), m) <= Pile(s, m)
  {
    ClosingIsIdle(s);
    if OfLoop(e) { NewestActs(s, e); }
  }

  lemma NoPileKeeps(s: State, e: Event)
    requires Inv(s) && ConnOk(s) && s.core.activeReqs == 0 && Enabled(s, e) && Apply(s, e).loops != []
    requires AtWork(s.loops[|s.loops| - 1]) && NoPile(s)
    ensures NoPile(Apply(s, e))
  {
    forall m ensures Pile(Apply(s, e), m) <= 1 {
      PileKeeps(s, e, m);
      assert Pile(s, m) <= 1;
    }
  }

  lemma PromiseKeeps(s: State, e: Event)
    requires LifecycleOk(s.core) && Enabled(s, e) && s.core.state == Closing && Apply(s, e).core.state != Closed
    ensures WillExit(s) ==> WillExit(Apply(s, e))
    ensures forall g :: g in s.cut || WillAsk(s, g) ==> g in Apply(s, e).cut || WillAsk(Apply(s, e), g)
  {
    var t := Apply(s, e);
    if WillExit(s) {
      var c :| c in s.closers && s.closers[c] == Begun(None);
      assert c in t.closers && t.closers[c] == Begun(None);
    }
    forall g | g !in s.cut && WillAsk(s, g) ensures g in t.cut || WillAsk(t, g) {
      var c :| c in s.closers && s.closers[c] == Begun(Some(g));
      assert g in t.cut || (c in t.closers && t.closers[c] == Begun(Some(g)));
    }
  }

  /** Once answerable, a closing session stays so until it is closed. */
  lemma AnswerableKeeps(s: State, e: Event)
    requires Inv(s) && ConnOk(s) && Enabled(s, e) && s.core.state == Closing && Answerable(s)
    ensures Apply(s, e).loops != [] && (Apply(s, e).core.state == Closed || Answerable(Apply(s, e)))
  {
    var t, last := Apply(s, e), |s.loops| - 1;
    LoopsKeep(s, e);
    ClosingIsIdle(s);
    if OfLoop(e) { NewestActs(s, e); }
    if t.core.state != Closed {
      PromiseKeeps(s, e);
      if AtWork(s.loops[last]) && NoPile(s) { NoPileKeeps(s, e); }
    }
  }

  lemma {:induction false} AnswerableStays(s: State, es: seq<Event>)
    requires Inv(s) && ConnOk(s) && !Admits(s.core) && (s.core.state == Closed || Answerable(s)) && IsRun(s, es)
    ensures Inv(Exec(s, es)) && (Exec(s, es).core.state == Closed || Answerable(Exec(s, es)))
    ensures !Admits(Exec(s, es).core)
    decreases |es|
  {
    if es != [] {
      var t := Apply(s, es[0]);
      StepKeeps(s, es[0]);
      ConnKeeps(s, es[0]);
      ClosingEndsClosed(s, [es[0]]);
      assert Exec(s, [es[0]]) == t by { assert [es[0]][1..] == []; }
      if s.core.state == Closing {
        AnswerableKeeps(s, es[0]);
      }
      AnswerableStays(t, es[1..]);
    }
  }

  /** A closing session that nobody uses. */
  ghost predicate Winding(s: State) {
    s.core.state == Closing && LifecycleOk(s.core) && s.holder == map[] && s.loops != []
  }

  lemma EndsAfter(s: State, e: Event)
    requires Enabled(s, e) && Sure(s, e) && Ends(Apply(s, e))
    ensures Ends(s)
  {
    var t := Apply(s, e);
    var es :| SureRun(t, es) && IsRun(t, es) && Exec(t, es).core.state == Closed;
    var fs := [e] + es;
    assert fs[0] == e && fs[1..] == es;
    assert SureRun(s, fs) && IsRun(s, fs) && Exec(s, fs) == Exec(t, es);
  }

  lemma ClosedEnds(s: State)
    requires s.core.state == Closed
    ensures Ends(s)
  {
    assert SureRun(s, []) && IsRun(s, []) && Exec(s, []) == s;
  }

  lemma {:induction false} NotifyingEnds(s: State, i: nat)
    requires Winding(s) && i <= MARKS && s.loops[|s.loops| - 1] == Notifying(true, i)
    ensures Ends(s)
    decreases MARKS - i
  {
    var g := |s.loops| - 1;
    if i == MARKS {
      ClosedEnds(Apply(s, GracefulExit(g, None)));
      EndsAfter(s, GracefulExit(g, None));
    } else {
      NotifyingEnds(Apply(s, NotifyLooks(g)), i + 1);
      EndsAfter(s, NotifyLooks(g));
    }
  }

  lemma ClearedEnds(s: State)
    requires Winding(s) && s.loops[|s.loops| - 1] == Cleared(true)
    ensures Ends(s)
  {
    var g := |s.loops| - 1;
    NotifyingEnds(Apply(s, ErrUnlocked(g)), 0);
    EndsAfter(s, ErrUnlocked(g));
  }

  lemma StoppingEnds(s: State)
    requires Winding(s) && s.loops[|s.loops| - 1] == Stopping(true)
    ensures Ends(s)
  {
    var g := |s.loops| - 1;
    ClearedEnds(Apply(s, ConnCleared(g)));
    EndsAfter(s, ConnCleared(g));
  }

  lemma FailedEnds(s: State)
    requires Winding(s) && s.loops[|s.loops| - 1] == Failed
    ensures Ends(s)
  {
    var g := |s.loops| - 1;
    StoppingEnds(Apply(s, StopEnters(g)));
    EndsAfter(s, StopEnters(g));
  }

  lemma CutEnds(s: State)
    requires Winding(s) && AtWork(s.loops[|s.loops| - 1]) && |s.loops| - 1 in s.cut && NoPile(s)
    ensures Ends(s)
  {
    var g := |s.loops| - 1;
    if s.loops[g].Reading? {
      FailedEnds(Apply(s, ReadFails(g)));
      EndsAfter(s, ReadFails(g));
    } else {
      assert Pile(s, s.loops[g].mark) <= 1;
      var t := Apply(s, Delivered(g));
      FailedEnds(Apply(t, ReadFails(g)));
      EndsAfter(t, ReadFails(g));
      EndsAfter(s, Delivered(g));
    }
  }

  lemma ActingEnds(s: State, c: nat)
    requires Winding(s) && c in s.closers && s.closers[c].Begun?
    requires s.closers[c].seen.Some? ==>
      AtWork(s.loops[|s.loops| - 1]) && s.closers[c].seen.value == |s.loops| - 1 && NoPile(s)
    ensures Ends(s)
  {
    var t := Apply(s, CloseActs(c, false));
    if s.closers[c].seen.None? {
      ClosedEnds(t);
    } else {
      assert forall m :: Pile(t, m) == Pile(s, m);
      CutEnds(t);
    }
    EndsAfter(s, CloseActs(c, false));
  }

  lemma AnswerableEnds(s: State)
    requires Winding(s) && Answerable(s)
    ensures Ends(s)
  {
    var last := |s.loops| - 1;
    var l := s.loops[last];
    if WillExit(s) {
      var c :| c in s.closers && s.closers[c] == Begun(None);
      ActingEnds(s, c);
    } else if l.Failed? {
      FailedEnds(s);
    } else if AtWork(l) {
      if last in s.cut {
        CutEnds(s);
      } else {
        var c :| c in s.closers && s.closers[c] == Begun(Some(last));
        ActingEnds(s, c);
      }
    } else if l.Notifying? {
      NotifyingEnds(s, l.next);
    } else if l.Cleared? {
      ClearedEnds(s);
    } else {
      StoppingEnds(s);
    }
  }

  lemma FreshIsAnswerable(s: State, c: nat)
    requires LoopsOk(s) && ClosersOk(s) && Enabled(s, CloseLooks(c)) && MayClose(s.core) && !StaleConn(s) && !Clogs(s)
    ensures Answerable(Apply(s, CloseLooks(c)))
  {
    var t := Apply(s, CloseLooks(c));
    assert c in t.closers && t.closers[c] == Begun(s.core.conn);
    assert s.core.conn.None? ==> WillExit(t);
    assert s.core.conn.Some? ==> WillAsk(t, s.core.conn.value);
    assert forall m :: Pile(t, m) == Pile(s, m);
  }

  lemma FreshIsAnswered(s: State, c: nat)
    requires Inv(s) && ClosersOk(s) && Enabled(s, CloseLooks(c)) && MayClose(s.core) && !StaleConn(s) && !Clogs(s)
    ensures AlwaysAnswered(Apply(s, CloseLooks(c)))
  {
    var t := Apply(s, CloseLooks(c));
    StepKeeps(s, CloseLooks(c));
    ConnKeeps(s, CloseLooks(c));
    FreshIsAnswerable(s, c);
    forall es | IsRun(t, es) ensures Ends(Exec(t, es)) {
      AnswerableStays(t, es);
      var u := Exec(t, es);
      if u.core.state == Closed {
        ClosedEnds(u);
      } else {
        ClosingIsIdle(u);
        AnswerableEnds(u);
      }
    }
  }

  // ---- Not answered: the read loop waits for something that does not come ----

  /** The read loop wants to deliver to a full channel, and nobody is there to empty it. */
  predicate Stuck(s: State)
    requires s.loops != []
  {
    var l := s.loops[|s.loops| - 1];
    l.Delivering? && l.mark in s.slots && l.mark !in s.holder
  }

  ghost predicate NobodyActs(s: State) { forall c :: c in s.closers ==> !s.closers[c].Begun? }

  /** The session closes, every closer waits, and the read loop is stuck or reads a connection nobody has closed. */
  ghost predicate Hung(s: State)
    requires s.loops != []
  {
    var last := |s.loops| - 1;
    s.core.state == Closing && NobodyActs(s) && AtWork(s.loops[last]) && (last !in s.cut || Stuck(s))
  }

  /** Everything but a failure of a connection nobody has closed. */
  predicate NotTheNetwork(s: State, e: Event) {
    !e.PingFails? && !e.WriteFails? && (e.ReadFails? ==> e.g in s.cut)
  }

  lemma HungKeeps(s: State, e: Event)
    requires Inv(s) && ConnOk(s) && Hung(s) && Enabled(s, e) && (Stuck(s) || NotTheNetwork(s, e))
    ensures Apply(s, e).loops != [] && Hung(Apply(s, e)) && (Stuck(s) ==> Stuck(Apply(s, e)))
  {
    ClosingIsIdle(s);
    if OfLoop(e) { NewestActs(s, e); }
  }

  predicate NetworkHolds(s: State, es: seq<Event>)
    requires IsRun(s, es)
    decreases |es|
  {
    es == [] || (NotTheNetwork(s, es[0]) && NetworkHolds(Apply(s, es[0]), es[1..]))
  }

  /** Once stuck it stays so whatever happens; otherwise only a failing network could help. */
  lemma {:induction false} HungForever(s: State, es: seq<Event>)
    requires Inv(s) && ConnOk(s) && Hung(s) && IsRun(s, es) && (Stuck(s) || NetworkHolds(s, es))
    ensures Exec(s, es).core.state == Closing
    decreases |es|
  {
    if es != [] {
      StepKeeps(s, es[0]);
      ConnKeeps(s, es[0]);
      HungKeeps(s, es[0]);
      HungForever(Apply(s, es[0]), es[1..]);
    }
  }

  lemma {:induction false} SureIsOurs(s: State, es: seq<Event>)
    requires SureRun(s, es) && IsRun(s, es)
    ensures NetworkHolds(s, es)
    decreases |es|
  {
    if es != [] { SureIsOurs(Apply(s, es[0]), es[1..]); }
  }

  lemma HungNeverEnds(s: State)
    requires Inv(s) && ConnOk(s) && Hung(s)
    ensures !Ends(s)
  {
    forall es | SureRun(s, es) && IsRun(s, es) ensures Exec(s, es).core.state != Closed {
      SureIsOurs(s, es);
      HungForever(s, es);
    }
  }

  lemma {:induction false} RunsJoin(s: State, es: seq<Event>, e: Event)
    requires IsRun(s, es) && Enabled(Exec(s, es), e)
    ensures IsRun(s, es + [e]) && Exec(s, es + [e]) == Apply(Exec(s, es), e)
    decreases |es|
  {
    if es == [] {
      assert [] + [e] == [e] && [e][1..] == [];
    } else {
      RunsJoin(Apply(s, es[0]), es[1..], e);
      assert (es + [e])[1..] == es[1..] + [e];
    }
  }

  lemma RunCons(s: State, e: Event, es: seq<Event>)
    requires Enabled(s, e) && IsRun(Apply(s, e), es)
    ensures IsRun(s, [e] + es) && Exec(s, [e] + es) == Exec(Apply(s, e), es)
  {
    assert ([e] + es)[0] == e && ([e] + es)[1..] == es;
  }

  /** With no mark held the notifier goes through without sending anything. */
  lemma {:induction false} NotifiesNobody(s: State, g: nat, i: nat) returns (es: seq<Event>)
    requires g < |s.loops| && i <= MARKS && s.loops[g] == Notifying(false, i) && s.holder == map[]
    ensures IsRun(s, es) && Exec(s, es) == s.(loops := s.loops[g := Notifying(false, MARKS)])
    decreases MARKS - i
  {
    if i == MARKS {
      es := [];
      assert s.loops == s.loops[g := Notifying(false, MARKS)];
    } else {
      var t := Apply(s, NotifyLooks(g));
      var fs := NotifiesNobody(t, g, i + 1);
      RunCons(s, NotifyLooks(g), fs);
      es := [NotifyLooks(g)] + fs;
      assert t.loops[g := Notifying(false, MARKS)] == s.loops[g := Notifying(false, MARKS)];
    }
  }

  /** A closing session whose newest connection is being stopped: it may be replaced by one nobody closes. */
  lemma Replaced(s: State, g: nat) returns (es: seq<Event>)
    requires g == |s.loops| - 1 && s.loops[g] == Stopping(false) && s.core.state == Closing
    requires NobodyActs(s) && s.holder == map[] && CutOk(s)
    ensures IsRun(s, es) && Exec(s, es).loops != [] && Hung(Exec(s, es))
  {
    var t := Apply(s, ConnCleared(g));
    var u := Apply(t, ErrUnlocked(g));
    var fs := NotifiesNobody(u, g, 0);
    var v := Exec(u, fs);
    RunsJoin(u, fs, Redialed(g));
    var gs := fs + [Redialed(g)];
    RunCons(t, ErrUnlocked(g), gs);
    RunCons(s, ConnCleared(g), [ErrUnlocked(g)] + gs);
    es := [ConnCleared(g)] + ([ErrUnlocked(g)] + gs);
  }

  /** Close is handed the dying connection, and the one dialled next is closed by nobody. */
  lemma StaleIsMissed(s: State, c: nat) returns (es: seq<Event>)
    requires Inv(s) && ClosersOk(s) && Enabled(s, CloseLooks(c)) && MayClose(s.core) && StaleConn(s)
    ensures var t := Apply(s, CloseLooks(c)); IsRun(t, es) && Exec(t, es).loops != [] && Hung(Exec(t, es))
  {
    var g, t := |s.loops| - 1, Apply(s, CloseLooks(c));
    var u := Apply(t, CloseActs(c, false));
    ClosingIsIdle(s);
    assert u.loops[g] == Stopping(false) && u.core.state == Closing;
    var fs := Replaced(u, g);
    RunCons(t, CloseActs(c, false), fs);
    es := [CloseActs(c, false)] + fs;
  }

  /** Only what is under way to the channels differs. */
  ghost predicate SameBut(s: State, t: State) {
    && t.core == s.core && t.phase == s.phase && t.holder == s.holder && t.closers == s.closers && t.cut == s.cut
    && |t.loops| == |s.loops|
  }

  /** The read loop delivers until it cannot. */
  lemma {:induction false} Jams(s: State, m: nat) returns (es: seq<Event>)
    requires s.loops != [] && AtWork(s.loops[|s.loops| - 1]) && Pile(s, m) >= 2 && s.holder == map[]
    ensures IsRun(s, es) && SameBut(s, Exec(s, es)) && Stuck(Exec(s, es))
    decreases 2 * s.due[m] + if s.loops[|s.loops| - 1].Delivering? then 1 else 0
  {
    var g := |s.loops| - 1;
    es := [];
    if !Stuck(s) {
      var e := if s.loops[g].Delivering? then Delivered(g) else Arrives(g, m);
      var t := Apply(s, e);
      var fs := Jams(t, m);
      RunCons(s, e, fs);
      es := [e] + fs;
    }
  }

  /** The only closer closes the connection, but the read loop is stuck and does not see it. */
  lemma ActsInVain(s: State, c: nat)
    requires s.loops != [] && s.core.state == Closing && Stuck(s) && c in s.closers && s.closers[c].Begun? && s.closers[c].seen.Some?
    requires forall d :: d in s.closers && d != c ==> !s.closers[d].Begun?
    ensures Apply(s, CloseActs(c, false)).loops != [] && Hung(Apply(s, CloseActs(c, false))) && Stuck(Apply(s, CloseActs(c, false)))
  {
  }

  /** Two responses for one mark and nobody to take them: the read loop is stuck before Close reaches it. */
  lemma ClogHangs(s: State, c: nat) returns (es: seq<Event>)
    requires Inv(s) && ClosersOk(s) && Enabled(s, CloseLooks(c)) && MayClose(s.core) && Clogs(s)
    ensures var t := Apply(s, CloseLooks(c)); IsRun(t, es) && Exec(t, es).loops != [] && Hung(Exec(t, es)) && Stuck(Exec(t, es))
  {
    var t := Apply(s, CloseLooks(c));
    ClosingIsIdle(s);
    var m :| Pile(s, m) >= 2;
    assert Pile(t, m) == Pile(s, m);
    var fs := Jams(t, m);
    ActsInVain(Exec(t, fs), c);
    RunsJoin(t, fs, CloseActs(c, false));
    es := fs + [CloseActs(c, false)];
  }

  lemma HungIsNotAnswered(t: State, es: seq<Event>)
    requires Inv(t) && t.loops != [] && ClosersOk(t) && IsRun(t, es) && Exec(t, es).loops != [] && Hung(Exec(t, es))
    ensures !AlwaysAnswered(t)
  {
    RunClosersOk(t, es);
    HungNeverEnds(Exec(t, es));
  }

  // ---- The theorem, and that both exceptions come up ----

  /**
   A Close that finds the session running and idle is answered, whatever happens next,
   exactly if the connection it finds is not already being stopped and its read loop
   will not have two responses to deliver under one mark.
   */
  lemma CloseAnsweredIff(es: seq<Event>, c: nat)
    requires IsRun(INIT, es) && Enabled(Exec(INIT, es), CloseLooks(c)) && MayClose(Exec(INIT, es).core)
    ensures Exec(INIT, es).loops != []
    ensures AlwaysAnswered(Apply(Exec(INIT, es), CloseLooks(c))) <==> !StaleConn(Exec(INIT, es)) && !Clogs(Exec(INIT, es))
  {
    var s := Exec(INIT, es);
    Reachable(es);
    var t := Apply(s, CloseLooks(c));
    StepKeeps(s, CloseLooks(c));
    ConnKeeps(s, CloseLooks(c));
    CutKeeps(s, CloseLooks(c));
    if StaleConn(s) {
      var fs := StaleIsMissed(s, c);
      HungIsNotAnswered(t, fs);
    } else if Clogs(s) {
      var fs := ClogHangs(s, c);
      HungIsNotAnswered(t, fs);
    } else {
      FreshIsAnswered(s, c);
    }
  }

  /** A run from the start, one step longer. */
  lemma Extended(fs: seq<Event>, s: State, e: Event, t: State) returns (es: seq<Event>)
    requires IsRun(INIT, fs) && Exec(INIT, fs) == s && Enabled(s, e) && Apply(s, e) == t
    ensures IsRun(INIT, es) && Exec(INIT, es) == t
  {
    RunsJoin(INIT, fs, e);
    es := fs + [e];
  }

  lemma {:induction false} Concat(s: State, es: seq<Event>, fs: seq<Event>)
    requires IsRun(s, es) && IsRun(Exec(s, es), fs)
    ensures IsRun(s, es + fs) && Exec(s, es + fs) == Exec(Exec(s, es), fs)
    decreases |es|
  {
    if es == [] {
      assert [] + fs == fs;
    } else {
      Concat(Apply(s, es[0]), es[1..], fs);
      assert (es + fs)[1..] == es[1..] + fs;
    }
  }

  /** Nobody has used the session so far. */
  function Unused(c: Core, loops: seq<Loop>, closers: map<nat, Closer>): State {
    State(c, map[], map[], loops, closers, {}, {}, multiset{})
  }

  lemma Unlocks() returns (es: seq<Event>)
    ensures IsRun(INIT, es) && Exec(INIT, es) == Unused(Core(Recovering, 0, None, 0, None, false), [Notifying(false, 0)], map[])
  {
    var a := Unused(Core(Running, 0, None, 0, Some(0), true), [Failed], map[]);
    var b := Unused(Core(Recovering, 0, None, 0, Some(0), true), [Stopping(false)], map[]);
    var c := Unused(Core(Recovering, 0, None, 0, None, true), [Cleared(false)], map[]);
    es := Extended([], INIT, ReadFails(0), a);
    es := Extended(es, a, StopEnters(0), b);
    es := Extended(es, b, ConnCleared(0), c);
    es := Extended(es, c, ErrUnlocked(0), Unused(Core(Recovering, 0, None, 0, None, false), [Notifying(false, 0)], map[]));
  }

  lemma Reconnects() returns (es: seq<Event>)
    ensures IsRun(INIT, es)
    ensures Exec(INIT, es) == Unused(Core(Recovering, 0, None, 0, Some(1), false), [Reconnected, Reading], map[])
  {
    var a := Unused(Core(Recovering, 0, None, 0, None, false), [Notifying(false, 0)], map[]);
    var b := Unused(Core(Recovering, 0, None, 0, None, false), [Notifying(false, MARKS)], map[]);
    es := Unlocks();
    var fs := NotifiesNobody(a, 0, 0);
    assert a.loops[0 := Notifying(false, MARKS)] == b.loops;
    Concat(INIT, es, fs);
    es := Extended(es + fs, b, Redialed(0), Unused(Core(Recovering, 0, None, 0, Some(1), false), [Reconnected, Reading], map[]));
  }

  /** The new connection fails before error mode has set the state. */
  lemma FailsAgain() returns (es: seq<Event>)
    ensures IsRun(INIT, es)
    ensures Exec(INIT, es) == Unused(Core(Recovering, 0, None, 0, Some(1), true), [Reconnected, Stopping(false)], map[])
  {
    var a := Unused(Core(Recovering, 0, None, 0, Some(1), true), [Reconnected, Failed], map[]);
    es := Reconnects();
    es := Extended(es, Unused(Core(Recovering, 0, None, 0, Some(1), false), [Reconnected, Reading], map[]), ReadFails(1), a);
    es := Extended(es, a, StopEnters(1), Unused(Core(Recovering, 0, None, 0, Some(1), true), [Reconnected, Stopping(false)], map[]));
  }

  lemma StaleIsReachable() returns (es: seq<Event>)
    ensures IsRun(INIT, es) && Enabled(Exec(INIT, es), CloseLooks(0))
    ensures MayClose(Exec(INIT, es).core) && StaleConn(Exec(INIT, es))
  {
    var c := Unused(Core(Running, 0, None, 0, Some(1), true), [Ended, Stopping(false)], map[]);
    var d := Unused(c.core, c.loops, map[0 := Trying]);
    es := FailsAgain();
    es := Extended(es, Unused(Core(Recovering, 0, None, 0, Some(1), true), [Reconnected, Stopping(false)], map[]), Resumes(0), c);
    es := Extended(es, c, CloseCalled(0), d);
  }

  /** Request 0 under mark 1 and its `due` answers, on connections whose loops are these. */
  function OneUser(c: Core, p: Phase, held: bool, loops: seq<Loop>, slots: set<nat>, due: nat): State {
    State(c, map[0 := p], if held then map[1 := 0] else map[], loops, map[], {}, slots, multiset{}[1 := due])
  }

  const BUSY := Core(Running, 1, None, 0, Some(0), false)

  /** A request sends a command that is answered three times and takes the first answer. */
  lemma TakesOne() returns (es: seq<Event>)
    ensures IsRun(INIT, es) && Exec(INIT, es) == OneUser(BUSY, Holding(1), true, [Reading], {}, 2)
  {
    es := Extended([], INIT, Enter(0), OneUser(BUSY, Counted, false, [Reading], {}, 0));
    es := Extended(es, OneUser(BUSY, Counted, false, [Reading], {}, 0), TryMark(0, 1), OneUser(BUSY, Holding(1), true, [Reading], {}, 0));
    es := Extended(es, OneUser(BUSY, Holding(1), true, [Reading], {}, 0), Sends(0, 3), OneUser(BUSY, Holding(1), true, [Reading], {}, 3));
    es := Extended(es, OneUser(BUSY, Holding(1), true, [Reading], {}, 3), Arrives(0, 1), OneUser(BUSY, Holding(1), true, [Delivering(1)], {}, 2));
    es := Extended(es, OneUser(BUSY, Holding(1), true, [Delivering(1)], {}, 2), Delivered(0), OneUser(BUSY, Holding(1), true, [Reading], {1}, 2));
    es := Extended(es, OneUser(BUSY, Holding(1), true, [Reading], {1}, 2), Takes(0), OneUser(BUSY, Holding(1), true, [Reading], {}, 2));
  }

  const IDLE := BUSY.(activeReqs := 0)

  /** It gives the mark back there and then, and the other two answers come in. */
  lemma LeavesTwo() returns (es: seq<Event>)
    ensures IsRun(INIT, es) && Exec(INIT, es) == OneUser(IDLE, Gone, false, [Delivering(1)], {1}, 0)
  {
    es := TakesOne();
    es := Extended(es, OneUser(BUSY, Holding(1), true, [Reading], {}, 2), Unlock(0), OneUser(BUSY, Unlocked, false, [Reading], {}, 2));
    es := Extended(es, OneUser(BUSY, Unlocked, false, [Reading], {}, 2), Leave(0), OneUser(IDLE, Gone, false, [Reading], {}, 2));
    es := Extended(es, OneUser(IDLE, Gone, false, [Reading], {}, 2), Arrives(0, 1), OneUser(IDLE, Gone, false, [Delivering(1)], {}, 1));
    es := Extended(es, OneUser(IDLE, Gone, false, [Delivering(1)], {}, 1), Delivered(0), OneUser(IDLE, Gone, false, [Reading], {1}, 1));
    es := Extended(es, OneUser(IDLE, Gone, false, [Reading], {1}, 1), Arrives(0, 1), OneUser(IDLE, Gone, false, [Delivering(1)], {1}, 0));
  }

  /** The read loop is stuck, and Close would find the session running and idle. */
  lemma ClogIsReachable() returns (es: seq<Event>)
    ensures IsRun(INIT, es) && Enabled(Exec(INIT, es), CloseLooks(0)) && MayClose(Exec(INIT, es).core)
    ensures Exec(INIT, es).loops != [] && Stuck(Exec(INIT, es)) && Clogs(Exec(INIT, es)) && !StaleConn(Exec(INIT, es))
    ensures Exec(INIT, es) == OneUser(IDLE, Gone, false, [Delivering(1)], {1}, 0).(closers := map[0 := Trying])
  {
    es := LeavesTwo();
    var last := OneUser(IDLE, Gone, false, [Delivering(1)], {1}, 0);
    es := Extended(es, last, CloseCalled(0), last.(closers := map[0 := Trying]));
    assert Pile(Exec(INIT, es), 1) >= 2;
  }

  // ---- An error nobody is there for ----

  function Lost(n: int, conn: Option<nat>, locked: bool): Core { Core(Recovering, n, None, 0, conn, locked) }

  /** A request has its one answer in the channel. */
  lemma AnswerWaits() returns (es: seq<Event>)
    ensures IsRun(INIT, es) && Exec(INIT, es) == OneUser(BUSY, Holding(1), true, [Reading], {1}, 0)
  {
    es := Extended([], INIT, Enter(0), OneUser(BUSY, Counted, false, [Reading], {}, 0));
    es := Extended(es, OneUser(BUSY, Counted, false, [Reading], {}, 0), TryMark(0, 1), OneUser(BUSY, Holding(1), true, [Reading], {}, 0));
    es := Extended(es, OneUser(BUSY, Holding(1), true, [Reading], {}, 0), Sends(0, 1), OneUser(BUSY, Holding(1), true, [Reading], {}, 1));
    es := Extended(es, OneUser(BUSY, Holding(1), true, [Reading], {}, 1), Arrives(0, 1), OneUser(BUSY, Holding(1), true, [Delivering(1)], {}, 0));
    es := Extended(es, OneUser(BUSY, Holding(1), true, [Delivering(1)], {}, 0), Delivered(0), OneUser(BUSY, Holding(1), true, [Reading], {1}, 0));
  }

  /** The connection fails there. */
  lemma StopsThere() returns (es: seq<Event>)
    ensures IsRun(INIT, es) && Exec(INIT, es) == OneUser(Lost(1, Some(0), true), Holding(1), true, [Stopping(false)], {1}, 0)
  {
    var failed := BUSY.(errLock := true);
    es := AnswerWaits();
    es := Extended(es, OneUser(BUSY, Holding(1), true, [Reading], {1}, 0), ReadFails(0), OneUser(failed, Holding(1), true, [Failed], {1}, 0));
    es := Extended(es, OneUser(failed, Holding(1), true, [Failed], {1}, 0), StopEnters(0),
                   OneUser(Lost(1, Some(0), true), Holding(1), true, [Stopping(false)], {1}, 0));
  }

  lemma ThenFails() returns (es: seq<Event>)
    ensures IsRun(INIT, es) && Exec(INIT, es) == OneUser(Lost(1, None, false), Holding(1), true, [Notifying(false, 0)], {1}, 0)
  {
    es := StopsThere();
    es := Extended(es, OneUser(Lost(1, Some(0), true), Holding(1), true, [Stopping(false)], {1}, 0), ConnCleared(0),
                   OneUser(Lost(1, None, true), Holding(1), true, [Cleared(false)], {1}, 0));
    es := Extended(es, OneUser(Lost(1, None, true), Holding(1), true, [Cleared(false)], {1}, 0), ErrUnlocked(0),
                   OneUser(Lost(1, None, false), Holding(1), true, [Notifying(false, 0)], {1}, 0));
  }

  /** The notifier finds the mark locked, and the request takes its answer. */
  lemma FoundLocked() returns (es: seq<Event>)
    ensures IsRun(INIT, es) && Exec(INIT, es) == OneUser(Lost(1, None, false), Holding(1), true, [Warning(false, 1)], {}, 0)
  {
    es := ThenFails();
    es := Extended(es, OneUser(Lost(1, None, false), Holding(1), true, [Notifying(false, 0)], {1}, 0), NotifyLooks(0),
                   OneUser(Lost(1, None, false), Holding(1), true, [Notifying(false, 1)], {1}, 0));
    es := Extended(es, OneUser(Lost(1, None, false), Holding(1), true, [Notifying(false, 1)], {1}, 0), NotifyLooks(0),
                   OneUser(Lost(1, None, false), Holding(1), true, [Warning(false, 1)], {1}, 0));
    es := Extended(es, OneUser(Lost(1, None, false), Holding(1), true, [Warning(false, 1)], {1}, 0), Takes(0),
                   OneUser(Lost(1, None, false), Holding(1), true, [Warning(false, 1)], {}, 0));
  }

  /** It gives the mark back before the error is sent. */
  lemma ErrorComesLate() returns (es: seq<Event>)
    ensures IsRun(INIT, es) && Exec(INIT, es) == OneUser(Lost(0, None, false), Gone, false, [Notifying(false, 2)], {1}, 0)
  {
    es := FoundLocked();
    es := Extended(es, OneUser(Lost(1, None, false), Holding(1), true, [Warning(false, 1)], {}, 0), Unlock(0),
                   OneUser(Lost(1, None, false), Unlocked, false, [Warning(false, 1)], {}, 0));
    es := Extended(es, OneUser(Lost(1, None, false), Unlocked, false, [Warning(false, 1)], {}, 0), Leave(0),
                   OneUser(Lost(0, None, false), Gone, false, [Warning(false, 1)], {}, 0));
    es := Extended(es, OneUser(Lost(0, None, false), Gone, false, [Warning(false, 1)], {}, 0), NotifySends(0),
                   OneUser(Lost(0, None, false), Gone, false, [Notifying(false, 2)], {1}, 0));
  }

  /** So after the session has recovered, a mark nobody holds has an error in its channel, for whoever is given it next. */
  lemma ErrorIsLeft() returns (es: seq<Event>)
    ensures IsRun(INIT, es) && MayClose(Exec(INIT, es).core) && Exec(INIT, es).core.conn == Some(1)
    ensures Exec(INIT, es).holder == map[] && Exec(INIT, es).slots == {1} && Exec(INIT, es).due == multiset{}
  {
    var a := OneUser(Lost(0, None, false), Gone, false, [Notifying(false, 2)], {1}, 0);
    var b := OneUser(Lost(0, None, false), Gone, false, [Notifying(false, MARKS)], {1}, 0);
    var c := OneUser(Lost(0, Some(1), false), Gone, false, [Reconnected, Reading], {1}, 0);
    es := ErrorComesLate();
    var fs := NotifiesNobody(a, 0, 2);
    assert a.loops[0 := Notifying(false, MARKS)] == b.loops;
    Concat(INIT, es, fs);
    assert Apply(b, Redialed(0)).due == c.due;
    es := Extended(es + fs, b, Redialed(0), c);
    es := Extended(es, c, Resumes(0), Apply(c, Resumes(0)));
  }
}
