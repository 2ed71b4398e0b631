/**
 Sessions that outlive their connections. A handshake finds a session, takes its lock
 and starts a read loop; the loop gives the lock back when the connection is gone, and
 the session sleeps until it is resumed or the collector has found it idle five times.
 Handshakes, read loops, commands and the collector interleave step by step.

 A session is named by its id, and an id is never given out twice.
 */
module Hibernation {
  import opened Bytes

  const MAX_INACTIVE := 5

  /** The session object: its lock and the collector's counter. */
  datatype Session = Session(lock: bool, inactive: nat)

  datatype Handshake = Found(id: nat) | Locked(id: nat) | Over

  datatype Stage = Reading | Stopping(graceful: bool) | Drained(graceful: bool) | Deleted

  datatype Loop = Loop(id: nat, stage: Stage)

  datatype Collector = Resting | Seen(id: nat) | Scanning(id: nat)

  datatype State = State(
    sessions: map<nat, Session>,   // every session ever created
    registry: set<nat>,            // those that can be found
    destroyed: set<nat>,           // those the collector took out
    handshakes: map<nat, Handshake>,
    loops: map<nat, Loop>,         // read loops alive
    cmds: map<nat, nat>,           // running commands and their session
    collector: Collector)

  const INIT := State(map[], {}, {}, map[], map[], map[], Resting)

  datatype Event =
    | Create(id: nat)
    | Lookup(h: nat, id: nat) | TryLock(h: nat) | UpgradeFails(h: nat) | Upgraded(h: nat, l: nat)
    | CommandStarts(l: nat, c: nat) | CommandEnds(c: nat)
    | LoopFails(l: nat, graceful: bool) | CommandsDone(l: nat) | Deletes(l: nat, id: nat) | Unlocks(l: nat, id: nat) | Hibernates(l: nat, id: nat)
    | ScanSees(id: nat) | ScanLocks(id: nat) | ScanSkips(id: nat) | ScanFrees(id: nat) | ScanDestroys(id: nat)

  predicate LoopAt(s: State, l: nat, stage: Stage) {
    l in s.loops && s.loops[l].stage == stage && s.loops[l].id in s.sessions
  }

  predicate Enabled(s: State, e: Event) {
    match e
    case Create(id) => id !in s.sessions
    case Lookup(h, id) => h !in s.handshakes && id in s.registry
    case TryLock(h) => h in s.handshakes && s.handshakes[h].Found? && s.handshakes[h].id in s.sessions
    case UpgradeFails(h) => h in s.handshakes && s.handshakes[h].Locked? && s.handshakes[h].id in s.sessions
    case Upgraded(h, l) => h in s.handshakes && s.handshakes[h].Locked? && l !in s.loops
    case CommandStarts(l, c) => LoopAt(s, l, Reading) && c !in s.cmds
    case CommandEnds(c) => c in s.cmds
    case LoopFails(l, _) => LoopAt(s, l, Reading)
    case CommandsDone(l) => l in s.loops && s.loops[l].stage.Stopping? && forall c :: c in s.cmds ==> s.cmds[c] != s.loops[l].id
    case Deletes(l, id) => LoopAt(s, l, Drained(true)) && s.loops[l].id == id
    case Unlocks(l, id) => LoopAt(s, l, Deleted) && s.loops[l].id == id
    case Hibernates(l, id) => LoopAt(s, l, Drained(false)) && s.loops[l].id == id
    case ScanSees(id) => s.collector.Resting? && id in s.registry
    case ScanLocks(id) => s.collector == Seen(id) && id in s.sessions && !s.sessions[id].lock
    case ScanSkips(id) => s.collector == Seen(id) && id in s.sessions && s.sessions[id].lock
    case ScanFrees(id) => s.collector == Scanning(id) && id in s.sessions && s.sessions[id].inactive < MAX_INACTIVE
    case ScanDestroys(id) => s.collector == Scanning(id) && id in s.sessions && s.sessions[id].inactive >= MAX_INACTIVE
  }

  function SetLock(s: State, id: nat, on: bool): map<nat, Session>
    requires id in s.sessions
  {
    s.sessions[id := s.sessions[id].(lock := on)]
  }

  function Apply(s: State, e: Event): State
    requires Enabled(s, e)
  {
    match e
    case Create(id) => s.(sessions := s.sessions[id := Session(false, 0)], registry := s.registry + {id})
    case Lookup(h, id) => s.(handshakes := s.handshakes[h := Found(id)])
    case TryLock(h) =>
      var id := s.handshakes[h].id;
      if s.sessions[id].lock then s.(handshakes := s.handshakes[h := Over])
      else s.(sessions := SetLock(s, id, true), handshakes := s.handshakes[h := Locked(id)])
    case UpgradeFails(h) => s.(sessions := SetLock(s, s.handshakes[h].id, false), handshakes := s.handshakes[h := Over])
    case Upgraded(h, l) => s.(handshakes := s.handshakes[h := Over], loops := s.loops[l := Loop(s.handshakes[h].id, Reading)])
    case CommandStarts(l, c) => s.(cmds := s.cmds[c := s.loops[l].id])
    case CommandEnds(c) => s.(cmds := s.cmds - {c})
    case LoopFails(l, graceful) => s.(loops := s.loops[l := s.loops[l].(stage := Stopping(graceful))])
    case CommandsDone(l) => s.(loops := s.loops[l := s.loops[l].(stage := Drained(s.loops[l].stage.graceful))])
    case Deletes(l, id) => s.(registry := s.registry - {id}, loops := s.loops[l := s.loops[l].(stage := Deleted)])
    case Unlocks(l, id) => s.(sessions := SetLock(s, id, false), loops := s.loops - {l})
    case Hibernates(l, id) => s.(sessions := s.sessions[id := Session(false, 0)], loops := s.loops - {l})
    case ScanSees(id) => s.(collector := Seen(id))
    case ScanLocks(id) => s.(sessions := s.sessions[id := Session(true, s.sessions[id].inactive + 1)], collector := Scanning(id))
    case ScanSkips(id) => s.(collector := Resting)
    case ScanFrees(id) => s.(sessions := SetLock(s, id, false), collector := Resting)
    case ScanDestroys(id) => s.(registry := s.registry - {id}, destroyed := s.destroyed + {id}, collector := Resting)
  }

  predicate IsRun(s: State, es: seq<Event>)
    decreases |es|, 0
  {
    es == [] || (IsRun(s, es[..|es| - 1]) && Enabled(Exec(s, es[..|es| - 1]), es[|es| - 1]))
  }

  function Exec(s: State, es: seq<Event>): State
    requires IsRun(s, es)
    decreases |es|, 1
  {
    if es == [] then s else Apply(Exec(s, es[..|es| - 1]), es[|es| - 1])
  }

  // ---- Who has a session's lock ----

  datatype Who = Handler(h: nat) | ReadLoop(l: nat) | TheCollector | Nobody

  predicate Holds(s: State, id: nat, w: Who) {
    match w
    case Handler(h) => h in s.handshakes && s.handshakes[h] == Locked(id)
    case ReadLoop(l) => l in s.loops && s.loops[l].id == id
    case TheCollector => s.collector == Scanning(id)
    case Nobody => id in s.destroyed
  }

  /** The lock is taken exactly if someone has it, and then only one has. */
  ghost predicate LocksOk(s: State) {
    && (forall id, w :: Holds(s, id, w) ==> id in s.sessions && s.sessions[id].lock)
    && (forall id, v, w :: Holds(s, id, v) && Holds(s, id, w) ==> v == w)
  }

  ghost predicate TakenByOne(s: State) {
    forall id :: id in s.sessions && s.sessions[id].lock ==> exists w :: Holds(s, id, w)
  }

  ghost predicate NamesOk(s: State) {
    && s.registry <= s.sessions.Keys
    && (forall h :: h in s.handshakes && s.handshakes[h].Found? ==> s.handshakes[h].id in s.sessions)
    && (s.collector.Seen? ==> s.collector.id in s.sessions)
  }

  /** A command's session has a read loop that is still waiting for its commands. */
  predicate Serves(s: State, l: nat, id: nat) {
    l in s.loops && s.loops[l].id == id && (s.loops[l].stage.Reading? || s.loops[l].stage.Stopping?)
  }

  ghost predicate CmdsOk(s: State) {
    forall c :: c in s.cmds ==> exists l :: Serves(s, l, s.cmds[c])
  }

  /** Nobody new gets hold of anything and locks stay as they are, except for `who` and `id`. */
  ghost predicate OnlyChanges(s: State, t: State, id: nat, who: Who) {
    && (forall k, w :: (k != id || w != who) && Holds(t, k, w) ==> Holds(s, k, w))
    && (forall k :: k in s.sessions ==> k in t.sessions && (k != id ==> t.sessions[k].lock == s.sessions[k].lock))
  }

  /** A free lock is taken by `who`. */
  lemma Taken(s: State, t: State, id: nat, who: Who)
    requires LocksOk(s) && id in s.sessions && !s.sessions[id].lock && OnlyChanges(s, t, id, who)
    requires id in t.sessions && t.sessions[id].lock
    ensures LocksOk(t)
  {
  }

  /** The holder `who` lets the lock go. */
  lemma LetGo(s: State, t: State, id: nat, who: Who)
    requires LocksOk(s) && Holds(s, id, who) && OnlyChanges(s, t, id, who) && !Holds(t, id, who)
    ensures LocksOk(t)
  {
  }

  /** The holder `from` passes the lock on to `who`. */
  lemma PassedOn(s: State, t: State, id: nat, from: Who, who: Who)
    requires LocksOk(s) && Holds(s, id, from) && !Holds(t, id, from) && OnlyChanges(s, t, id, who)
    requires id in t.sessions && t.sessions[id].lock && from != who
    ensures LocksOk(t)
  {
  }

  lemma Unaffected(s: State, t: State)
    requires LocksOk(s)
    requires forall k, w :: Holds(t, k, w) ==> Holds(s, k, w)
    requires forall k :: k in s.sessions ==> k in t.sessions && t.sessions[k].lock == s.sessions[k].lock
    ensures LocksOk(t)
  {
  }

  lemma LocksKept(s: State, e: Event)
    requires LocksOk(s) && Enabled(s, e)
    ensures LocksOk(Apply(s, e))
  {
    var t := Apply(s, e);
    match e {
      case TryLock(h) =>
        var id := s.handshakes[h].id;
        if s.sessions[id].lock { Unaffected(s, t); } else { Taken(s, t, id, Handler(h)); }
      case UpgradeFails(h) => LetGo(s, t, s.handshakes[h].id, Handler(h));
      case Upgraded(h, l) =>
        assert Holds(s, s.handshakes[h].id, Handler(h));
        PassedOn(s, t, s.handshakes[h].id, Handler(h), ReadLoop(l));
      case Unlocks(l, id) => LetGo(s, t, id, ReadLoop(l));
      case Hibernates(l, id) => LetGo(s, t, id, ReadLoop(l));
      case ScanLocks(id) => Taken(s, t, id, TheCollector);
      case ScanFrees(id) => LetGo(s, t, id, TheCollector);
      case ScanDestroys(id) =>
        assert Holds(s, id, TheCollector);
        PassedOn(s, t, id, TheCollector, Nobody);
      case _ => Unaffected(s, t);
    }
  }

  lemma TakenKept(s: State, e: Event)
    requires LocksOk(s) && TakenByOne(s) && Enabled(s, e)
    ensures TakenByOne(Apply(s, e))
  {
    var t := Apply(s, e);
    forall id | id in t.sessions && t.sessions[id].lock ensures exists w :: Holds(t, id, w) {
      if id in s.sessions && s.sessions[id].lock {
        var w :| Holds(s, id, w);
        StillHeld(s, e, id, w);
      } else {
        NewlyHeld(s, e, id);
      }
    }
  }

  lemma StillHeld(s: State, e: Event, id: nat, w: Who)
    requires LocksOk(s) && Enabled(s, e) && Holds(s, id, w) && id in Apply(s, e).sessions && Apply(s, e).sessions[id].lock
    ensures exists v :: Holds(Apply(s, e), id, v)
  {
    var t := Apply(s, e);
    if e.Upgraded? && w == Handler(e.h) {
      assert Holds(t, id, ReadLoop(e.l));
    } else if e.ScanDestroys? && w == TheCollector {
      assert Holds(t, id, Nobody);
    } else {
      assert Holds(t, id, w);
    }
  }

  lemma NewlyHeld(s: State, e: Event, id: nat)
    requires Enabled(s, e) && id in Apply(s, e).sessions && Apply(s, e).sessions[id].lock
    requires id in s.sessions ==> !s.sessions[id].lock
    ensures exists v :: Holds(Apply(s, e), id, v)
  {
    var t := Apply(s, e);
    if e.TryLock? {
      assert Holds(t, id, Handler(e.h));
    } else {
      assert Holds(t, id, TheCollector);
    }
  }

  lemma NamesKept(s: State, e: Event)
    requires NamesOk(s) && LocksOk(s) && Enabled(s, e)
    ensures NamesOk(Apply(s, e))
  {
  }

  lemma CmdsKept(s: State, e: Event)
    requires CmdsOk(s) && Enabled(s, e)
    ensures CmdsOk(Apply(s, e))
  {
    var t := Apply(s, e);
    forall c | c in t.cmds ensures exists l :: Serves(t, l, t.cmds[c]) {
      if e.CommandStarts? && c == e.c {
        assert Serves(t, e.l, t.cmds[c]);
      } else {
        var l :| Serves(s, l, s.cmds[c]);
        assert Serves(t, l, t.cmds[c]);
      }
    }
  }

  // ---- The collector's count, from the history ----

  /** How often the collector has found `id` free since it was created or last disconnected. */
  function FreeScans(es: seq<Event>, id: nat): nat {
    if es == [] then 0
    else
      var e, before := es[|es| - 1], FreeScans(es[..|es| - 1], id);
      if e == ScanLocks(id) then before + 1
      else if e == Create(id) || ((e.Unlocks? || e.Hibernates?) && e.id == id) then 0
      else before
  }

  /** Whether `id` was closed by its client. */
  predicate ClosedByClient(es: seq<Event>, id: nat) { exists i :: 0 <= i < |es| && es[i].Deletes? && es[i].id == id }

  ghost predicate CountsOk(s: State, es: seq<Event>) {
    && (forall id :: id in s.registry ==> id in s.sessions && s.sessions[id].inactive == FreeScans(es, id))
    && (forall id :: id in s.registry ==> s.sessions[id].inactive < MAX_INACTIVE || (s.collector == Scanning(id) && s.sessions[id].inactive == MAX_INACTIVE))
    && (forall l :: l in s.loops && s.loops[l].stage.Deleted? ==> s.loops[l].id !in s.registry && s.loops[l].id in s.sessions)
  }

  ghost predicate GoneOk(s: State, es: seq<Event>) {
    forall id :: id in s.sessions && id !in s.registry ==> id in s.destroyed || ClosedByClient(es, id)
  }

  lemma CountsKept(s: State, es: seq<Event>, e: Event)
    requires CountsOk(s, es) && LocksOk(s) && NamesOk(s) && Enabled(s, e)
    ensures CountsOk(Apply(s, e), es + [e])
  {
    assert (es + [e])[..|es|] == es;
  }

  lemma GoneKept(s: State, es: seq<Event>, e: Event)
    requires GoneOk(s, es) && Enabled(s, e)
    ensures GoneOk(Apply(s, e), es + [e])
  {
    var t, fs := Apply(s, e), es + [e];
    forall id | id in t.sessions && id !in t.registry ensures id in t.destroyed || ClosedByClient(fs, id) {
      if e.Deletes? && e.id == id {
        assert fs[|es|] == e;
      } else if ClosedByClient(es, id) {
        var i :| 0 <= i < |es| && es[i].Deletes? && es[i].id == id;
        assert fs[i] == es[i];
      }
    }
  }

  ghost predicate Inv(s: State, es: seq<Event>) {
    LocksOk(s) && TakenByOne(s) && NamesOk(s) && CmdsOk(s) && CountsOk(s, es) && GoneOk(s, es)
  }

  lemma {:induction false} RunKeeps(es: seq<Event>)
    requires IsRun(INIT, es)
    ensures Inv(Exec(INIT, es), es)
    decreases |es|
  {
    if es != [] {
      var fs, e := es[..|es| - 1], es[|es| - 1];
      RunKeeps(fs);
      var s := Exec(INIT, fs);
      assert es == fs + [e];
      LocksKept(s, e);
      TakenKept(s, e);
      NamesKept(s, e);
      CmdsKept(s, e);
      CountsKept(s, fs, e);
      GoneKept(s, fs, e);
    }
  }

  // ---- The theorems, over every run ----

  /** A session has at most one connection, and no handshake is between lock and upgrade meanwhile. */
  lemma OneConnection(es: seq<Event>, l: nat, id: nat)
    requires IsRun(INIT, es) && l in Exec(INIT, es).loops && Exec(INIT, es).loops[l].id == id
    ensures var s := Exec(INIT, es);
      && id in s.sessions && s.sessions[id].lock
      && (forall k :: k in s.loops && s.loops[k].id == id ==> k == l)
      && (forall h :: h in s.handshakes ==> s.handshakes[h] != Locked(id))
      && s.collector != Scanning(id) && id !in s.destroyed
  {
    var s := Exec(INIT, es);
    RunKeeps(es);
    assert Holds(s, id, ReadLoop(l));
    forall k | k in s.loops && s.loops[k].id == id ensures k == l {
      assert Holds(s, id, ReadLoop(k));
    }
    forall h | h in s.handshakes ensures s.handshakes[h] != Locked(id) {
      assert !Holds(s, id, Handler(h));
    }
    assert !Holds(s, id, TheCollector) && !Holds(s, id, Nobody);
  }

  /** While a session's lock is free, none of its commands runs. */
  lemma FreeMeansIdle(es: seq<Event>, id: nat)
    requires IsRun(INIT, es) && id in Exec(INIT, es).sessions && !Exec(INIT, es).sessions[id].lock
    ensures forall c :: c in Exec(INIT, es).cmds ==> Exec(INIT, es).cmds[c] != id
  {
    var s := Exec(INIT, es);
    RunKeeps(es);
    forall c | c in s.cmds ensures s.cmds[c] != id {
      var l :| Serves(s, l, s.cmds[c]);
      assert Holds(s, s.cmds[c], ReadLoop(l));
    }
  }

  /**
   The collector takes a session out of the registry only when five scans in a row have
   found it free since it was created or last disconnected; a session it takes out that
   was no longer registered had been closed by its client.
   */
  lemma DestroyedAfterFiveScans(es: seq<Event>, id: nat)
    requires IsRun(INIT, es) && Enabled(Exec(INIT, es), ScanDestroys(id))
    ensures if id in Exec(INIT, es).registry then FreeScans(es, id) == MAX_INACTIVE else ClosedByClient(es, id)
  {
    var s := Exec(INIT, es);
    RunKeeps(es);
    assert Holds(s, id, TheCollector);
    assert !Holds(s, id, Nobody);
  }

  lemma DestroyedStays(s: State, e: Event)
    requires Enabled(s, e)
    ensures s.destroyed <= Apply(s, e).destroyed
  {
  }

  lemma {:induction false} PrefixRuns(es: seq<Event>, n: nat, id: nat)
    requires IsRun(INIT, es) && n <= |es|
    ensures IsRun(INIT, es[..n])
    ensures id in Exec(INIT, es[..n]).destroyed ==> id in Exec(INIT, es).destroyed
    decreases |es|
  {
    if n == |es| {
      assert es[..n] == es;
    } else {
      var fs := es[..|es| - 1];
      assert fs[..n] == es[..n];
      PrefixRuns(fs, n, id);
      DestroyedStays(Exec(INIT, fs), es[|es| - 1]);
    }
  }

  /** Once the collector has destroyed a session, nothing of it ever runs again. */
  lemma DestroyedForGood(es: seq<Event>, n: nat, id: nat)
    requires IsRun(INIT, es) && n <= |es|
    ensures IsRun(INIT, es[..n])
    ensures id in Exec(INIT, es[..n]).destroyed ==>
      var s := Exec(INIT, es);
      && (forall l :: l in s.loops ==> s.loops[l].id != id)
      && (forall h :: h in s.handshakes ==> s.handshakes[h] != Locked(id))
      && (forall c :: c in s.cmds ==> s.cmds[c] != id)
  {
    PrefixRuns(es, n, id);
    var s := Exec(INIT, es);
    if id in s.destroyed {
      RunKeeps(es);
      assert Holds(s, id, Nobody);
      forall l | l in s.loops ensures s.loops[l].id != id {
        assert !Holds(s, id, ReadLoop(l));
      }
      forall h | h in s.handshakes ensures s.handshakes[h] != Locked(id) {
        assert !Holds(s, id, Handler(h));
      }
      forall c | c in s.cmds ensures s.cmds[c] != id {
        var l :| Serves(s, l, s.cmds[c]);
      }
    }
  }

  // ---- The registry object ----

  predicate Expires(x: Session) { !x.lock && x.inactive + 1 >= MAX_INACTIVE }

  /** What one visit of the collector leaves of a session. */
  function Scanned(x: Session): Session {
    if x.lock then x else Session(Expires(x), x.inactive + 1)
  }

  /** One uninterrupted visit is a run of the collector's steps with that outcome. */
  lemma VisitIsSteps(s: State, id: nat)
    requires s.collector.Resting? && id in s.registry && id in s.sessions
    ensures var x := s.sessions[id];
      var seen := Apply(s, ScanSees(id));
      var t := if x.lock then Apply(seen, ScanSkips(id))
               else var locked := Apply(seen, ScanLocks(id));
                 if Expires(x) then Apply(locked, ScanDestroys(id)) else Apply(locked, ScanFrees(id));
      t == s.(sessions := s.sessions[id := Scanned(x)],
              registry := if Expires(x) then s.registry - {id} else s.registry,
              destroyed := if Expires(x) then s.destroyed + {id} else s.destroyed)
  {
    var x := s.sessions[id];
    assert x.lock ==> s.sessions[id := x] == s.sessions;
    assert !x.lock ==> s.sessions[id := Session(true, x.inactive + 1)][id := Scanned(x)] == s.sessions[id := Scanned(x)];
  }

  datatype Answer = BadRequest | PreconditionFailed | UpgradeFailed | Connected(id: nat)

  class Registry {
    var sessions: map<nat, Session>
    var registry: set<nat>

    ghost predicate Valid() reads this { registry <= sessions.Keys }

    constructor ()
      ensures Valid() && sessions == map[] && registry == {}
    {
      sessions, registry := map[], {};
    }

    /** One pass of CollectInactiveSessions over the registered sessions, in any order. */
    method Scan()
      requires Valid()
      modifies this
      ensures Valid() && sessions.Keys == old(sessions.Keys)
      ensures forall id :: id in sessions ==>
        sessions[id] == if id in old(registry) then Scanned(old(sessions)[id]) else old(sessions)[id]
      ensures registry == set id | id in old(registry) && !Expires(old(sessions)[id])
    {
      var rest := registry;
      while rest != {}
        invariant Valid() && rest <= old(registry) && sessions.Keys == old(sessions.Keys)
        invariant forall id :: id in sessions ==>
          sessions[id] == if id in old(registry) - rest then Scanned(old(sessions)[id]) else old(sessions)[id]
        invariant forall id :: id in registry <==> id in old(registry) && (id in rest || !Expires(old(sessions)[id]))
        decreases |rest|
      {
        var id :| id in rest;
        rest := rest - {id};
        var x := sessions[id];
        if !x.lock {
          sessions := sessions[id := Session(true, x.inactive + 1)];
          if x.inactive + 1 >= MAX_INACTIVE {
            registry := registry - {id};
          } else {
            sessions := sessions[id := Session(false, x.inactive + 1)];
          }
        }
      }
    }

    /** ServeHTTP: find or create the session, take its lock, start the connection. */
    method ServeHTTP(resume: Option<nat>, newId: nat, sameUser: bool, upgrades: bool) returns (answer: Answer)
      requires Valid() && newId !in sessions
      modifies this
      ensures Valid() && registry == old(registry) + (if resume.None? then {newId} else {})
      ensures resume.None? && sameUser ==> answer == if upgrades then Connected(newId) else UpgradeFailed
      ensures resume.Some? ==>
        (answer.BadRequest? <==> resume.value !in old(registry) || !sameUser)
      ensures resume.Some? && !answer.BadRequest? ==>
        (answer.PreconditionFailed? <==> old(sessions)[resume.value].lock)
      ensures answer.Connected? ==> answer.id in sessions && sessions[answer.id].lock
      ensures answer.Connected? && resume.Some? ==>
        answer.id == resume.value && !old(sessions)[answer.id].lock && sessions == old(sessions)[answer.id := old(sessions)[answer.id].(lock := true)]
      ensures !answer.Connected? && resume.Some? ==> sessions == old(sessions)
    {
      var id := newId;
      if resume.Some? {
        id := resume.value;
      } else {
        sessions, registry := sessions[id := Session(false, 0)], registry + {id};
      }
      if id !in registry || !sameUser {
        return BadRequest;
      }
      if sessions[id].lock {
        return PreconditionFailed;
      }
      sessions := sessions[id := sessions[id].(lock := true)];
      if !upgrades {
        sessions := sessions[id := sessions[id].(lock := false)];
        assert resume.Some? ==> sessions == old(sessions);
        return UpgradeFailed;
      }
      return Connected(id);
    }

    /** The end of stopConn, once no command runs any more. */
    method StopConn(id: nat, graceful: bool)
      requires Valid() && id in sessions && sessions[id].lock
      modifies this
      ensures Valid() && registry == if graceful then old(registry) - {id} else old(registry)
      ensures sessions == old(sessions)[id := Session(false, if graceful then old(sessions)[id].inactive else 0)]
    {
      var x := sessions[id];
      if graceful {
        registry := registry - {id};
      } else {
        x := x.(inactive := 0);
      }
      sessions := sessions[id := x.(lock := false)];
    }
  }
}
