/**
 Who owns the server's 32 payload buffers. The read loop takes one from the pool,
 decodes a payload into it, and hands it to a worker or to a stream's queue; the
 payload is never copied, so whoever holds the message reads the buffer itself.
 Steps of the read loop, the workers and the stream goroutines interleave freely, and
 connections come and go.
 */
module FastBuffers {
  import opened Bytes
  import opened Protocol

  const POOL_SIZE := 32

  /** A payload inside buffer `buf`; `data` is what was decoded into it. */
  datatype Msg = Msg(buf: nat, data: nat, isEnd: bool)

  datatype Status = Looping | Returning | Finished

  datatype Goroutine =
    | Worker(job: Option<Msg>)
    | Stream(mark: nat, cur: Option<Msg>, queue: seq<Msg>, closed: bool, ended: bool, status: Status)

  datatype Kind = Write | OpenStream(mark: nat, fdOk: bool) | StreamData(mark: nat, isEnd: bool)

  datatype Reader =
    | Idle
    | Filling(buf: nat, kind: Kind)
    | Filled(msg: Msg, kind: Kind)
    | Handing(g: nat, msg: Msg)
    | Stopping
    | Draining

  datatype State = State(
    pool: seq<nat>,
    mem: seq<nat>,                // what each buffer holds now
    reader: Reader,
    gs: seq<Goroutine>,
    registry: map<nat, nat>)      // open streams by mark

  const INIT := State(seq(POOL_SIZE, i => i), seq(POOL_SIZE, _ => 0), Idle, [], map[])

  datatype Event =
    | Acquire(kind: Kind) | DecodeFails(garbage: nat) | Decodes(data: nat) | Dispatch | Enqueue
    | WorkerDone(g: nat) | StreamTakes(g: nat) | StreamReleases(g: nat) | StreamDrained(g: nat) | Unregister(g: nat)
    | ConnLost | CloseInput(mark: nat) | AllClosed | Reconnect

  predicate IsStream(s: State, g: nat) { g < |s.gs| && s.gs[g].Stream? }

  predicate AtRest(g: Goroutine) { if g.Worker? then g.job.None? else g.status == Finished }

  predicate Enabled(s: State, e: Event) {
    match e
    case Acquire(_) => s.reader.Idle? && s.pool != []
    case DecodeFails(_) => s.reader.Filling?
    case Decodes(_) => s.reader.Filling?
    case Dispatch => s.reader.Filled?
    case Enqueue => s.reader.Handing? && IsStream(s, s.reader.g) && |s.gs[s.reader.g].queue| < QUEUE_SLOTS
    case WorkerDone(g) => g < |s.gs| && s.gs[g].Worker? && s.gs[g].job.Some?
    case StreamTakes(g) => IsStream(s, g) && s.gs[g].status == Looping && s.gs[g].cur.None? && s.gs[g].queue != []
    case StreamReleases(g) => IsStream(s, g) && s.gs[g].status == Looping && s.gs[g].cur.Some?
    case StreamDrained(g) => IsStream(s, g) && s.gs[g].status == Looping && s.gs[g].closed && s.gs[g].cur.None? && s.gs[g].queue == []
    case Unregister(g) => IsStream(s, g) && s.gs[g].status == Returning
    case ConnLost => s.reader.Idle?
    case CloseInput(mark) => s.reader.Stopping? && mark in s.registry && IsStream(s, s.registry[mark])
    case AllClosed => s.reader.Stopping? && s.registry == map[]
    case Reconnect => s.reader.Draining? && forall g :: 0 <= g < |s.gs| ==> AtRest(s.gs[g])
  }

  function Store(mem: seq<nat>, buf: nat, x: nat): seq<nat> { if buf < |mem| then mem[buf := x] else mem }

  /** releaseFastBuffer. */
  function Release(s: State, buf: nat): State { s.(pool := s.pool + [buf]) }

  function Dispatched(s: State, m: Msg, kind: Kind): State {
    match kind
    case Write => s.(reader := Idle, gs := s.gs + [Worker(Some(m))])
    case OpenStream(mark, fdOk) =>
      if !fdOk || mark in s.registry then Release(s, m.buf).(reader := Idle)
      else
        s.(reader := Handing(|s.gs|, m.(isEnd := false)), registry := s.registry[mark := |s.gs|],
           gs := s.gs + [Stream(mark, None, [], false, false, Looping)])
    case StreamData(mark, isEnd) =>
      if mark !in s.registry then Release(s, m.buf).(reader := Idle)
      else s.(reader := Handing(s.registry[mark], m.(isEnd := isEnd)))
  }

  function Apply(s: State, e: Event): State
    requires Enabled(s, e)
  {
    match e
    case Acquire(kind) => s.(pool := s.pool[1..], reader := Filling(s.pool[0], kind))
    case DecodeFails(garbage) => Release(s, s.reader.buf).(mem := Store(s.mem, s.reader.buf, garbage), reader := Idle)
    case Decodes(data) => s.(mem := Store(s.mem, s.reader.buf, data), reader := Filled(Msg(s.reader.buf, data, false), s.reader.kind))
    case Dispatch => Dispatched(s, s.reader.msg, s.reader.kind)
    case Enqueue =>
      var m, st := s.reader.msg, s.gs[s.reader.g];
      s.(reader := Idle, gs := s.gs[s.reader.g := st.(queue := st.queue + [m], ended := st.ended || m.isEnd)])
    case WorkerDone(g) => Release(s, s.gs[g].job.value.buf).(gs := s.gs[g := Worker(None)])
    case StreamTakes(g) => s.(gs := s.gs[g := s.gs[g].(cur := Some(s.gs[g].queue[0]), queue := s.gs[g].queue[1..])])
    case StreamReleases(g) =>
      var m := s.gs[g].cur.value;
      Release(s, m.buf).(gs := s.gs[g := s.gs[g].(cur := None, status := if m.isEnd then Returning else s.gs[g].status)])
    case StreamDrained(g) => s.(gs := s.gs[g := s.gs[g].(status := Returning)])
    case Unregister(g) => s.(registry := s.registry - {s.gs[g].mark}, gs := s.gs[g := s.gs[g].(status := Finished)])
    case ConnLost => s.(reader := Stopping)
    case CloseInput(mark) => s.(registry := s.registry - {mark}, gs := s.gs[s.registry[mark] := s.gs[s.registry[mark]].(closed := true)])
    case AllClosed => s.(reader := Draining)
    case Reconnect => s.(reader := Idle)
  }

  predicate IsRun(s: State, es: seq<Event>)
    decreases |es|
  {
    es == [] || (Enabled(s, es[0]) && IsRun(Apply(s, es[0]), es[1..]))
  }

  function Exec(s: State, es: seq<Event>): State
    requires IsRun(s, es)
    decreases |es|
  {
    if es == [] then s else Exec(Apply(s, es[0]), es[1..])
  }

  // ---- Who holds what ----

  function Held(g: Goroutine): seq<Msg> {
    match g
    case Worker(job) => if job.Some? then [job.value] else []
    case Stream(_, cur, queue, _, _, _) => (if cur.Some? then [cur.value] else []) + queue
  }

  function InHand(r: Reader): seq<Msg> {
    match r
    case Filling(b, _) => [Msg(b, 0, false)]
    case Filled(m, _) => [m]
    case Handing(_, m) => [m]
    case _ => []
  }

  /** How often buffer `b` occurs. */
  function Count(ms: seq<Msg>, b: nat): nat {
    if ms == [] then 0 else (if ms[0].buf == b then 1 else 0) + Count(ms[1..], b)
  }

  function CountAll(gs: seq<Goroutine>, b: nat): nat {
    if gs == [] then 0 else Count(Held(gs[0]), b) + CountAll(gs[1..], b)
  }

  function Pooled(pool: seq<nat>, b: nat): nat { multiset(pool)[b] }

  function Owners(s: State, b: nat): nat {
    Pooled(s.pool, b) + Count(InHand(s.reader), b) + CountAll(s.gs, b)
  }

  lemma {:induction false} CountAppend(xs: seq<Msg>, ys: seq<Msg>, b: nat)
    ensures Count(xs + ys, b) == Count(xs, b) + Count(ys, b)
  {
    if xs == [] {
      assert xs + ys == ys;
    } else {
      assert (xs + ys)[1..] == xs[1..] + ys;
      CountAppend(xs[1..], ys, b);
    }
  }

  lemma {:induction false} CountAllAppend(gs: seq<Goroutine>, g: Goroutine, b: nat)
    ensures CountAll(gs + [g], b) == CountAll(gs, b) + Count(Held(g), b)
  {
    if gs == [] {
      assert gs + [g] == [g] && [g][1..] == [];
    } else {
      assert (gs + [g])[1..] == gs[1..] + [g];
      CountAllAppend(gs[1..], g, b);
    }
  }

  lemma {:induction false} CountAllUpdate(gs: seq<Goroutine>, k: nat, g: Goroutine, b: nat)
    requires k < |gs|
    ensures CountAll(gs[k := g], b) == CountAll(gs, b) - Count(Held(gs[k]), b) + Count(Held(g), b)
    ensures CountAll(gs, b) >= Count(Held(gs[k]), b)
  {
    var hs := gs[k := g];
    if k > 0 {
      assert hs[0] == gs[0] && hs[1..] == gs[1..][k - 1 := g] && gs[1..][k - 1] == gs[k];
      CountAllUpdate(gs[1..], k - 1, g, b);
    } else {
      assert hs[0] == g && hs[1..] == gs[1..];
    }
  }

  lemma PooledAppend(pool: seq<nat>, x: nat, b: nat)
    ensures Pooled(pool + [x], b) == Pooled(pool, b) + if x == b then 1 else 0
  {
  }

  lemma PooledFirst(pool: seq<nat>, b: nat)
    requires pool != []
    ensures Pooled(pool, b) == Pooled(pool[1..], b) + if pool[0] == b then 1 else 0
  {
    assert pool == [pool[0]] + pool[1..];
  }

  lemma CountOne(m: Msg, b: nat)
    ensures Count([m], b) == if m.buf == b then 1 else 0
  {
    assert [m][1..] == [];
  }

  // ---- No step loses or duplicates a buffer ----

  lemma ReaderSteps(s: State, e: Event, b: nat)
    requires Enabled(s, e) && (e.Acquire? || e.DecodeFails? || e.Decodes? || e.ConnLost? || e.AllClosed? || e.Reconnect?)
    ensures Owners(Apply(s, e), b) == Owners(s, b)
  {
    var t := Apply(s, e);
    match e {
      case Acquire(kind) =>
        PooledFirst(s.pool, b);
        CountOne(Msg(s.pool[0], 0, false), b);
      case DecodeFails(_) =>
        PooledAppend(s.pool, s.reader.buf, b);
        CountOne(Msg(s.reader.buf, 0, false), b);
      case Decodes(data) =>
        CountOne(Msg(s.reader.buf, 0, false), b);
        CountOne(Msg(s.reader.buf, data, false), b);
      case _ =>
    }
  }

  lemma RefusedStep(s: State, m: Msg, b: nat)
    ensures Pooled(s.pool + [m.buf], b) == Pooled(s.pool, b) + Count([m], b)
  {
    PooledAppend(s.pool, m.buf, b);
    CountOne(m, b);
  }

  lemma SameBuf(m: Msg, n: Msg, b: nat)
    requires m.buf == n.buf
    ensures Count([m], b) == Count([n], b)
  {
    CountOne(m, b);
    CountOne(n, b);
  }

  lemma DispatchOpen(s: State, m: Msg, mark: nat, b: nat)
    ensures Count([m.(isEnd := false)], b) == Count([m], b)
    ensures CountAll(s.gs + [Stream(mark, None, [], false, false, Looping)], b) == CountAll(s.gs, b)
  {
    SameBuf(m, m.(isEnd := false), b);
    var st := Stream(mark, None, [], false, false, Looping);
    CountAllAppend(s.gs, st, b);
    assert Held(st) == [];
  }

  lemma DispatchStep(s: State, b: nat)
    requires Enabled(s, Dispatch)
    ensures Owners(Apply(s, Dispatch), b) == Owners(s, b)
  {
    var m := s.reader.msg;
    match s.reader.kind {
      case Write =>
        CountAllAppend(s.gs, Worker(Some(m)), b);
      case OpenStream(mark, fdOk) =>
        RefusedStep(s, m, b);
        DispatchOpen(s, m, mark, b);
      case StreamData(mark, isEnd) =>
        RefusedStep(s, m, b);
        SameBuf(m, m.(isEnd := isEnd), b);
    }
  }

  lemma EnqueueStep(s: State, b: nat)
    requires Enabled(s, Enqueue)
    ensures Owners(Apply(s, Enqueue), b) == Owners(s, b)
  {
    var g, m := s.reader.g, s.reader.msg;
    var before, after := s.gs[g], Apply(s, Enqueue).gs[g];
    CountOne(m, b);
    CountAppend(Held(before), [m], b);
    assert Held(after) == Held(before) + [m];
    CountAllUpdate(s.gs, g, after, b);
  }

  lemma ReleaseStep(s: State, t: State, g: nat, m: Msg, b: nat)
    requires g < |s.gs| == |t.gs| && t.gs == s.gs[g := t.gs[g]] && Held(s.gs[g]) == [m] + Held(t.gs[g])
    requires t.pool == s.pool + [m.buf] && t.reader == s.reader
    ensures Owners(t, b) == Owners(s, b)
  {
    RefusedStep(s, m, b);
    CountAppend([m], Held(t.gs[g]), b);
    CountAllUpdate(s.gs, g, t.gs[g], b);
  }

  lemma SameHeldStep(s: State, t: State, g: nat, b: nat)
    requires g < |s.gs| == |t.gs| && t.gs == s.gs[g := t.gs[g]] && Held(s.gs[g]) == Held(t.gs[g])
    requires t.pool == s.pool && t.reader == s.reader
    ensures Owners(t, b) == Owners(s, b)
  {
    CountAllUpdate(s.gs, g, t.gs[g], b);
  }

  lemma GoroutineReleases(s: State, e: Event, b: nat)
    requires Enabled(s, e) && (e.WorkerDone? || e.StreamReleases?)
    ensures Owners(Apply(s, e), b) == Owners(s, b)
  {
    var t, g := Apply(s, e), e.g;
    var m := if e.WorkerDone? then s.gs[g].job.value else s.gs[g].cur.value;
    assert Held(s.gs[g]) == [m] + Held(t.gs[g]);
    ReleaseStep(s, t, g, m, b);
  }

  lemma GoroutineMoves(s: State, e: Event, b: nat)
    requires Enabled(s, e) && (e.StreamTakes? || e.StreamDrained? || e.Unregister? || e.CloseInput?)
    ensures Owners(Apply(s, e), b) == Owners(s, b)
  {
    var t, g := Apply(s, e), if e.CloseInput? then s.registry[e.mark] else e.g;
    assert Held(s.gs[g]) == Held(t.gs[g]);
    SameHeldStep(s, t, g, b);
  }

  /** Every step moves buffers between owners and does nothing else to them. */
  lemma OwnersKept(s: State, e: Event, b: nat)
    requires Enabled(s, e)
    ensures Owners(Apply(s, e), b) == Owners(s, b)
  {
    match e {
      case Dispatch => DispatchStep(s, b);
      case Enqueue => EnqueueStep(s, b);
      case Acquire(_) => ReaderSteps(s, e, b);
      case DecodeFails(_) => ReaderSteps(s, e, b);
      case Decodes(_) => ReaderSteps(s, e, b);
      case ConnLost => ReaderSteps(s, e, b);
      case AllClosed => ReaderSteps(s, e, b);
      case Reconnect => ReaderSteps(s, e, b);
      case WorkerDone(_) => GoroutineReleases(s, e, b);
      case StreamReleases(_) => GoroutineReleases(s, e, b);
      case _ => GoroutineMoves(s, e, b);
    }
  }

  // ---- Nobody's pending payload is overwritten ----

  predicate MsgOk(mem: seq<nat>, m: Msg) { m.buf < |mem| && mem[m.buf] == m.data }

  predicate AllOk(mem: seq<nat>, ms: seq<Msg>) { forall i :: 0 <= i < |ms| ==> MsgOk(mem, ms[i]) }

  ghost predicate PayloadsOk(s: State) {
    && (s.reader.Filled? || s.reader.Handing? ==> MsgOk(s.mem, s.reader.msg))
    && forall g :: 0 <= g < |s.gs| ==> AllOk(s.mem, Held(s.gs[g]))
  }

  ghost predicate OneOwner(s: State) {
    |s.mem| == POOL_SIZE && forall b: nat :: Owners(s, b) == if b < POOL_SIZE then 1 else 0
  }

  lemma {:induction false} Absent(ms: seq<Msg>, b: nat, i: nat)
    requires Count(ms, b) == 0 && i < |ms|
    ensures ms[i].buf != b
  {
    if i > 0 { Absent(ms[1..], b, i - 1); }
  }

  /** A buffer being filled is one of the 32. */
  lemma FillingInRange(s: State)
    requires OneOwner(s) && s.reader.Filling?
    ensures s.reader.buf < |s.mem|
  {
    var b := s.reader.buf;
    CountOne(Msg(b, 0, false), b);
    assert Owners(s, b) > 0;
  }

  lemma StoreKeeps(mem: seq<nat>, ms: seq<Msg>, b: nat, x: nat)
    requires AllOk(mem, ms) && Count(ms, b) == 0
    ensures AllOk(Store(mem, b, x), ms)
  {
    forall i | 0 <= i < |ms| ensures MsgOk(Store(mem, b, x), ms[i]) {
      Absent(ms, b, i);
    }
  }

  lemma NotHeldTwice(s: State, g: nat)
    requires OneOwner(s) && s.reader.Filling? && g < |s.gs|
    ensures Count(Held(s.gs[g]), s.reader.buf) == 0
  {
    var b := s.reader.buf;
    CountOne(Msg(b, 0, false), b);
    CountAllUpdate(s.gs, g, s.gs[g], b);
    assert Owners(s, b) <= 1;
  }

  /** While the decoder fills a buffer, no goroutine holds it. */
  lemma FillingAlone(s: State, g: nat, x: nat)
    requires OneOwner(s) && s.reader.Filling? && g < |s.gs| && AllOk(s.mem, Held(s.gs[g]))
    ensures AllOk(Store(s.mem, s.reader.buf, x), Held(s.gs[g]))
  {
    NotHeldTwice(s, g);
    StoreKeeps(s.mem, Held(s.gs[g]), s.reader.buf, x);
  }

  lemma PayloadsKept(s: State, e: Event)
    requires OneOwner(s) && PayloadsOk(s) && Enabled(s, e)
    ensures PayloadsOk(Apply(s, e))
  {
    var t := Apply(s, e);
    if s.reader.Filling? { FillingInRange(s); }
    forall g | 0 <= g < |t.gs| ensures AllOk(t.mem, Held(t.gs[g])) {
      if e.Decodes? || e.DecodeFails? {
        FillingAlone(s, g, if e.Decodes? then e.data else e.garbage);
      } else if g < |s.gs| {
        assert AllOk(s.mem, Held(s.gs[g]));
        GoroutineKept(s, e, g);
      } else {
        assert Held(t.gs[g]) == [] || Held(t.gs[g]) == [s.reader.msg];
      }
    }
  }

  /** What a goroutine holds grows by the message handed over, shrinks by the one released, or stays. */
  lemma HeldAfter(s: State, e: Event, g: nat)
    requires Enabled(s, e) && g < |s.gs|
    ensures var t := Apply(s, e);
      && g < |t.gs|
      && var before, after := Held(s.gs[g]), Held(t.gs[g]);
        || after == before
        || (e.Enqueue? && after == before + [s.reader.msg])
        || (before != [] && after == before[1..])
  {
    var t := Apply(s, e);
    var before, after := Held(s.gs[g]), Held(t.gs[g]);
    if e.Enqueue? && g == s.reader.g {
      assert after == before + [s.reader.msg];
    } else if (e.StreamReleases? || e.WorkerDone?) && e.g == g {
      assert before != [] && after == before[1..];
    } else if e.StreamTakes? && e.g == g {
      assert after == before;
    }
  }

  lemma GoroutineKept(s: State, e: Event, g: nat)
    requires Enabled(s, e) && Apply(s, e).mem == s.mem && g < |s.gs| && AllOk(s.mem, Held(s.gs[g]))
    requires s.reader.Handing? ==> MsgOk(s.mem, s.reader.msg)
    ensures g < |Apply(s, e).gs| && AllOk(s.mem, Held(Apply(s, e).gs[g]))
  {
    HeldAfter(s, e, g);
  }

  // ---- The stream registry ----

  predicate Unfinished(s: State, g: nat) { IsStream(s, g) && s.gs[g].status != Finished }

  ghost predicate RegistryOk(s: State) {
    && (forall mark :: mark in s.registry ==>
          Unfinished(s, s.registry[mark]) && s.gs[s.registry[mark]].mark == mark && !s.gs[s.registry[mark]].closed)
    && (forall g: nat :: Unfinished(s, g) && !s.gs[g].closed ==> s.gs[g].mark in s.registry && s.registry[s.gs[g].mark] == g)
  }

  /** Inputs are closed only while a connection is being taken down, and marks do not clash meanwhile. */
  ghost predicate ClosedOk(s: State) {
    && (forall g: nat :: Unfinished(s, g) && s.gs[g].closed ==>
          (s.reader.Stopping? || s.reader.Draining?) && s.gs[g].mark !in s.registry)
    && (s.reader.Handing? ==> IsStream(s, s.reader.g) && !s.gs[s.reader.g].closed)
    && (s.reader.Draining? ==> s.registry == map[])
  }

  /** Steps that change no stream's mark, input or registration. */
  lemma RegistryUnchanged(s: State, t: State)
    requires RegistryOk(s) && ClosedOk(s) && t.registry == s.registry && |t.gs| >= |s.gs|
    requires forall g: nat :: g < |s.gs| ==> SameStream(s.gs[g], t.gs[g])
    requires forall g: nat :: |s.gs| <= g < |t.gs| ==> t.gs[g].Worker?
    requires s.reader.Stopping? || s.reader.Draining? ==> t.reader.Stopping? || t.reader.Draining?
    requires t.reader.Draining? ==> t.registry == map[]
    requires t.reader.Handing? ==> IsStream(t, t.reader.g) && !t.gs[t.reader.g].closed
    ensures RegistryOk(t) && ClosedOk(t)
  {
    assert forall g: nat :: Unfinished(t, g) <==> Unfinished(s, g);
  }

  predicate SameStream(a: Goroutine, b: Goroutine) {
    && (a.Stream? <==> b.Stream?)
    && (a.Stream? ==> a.mark == b.mark && a.closed == b.closed && (a.status == Finished <==> b.status == Finished))
  }

  lemma OpenRegistry(s: State, mark: nat)
    requires RegistryOk(s) && ClosedOk(s) && s.reader.Filled? && s.reader.kind == OpenStream(mark, true) && mark !in s.registry
    ensures RegistryOk(Apply(s, Dispatch)) && ClosedOk(Apply(s, Dispatch))
  {
    var t := Apply(s, Dispatch);
    assert forall g: nat :: g < |s.gs| ==> t.gs[g] == s.gs[g];
    assert forall g: nat :: Unfinished(t, g) <==> g == |s.gs| || Unfinished(s, g);
  }

  lemma UnregisterKeeps(s: State, g: nat)
    requires RegistryOk(s) && ClosedOk(s) && Enabled(s, Unregister(g))
    ensures RegistryOk(Apply(s, Unregister(g))) && ClosedOk(Apply(s, Unregister(g)))
  {
    var t := Apply(s, Unregister(g));
    assert forall k: nat :: Unfinished(t, k) <==> k != g && Unfinished(s, k);
    assert forall k: nat :: k < |s.gs| && k != g ==> t.gs[k] == s.gs[k];
    assert Unfinished(s, g);
  }

  lemma CloseInputKeeps(s: State, mark: nat)
    requires RegistryOk(s) && ClosedOk(s) && Enabled(s, CloseInput(mark))
    ensures RegistryOk(Apply(s, CloseInput(mark))) && ClosedOk(Apply(s, CloseInput(mark)))
  {
    var t, g := Apply(s, CloseInput(mark)), s.registry[mark];
    assert forall k: nat :: Unfinished(t, k) <==> Unfinished(s, k);
    assert forall k: nat :: k < |s.gs| && k != g ==> t.gs[k] == s.gs[k];
  }

  lemma ReconnectKeeps(s: State)
    requires RegistryOk(s) && ClosedOk(s) && Enabled(s, Reconnect)
    ensures RegistryOk(Apply(s, Reconnect)) && ClosedOk(Apply(s, Reconnect))
  {
    var t := Apply(s, Reconnect);
    forall g: nat ensures !Unfinished(t, g) {
      assert g < |s.gs| ==> AtRest(s.gs[g]);
    }
  }

  lemma DispatchRegistry(s: State)
    requires RegistryOk(s) && ClosedOk(s) && Enabled(s, Dispatch)
    ensures RegistryOk(Apply(s, Dispatch)) && ClosedOk(Apply(s, Dispatch))
  {
    if s.reader.kind.OpenStream? && s.reader.kind.fdOk && s.reader.kind.mark !in s.registry {
      OpenRegistry(s, s.reader.kind.mark);
    } else {
      RegistryUnchanged(s, Apply(s, Dispatch));
    }
  }

  lemma RegistryKept(s: State, e: Event)
    requires RegistryOk(s) && ClosedOk(s) && Enabled(s, e)
    ensures RegistryOk(Apply(s, e)) && ClosedOk(Apply(s, e))
  {
    match e {
      case Unregister(g) => UnregisterKeeps(s, g);
      case CloseInput(mark) => CloseInputKeeps(s, mark);
      case Reconnect => ReconnectKeeps(s);
      case Dispatch => DispatchRegistry(s);
      case _ => RegistryUnchanged(s, Apply(s, e));
    }
  }

  // ---- The theorems, over every run ----

  ghost predicate Inv(s: State) { OneOwner(s) && PayloadsOk(s) && RegistryOk(s) && ClosedOk(s) }

  lemma Initially()
    ensures Inv(INIT)
  {
    forall b: nat ensures Owners(INIT, b) == if b < POOL_SIZE then 1 else 0 {
      InitPool(POOL_SIZE, b);
    }
  }

  lemma {:induction false} InitPool(n: nat, b: nat)
    ensures Pooled(seq(n, i => i), b) == if b < n then 1 else 0
  {
    if n > 0 {
      InitPool(n - 1, b);
      assert seq(n, i => i) == seq(n - 1, i => i) + [n - 1];
    }
  }

  lemma {:induction false} RunKeeps(s: State, es: seq<Event>)
    requires Inv(s) && IsRun(s, es)
    ensures Inv(Exec(s, es))
    decreases |es|
  {
    if es != [] {
      var t := Apply(s, es[0]);
      forall b: nat ensures Owners(t, b) == if b < POOL_SIZE then 1 else 0 {
        OwnersKept(s, es[0], b);
      }
      PayloadsKept(s, es[0]);
      RegistryKept(s, es[0]);
      RunKeeps(t, es[1..]);
    }
  }

  lemma {:induction false} ShortPool(pool: seq<nat>, n: nat)
    requires forall b: nat :: Pooled(pool, b) <= if b < n then 1 else 0
    ensures |pool| <= n
    decreases n
  {
    if pool != [] {
      var top := n - 1;
      assert pool[0] in pool && Pooled(pool, pool[0]) > 0;
      if top in pool {
        var k :| 0 <= k < |pool| && pool[k] == top;
        var rest := pool[..k] + pool[k + 1..];
        assert pool == pool[..k] + [top] + pool[k + 1..];
        forall b: nat ensures Pooled(rest, b) <= if b < top then 1 else 0 {
          assert Pooled(pool, b) == Pooled(rest, b) + if b == top then 1 else 0;
        }
        ShortPool(rest, top);
      } else {
        ShortPool(pool, top);
      }
    }
  }

  /**
   In every reachable state each buffer has exactly one owner, what is still to be used is
   still in its buffer, and a buffer is never sent to a closed stream.
   */
  lemma EveryRun(es: seq<Event>)
    requires IsRun(INIT, es)
    ensures var s := Exec(INIT, es);
      && OneOwner(s) && PayloadsOk(s) && |s.pool| <= POOL_SIZE
      && (s.reader.Handing? ==> IsStream(s, s.reader.g) && !s.gs[s.reader.g].closed)
  {
    var s := Exec(INIT, es);
    Initially();
    RunKeeps(INIT, es);
    forall b: nat ensures Pooled(s.pool, b) <= if b < POOL_SIZE then 1 else 0 {
      assert Owners(s, b) == if b < POOL_SIZE then 1 else 0;
    }
    ShortPool(s.pool, POOL_SIZE);
  }

  /** Returning a buffer never blocks: whoever holds it, the pool has room. */
  lemma ReleaseHasRoom(es: seq<Event>, e: Event)
    requires IsRun(INIT, es) && Enabled(Exec(INIT, es), e)
    ensures |Apply(Exec(INIT, es), e).pool| <= POOL_SIZE
  {
    RunSnoc(INIT, es, e);
    EveryRun(es + [e]);
  }

  lemma {:induction false} RunSnoc(s: State, es: seq<Event>, e: Event)
    requires IsRun(s, es) && Enabled(Exec(s, es), e)
    ensures IsRun(s, es + [e]) && Exec(s, es + [e]) == Apply(Exec(s, es), e)
    decreases |es|
  {
    if es == [] {
      assert [] + [e] == [e] && [e][1..] == [];
    } else {
      RunSnoc(Apply(s, es[0]), es[1..], e);
      assert (es + [e])[1..] == es[1..] + [e];
    }
  }

  /** A stream's goroutine, on its way out, drops its own registration or none. */
  lemma UnregistersItself(es: seq<Event>, g: nat)
    requires IsRun(INIT, es) && Enabled(Exec(INIT, es), Unregister(g))
    ensures var s := Exec(INIT, es); s.gs[g].mark in s.registry ==> s.registry[s.gs[g].mark] == g
  {
    Initially();
    RunKeeps(INIT, es);
    assert Unfinished(Exec(INIT, es), g);
  }

  // ---- When all 32 come back ----

  /** Nothing is queued on a stream behind its end message. */
  predicate Conforms(s: State, e: Event) {
    e.Enqueue? && Enabled(s, e) ==> !s.gs[s.reader.g].ended
  }

  predicate ConformingRun(s: State, es: seq<Event>)
    requires IsRun(s, es)
    decreases |es|
  {
    es == [] || (Conforms(s, es[0]) && ConformingRun(Apply(s, es[0]), es[1..]))
  }

  /** The end message is the last one a looping stream holds; one that has left its loop holds none. */
  predicate TailFits(ms: seq<Msg>, looping: bool, ended: bool, closed: bool) {
    && (!looping ==> ms == [] && (ended || closed))
    && (looping && ended ==> ms != [] && ms[|ms| - 1].isEnd)
    && (forall i :: 0 <= i < |ms| && ms[i].isEnd ==> ended && i == |ms| - 1)
  }

  predicate TailOk(g: Goroutine) {
    g.Stream? ==> TailFits(Held(g), g.status == Looping, g.ended, g.closed)
  }

  ghost predicate TailsOk(s: State) { forall g :: 0 <= g < |s.gs| ==> TailOk(s.gs[g]) }

  lemma TailGrows(ms: seq<Msg>, m: Msg)
    requires TailFits(ms, true, false, false)
    ensures TailFits(ms + [m], true, m.isEnd, false)
  {
  }

  lemma TailShrinks(ms: seq<Msg>, ended: bool, closed: bool)
    requires ms != [] && TailFits(ms, true, ended, closed)
    ensures TailFits(ms[1..], !ms[0].isEnd, ended, closed)
  {
  }

  /** Only goroutine `g` has changed. */
  lemma TailFrame(s: State, t: State, g: nat)
    requires TailsOk(s) && g < |s.gs| == |t.gs| && t.gs == s.gs[g := t.gs[g]] && TailOk(t.gs[g])
    ensures TailsOk(t)
  {
  }

  lemma EnqueueTail(s: State)
    requires TailsOk(s) && ClosedOk(s) && Enabled(s, Enqueue) && Conforms(s, Enqueue)
    ensures TailsOk(Apply(s, Enqueue))
  {
    var t, g := Apply(s, Enqueue), s.reader.g;
    assert TailOk(s.gs[g]);
    TailGrows(Held(s.gs[g]), s.reader.msg);
    assert Held(t.gs[g]) == Held(s.gs[g]) + [s.reader.msg];
    TailFrame(s, t, g);
  }

  lemma ReleaseTail(s: State, g: nat)
    requires TailsOk(s) && Enabled(s, StreamReleases(g))
    ensures TailsOk(Apply(s, StreamReleases(g)))
  {
    var t := Apply(s, StreamReleases(g));
    assert TailOk(s.gs[g]);
    TailShrinks(Held(s.gs[g]), s.gs[g].ended, s.gs[g].closed);
    assert Held(t.gs[g]) == Held(s.gs[g])[1..];
    TailFrame(s, t, g);
  }

  lemma StreamTails(s: State, e: Event)
    requires TailsOk(s) && Enabled(s, e)
    requires e.StreamTakes? || e.StreamDrained? || e.Unregister? || e.CloseInput? || e.WorkerDone?
    ensures TailsOk(Apply(s, e))
  {
    var t := Apply(s, e);
    match e {
      case StreamTakes(g) => TailSame(s, t, g);
      case StreamDrained(g) => TailSame(s, t, g);
      case Unregister(g) => TailSame(s, t, g);
      case CloseInput(mark) => TailSame(s, t, s.registry[mark]);
      case WorkerDone(g) => TailFrame(s, t, g);
    }
  }

  lemma TailsKept(s: State, e: Event)
    requires TailsOk(s) && ClosedOk(s) && Enabled(s, e) && Conforms(s, e)
    ensures TailsOk(Apply(s, e))
  {
    if e.Enqueue? {
      EnqueueTail(s);
    } else if e.StreamReleases? {
      ReleaseTail(s, e.g);
    } else if e.StreamTakes? || e.StreamDrained? || e.Unregister? || e.CloseInput? || e.WorkerDone? {
      StreamTails(s, e);
    } else if e.Dispatch? {
      DispatchTails(s);
    } else {
      assert Apply(s, e).gs == s.gs;
    }
  }

  lemma DispatchTails(s: State)
    requires TailsOk(s) && Enabled(s, Dispatch)
    ensures TailsOk(Apply(s, Dispatch))
  {
    var t := Apply(s, Dispatch);
    if |t.gs| > |s.gs| {
      assert t.gs == s.gs + [t.gs[|s.gs|]];
      assert t.gs[|s.gs|].Stream? ==> Held(t.gs[|s.gs|]) == [];
      assert TailOk(t.gs[|s.gs|]);
    }
  }

  lemma TailSame(s: State, t: State, g: nat)
    requires TailsOk(s) && g < |s.gs| == |t.gs| && t.gs == s.gs[g := t.gs[g]] && s.gs[g].Stream? && t.gs[g].Stream?
    requires Held(t.gs[g]) == Held(s.gs[g]) && t.gs[g].ended == s.gs[g].ended && (s.gs[g].closed ==> t.gs[g].closed)
    requires t.gs[g].status == Looping ==> s.gs[g].status == Looping
    requires t.gs[g].status != Looping ==> s.gs[g].status != Looping || (Held(s.gs[g]) == [] && s.gs[g].closed)
    ensures TailsOk(t)
  {
    assert TailOk(s.gs[g]);
    TailFrame(s, t, g);
  }

  lemma {:induction false} RunTails(s: State, es: seq<Event>)
    requires Inv(s) && TailsOk(s) && IsRun(s, es) && ConformingRun(s, es)
    ensures TailsOk(Exec(s, es))
    decreases |es|
  {
    if es != [] {
      TailsKept(s, es[0]);
      RunKeeps(s, [es[0]]);
      assert Exec(s, [es[0]]) == Apply(s, es[0]) by { assert [es[0]][1..] == []; }
      RunTails(Apply(s, es[0]), es[1..]);
    }
  }

  lemma {:induction false} RestHoldsNothing(gs: seq<Goroutine>, b: nat)
    requires forall g :: 0 <= g < |gs| ==> AtRest(gs[g]) && TailOk(gs[g])
    ensures CountAll(gs, b) == 0
  {
    if gs != [] {
      assert AtRest(gs[0]) && TailOk(gs[0]);
      assert Held(gs[0]) == [];
      RestHoldsNothing(gs[1..], b);
    }
  }

  predicate BehindEnd(ms: seq<Msg>) { exists i :: 0 <= i < |ms| - 1 && ms[i].isEnd }

  /** A message behind the end mark: nobody will ever take it. */
  predicate Lost(g: Goroutine) {
    g.Stream? && if g.status == Looping then BehindEnd(Held(g)) else Held(g) != []
  }

  lemma BehindEndGrows(ms: seq<Msg>, m: Msg)
    requires BehindEnd(ms) || (ms != [] && ms[|ms| - 1].isEnd)
    ensures BehindEnd(ms + [m])
  {
    var i :| 0 <= i < |ms| && ms[i].isEnd;
    assert (ms + [m])[i].isEnd;
  }

  lemma BehindEndShrinks(ms: seq<Msg>)
    requires BehindEnd(ms)
    ensures ms[1..] != [] && (!ms[0].isEnd ==> BehindEnd(ms[1..]))
  {
    var i :| 0 <= i < |ms| - 1 && ms[i].isEnd;
    if i > 0 { assert ms[1..][i - 1].isEnd; }
  }

  lemma EnqueueLoses(s: State)
    requires TailsOk(s) && Enabled(s, Enqueue) && !Conforms(s, Enqueue)
    ensures Lost(Apply(s, Enqueue).gs[s.reader.g])
  {
    var g := s.reader.g;
    assert TailOk(s.gs[g]);
    assert Held(Apply(s, Enqueue).gs[g]) == Held(s.gs[g]) + [s.reader.msg];
    if s.gs[g].status == Looping {
      BehindEndGrows(Held(s.gs[g]), s.reader.msg);
    }
  }

  lemma EnqueueStaysLost(s: State)
    requires Enabled(s, Enqueue) && Lost(s.gs[s.reader.g])
    ensures Lost(Apply(s, Enqueue).gs[s.reader.g])
  {
    var g := s.reader.g;
    assert Held(Apply(s, Enqueue).gs[g]) == Held(s.gs[g]) + [s.reader.msg];
    if s.gs[g].status == Looping {
      BehindEndGrows(Held(s.gs[g]), s.reader.msg);
    }
  }

  lemma ReleaseStaysLost(s: State, g: nat)
    requires Enabled(s, StreamReleases(g)) && Lost(s.gs[g])
    ensures Lost(Apply(s, StreamReleases(g)).gs[g])
  {
    assert Held(Apply(s, StreamReleases(g)).gs[g]) == Held(s.gs[g])[1..];
    BehindEndShrinks(Held(s.gs[g]));
  }

  lemma LostStays(s: State, e: Event, g: nat)
    requires Enabled(s, e) && g < |s.gs| && Lost(s.gs[g])
    ensures g < |Apply(s, e).gs| && Lost(Apply(s, e).gs[g])
  {
    if e.Enqueue? && s.reader.g == g {
      EnqueueStaysLost(s);
    } else if e.StreamReleases? && e.g == g {
      ReleaseStaysLost(s, g);
    } else {
      OthersStayLost(s, e, g);
    }
  }

  lemma OthersStayLost(s: State, e: Event, g: nat)
    requires Enabled(s, e) && g < |s.gs| && Lost(s.gs[g])
    requires !(e.Enqueue? && s.reader.g == g) && !(e.StreamReleases? && e.g == g)
    ensures g < |Apply(s, e).gs| && Lost(Apply(s, e).gs[g])
  {
    var a, b := s.gs[g], Apply(s, e).gs[g];
    if (e.StreamTakes? || e.Unregister?) && e.g == g {
      assert Held(b) == Held(a);
    } else if e.CloseInput? && s.registry[e.mark] == g {
      assert Held(b) == Held(a) && b.status == a.status;
    } else if e.StreamDrained? && e.g == g {
      assert false;
    } else {
      assert b == a;
    }
  }

  lemma {:induction false} RunLost(s: State, es: seq<Event>, g: nat)
    requires IsRun(s, es) && g < |s.gs| && Lost(s.gs[g])
    ensures g < |Exec(s, es).gs| && Lost(Exec(s, es).gs[g])
    decreases |es|
  {
    if es != [] {
      LostStays(s, es[0], g);
      RunLost(Apply(s, es[0]), es[1..], g);
    }
  }

  lemma {:induction false} ViolationLoses(s: State, es: seq<Event>) returns (g: nat)
    requires Inv(s) && TailsOk(s) && IsRun(s, es) && !ConformingRun(s, es)
    ensures g < |Exec(s, es).gs| && Lost(Exec(s, es).gs[g])
    decreases |es|
  {
    var t := Apply(s, es[0]);
    if Conforms(s, es[0]) {
      TailsKept(s, es[0]);
      RunKeeps(s, [es[0]]);
      assert Exec(s, [es[0]]) == t by { assert [es[0]][1..] == []; }
      g := ViolationLoses(t, es[1..]);
    } else {
      g := s.reader.g;
      EnqueueLoses(s);
      RunLost(t, es[1..], g);
    }
  }

  lemma HeldIsNotPooled(s: State, g: nat)
    requires OneOwner(s) && g < |s.gs| && Held(s.gs[g]) != []
    ensures var b := Held(s.gs[g])[0].buf; b < POOL_SIZE && Pooled(s.pool, b) == 0
  {
    var b := Held(s.gs[g])[0].buf;
    CountAllUpdate(s.gs, g, s.gs[g], b);
    assert Count(Held(s.gs[g]), b) > 0 && Owners(s, b) > 0;
  }

  /** Every buffer is in the pool. */
  ghost predicate AllPooled(s: State) { forall b: nat :: Pooled(s.pool, b) == if b < POOL_SIZE then 1 else 0 }

  /**
   Before a session is handed to its next connection every buffer is back in the pool
   if and only if no message was queued on a stream behind its end mark. A client that
   sends such data breaks it, and so does one that opens a stream under a mark whose
   last stream is still registered: its data goes to that stream.
   */
  lemma AllReturnIff(es: seq<Event>)
    requires IsRun(INIT, es) && Enabled(Exec(INIT, es), Reconnect)
    ensures AllPooled(Exec(INIT, es)) <==> ConformingRun(INIT, es)
  {
    var s := Exec(INIT, es);
    Initially();
    RunKeeps(INIT, es);
    if ConformingRun(INIT, es) {
      RunTails(INIT, es);
      forall b: nat ensures Pooled(s.pool, b) == if b < POOL_SIZE then 1 else 0 {
        RestHoldsNothing(s.gs, b);
        assert Owners(s, b) == if b < POOL_SIZE then 1 else 0;
      }
    } else {
      var g := ViolationLoses(INIT, es);
      assert AtRest(s.gs[g]);
      HeldIsNotPooled(s, g);
    }
  }

  // ---- The reader that waits ----

  /** A step of a worker or a stream that uses up a message. */
  predicate UsesUp(e: Event) { e.WorkerDone? || e.StreamTakes? || e.StreamReleases? }

  ghost predicate SomeoneMoves(s: State) { exists e :: UsesUp(e) && Enabled(s, e) }

  /** The goroutine holds a buffer and is still going to give it back. */
  predicate WillReturn(g: Goroutine) { Held(g) != [] && (g.Stream? ==> g.status == Looping) }

  lemma ReturnerMoves(s: State, g: nat)
    requires g < |s.gs| && WillReturn(s.gs[g])
    ensures SomeoneMoves(s)
  {
    var e := if s.gs[g].Worker? then WorkerDone(g) else if s.gs[g].cur.Some? then StreamReleases(g) else StreamTakes(g);
    assert UsesUp(e) && Enabled(s, e);
  }

  lemma MoverReturns(s: State, e: Event)
    requires UsesUp(e) && Enabled(s, e)
    ensures WillReturn(s.gs[e.g])
  {
  }

  lemma MovesIff(s: State)
    ensures SomeoneMoves(s) <==> exists g :: 0 <= g < |s.gs| && WillReturn(s.gs[g])
  {
    if SomeoneMoves(s) {
      var e :| UsesUp(e) && Enabled(s, e);
      MoverReturns(s, e);
    }
    if exists g :: 0 <= g < |s.gs| && WillReturn(s.gs[g]) {
      var g :| 0 <= g < |s.gs| && WillReturn(s.gs[g]);
      ReturnerMoves(s, g);
    }
  }

  /** The reader needs a buffer and there is none. */
  predicate LacksBuffer(s: State) { s.reader.Idle? && s.pool == [] }

  /** The reader has a message for a queue that is full. */
  predicate LacksRoom(s: State) {
    s.reader.Handing? && IsStream(s, s.reader.g) && |s.gs[s.reader.g].queue| >= QUEUE_SLOTS
  }

  lemma {:induction false} SomeoneHolds(gs: seq<Goroutine>, b: nat) returns (g: nat)
    requires CountAll(gs, b) > 0
    ensures g < |gs| && Held(gs[g]) != []
  {
    if Held(gs[0]) != [] {
      g := 0;
    } else {
      g := SomeoneHolds(gs[1..], b);
      g := g + 1;
    }
  }

  /** As long as nothing was queued behind an end mark, whoever the reader waits for is at work. */
  lemma WaitingEnds(es: seq<Event>)
    requires IsRun(INIT, es) && ConformingRun(INIT, es)
    requires LacksBuffer(Exec(INIT, es)) || LacksRoom(Exec(INIT, es))
    ensures SomeoneMoves(Exec(INIT, es))
  {
    var s := Exec(INIT, es);
    Initially();
    RunKeeps(INIT, es);
    RunTails(INIT, es);
    var g: nat;
    if LacksBuffer(s) {
      assert Owners(s, 0) == 1;
      g := SomeoneHolds(s.gs, 0);
    } else {
      g := s.reader.g;
      assert |Held(s.gs[g])| >= QUEUE_SLOTS;
    }
    assert TailOk(s.gs[g]);
    ReturnerMoves(s, g);
  }

  /** The queue is full and its stream has left its loop. */
  predicate Blocked(s: State) { LacksRoom(s) && s.gs[s.reader.g].status != Looping }

  lemma BlockedStep(s: State, e: Event)
    requires Blocked(s) && Enabled(s, e)
    ensures Blocked(Apply(s, e)) && Apply(s, e).reader == s.reader
  {
    var t := Apply(s, e);
    assert t.reader == s.reader && |t.gs| == |s.gs|;
    assert t.gs[s.reader.g] == s.gs[s.reader.g] || (e.Unregister? && e.g == s.reader.g);
  }

  /** A full queue is emptied if and only if its stream is still in its loop; otherwise the reader stays where it is for good. */
  lemma {:induction false} BlockedForGood(s: State, es: seq<Event>)
    requires Blocked(s) && IsRun(s, es)
    ensures Blocked(Exec(s, es)) && Exec(s, es).reader == s.reader
    decreases |es|
  {
    if es != [] {
      BlockedStep(s, es[0]);
      BlockedForGood(Apply(s, es[0]), es[1..]);
    }
  }

  /** The stream the reader waits for. */
  lemma RoomComesIff(s: State)
    requires LacksRoom(s)
    ensures (Enabled(s, StreamTakes(s.reader.g)) || Enabled(s, StreamReleases(s.reader.g))) <==> !Blocked(s)
  {
  }

  /** No buffer is in the pool and nobody is going to give one back. */
  ghost predicate Exhausted(s: State) {
    && s.pool == [] && (s.reader.Idle? || s.reader.Stopping? || s.reader.Draining?)
    && forall g :: 0 <= g < |s.gs| ==> !WillReturn(s.gs[g])
  }

  lemma ExhaustedStep(s: State, e: Event)
    requires Exhausted(s) && Enabled(s, e)
    ensures Exhausted(Apply(s, e))
  {
    assert !UsesUp(e) by {
      MovesIff(s);
    }
    var t := Apply(s, e);
    assert |t.gs| == |s.gs|;
    forall g | 0 <= g < |t.gs| ensures !WillReturn(t.gs[g]) {
      assert !WillReturn(s.gs[g]) && Held(t.gs[g]) == Held(s.gs[g]);
    }
  }

  /** When all 32 are lost no payload is ever read again, on this connection or the next. */
  lemma {:induction false} ExhaustedForGood(s: State, es: seq<Event>)
    requires Exhausted(s) && IsRun(s, es)
    ensures Exhausted(Exec(s, es))
    decreases |es|
  {
    if es != [] {
      ExhaustedStep(s, es[0]);
      ExhaustedForGood(Apply(s, es[0]), es[1..]);
    }
  }

  /** A reader that lacks a buffer gets one back if and only if not all are lost. */
  lemma BufferComesIff(s: State)
    requires LacksBuffer(s)
    ensures SomeoneMoves(s) <==> !Exhausted(s)
  {
    MovesIff(s);
  }

  // ---- Two runs in which a stream is sent more after its end ----

  /** One stream, under mark 0, with these messages waiting. */
  predicate Alone(s: State, ms: seq<Msg>, ended: bool, status: Status) {
    s.reader.Idle? && s.gs == [Stream(0, None, ms, false, ended, status)] && s.registry == map[0 := 0]
  }

  /** A run from the start, one step longer. */
  lemma Extended(fs: seq<Event>, s: State, e: Event, t: State) returns (es: seq<Event>)
    requires IsRun(INIT, fs) && Exec(INIT, fs) == s && Enabled(s, e) && Apply(s, e) == t
    ensures IsRun(INIT, es) && Exec(INIT, es) == t
  {
    RunSnoc(INIT, fs, e);
    es := fs + [e];
  }

  lemma Decoded(fs: seq<Event>, kind: Kind) returns (es: seq<Event>)
    requires IsRun(INIT, fs) && Exec(INIT, fs).reader.Idle? && Exec(INIT, fs).pool != []
    ensures IsRun(INIT, es)
    ensures var s := Exec(INIT, fs); var b := s.pool[0];
      Exec(INIT, es) == s.(pool := s.pool[1..], mem := Store(s.mem, b, 7), reader := Filled(Msg(b, 7, false), kind))
  {
    var s := Exec(INIT, fs);
    var a := Apply(s, Acquire(kind));
    es := Extended(fs, s, Acquire(kind), a);
    es := Extended(es, a, Decodes(7), Apply(a, Decodes(7)));
  }

  lemma Opens() returns (es: seq<Event>)
    ensures IsRun(INIT, es) && |Exec(INIT, es).pool| == POOL_SIZE - 1
    ensures Alone(Exec(INIT, es), [Msg(0, 7, false)], false, Looping)
  {
    assert IsRun(INIT, []);
    es := Decoded([], OpenStream(0, true));
    var s := Exec(INIT, es);
    var a := Apply(s, Dispatch);
    es := Extended(es, s, Dispatch, a);
    assert INIT.pool[0] == 0 && a.gs == [Stream(0, None, [], false, false, Looping)];
    es := Extended(es, a, Enqueue, Apply(a, Enqueue));
    assert [] + [Msg(0, 7, false)] == [Msg(0, 7, false)];
  }

  /** Data for the stream is read and dispatched. */
  lemma Hands(fs: seq<Event>, ms: seq<Msg>, ended: bool, status: Status, isEnd: bool) returns (es: seq<Event>)
    requires IsRun(INIT, fs) && Alone(Exec(INIT, fs), ms, ended, status) && Exec(INIT, fs).pool != []
    ensures IsRun(INIT, es)
    ensures var s, t := Exec(INIT, fs), Exec(INIT, es);
      t == s.(pool := s.pool[1..], mem := t.mem, reader := Handing(0, Msg(s.pool[0], 7, isEnd)))
  {
    es := Decoded(fs, StreamData(0, isEnd));
    var s := Exec(INIT, es);
    es := Extended(es, s, Dispatch, Apply(s, Dispatch));
  }

  lemma Feeds(fs: seq<Event>, ms: seq<Msg>, ended: bool, status: Status, isEnd: bool) returns (es: seq<Event>, m: Msg)
    requires IsRun(INIT, fs) && Alone(Exec(INIT, fs), ms, ended, status) && Exec(INIT, fs).pool != [] && |ms| < QUEUE_SLOTS
    ensures IsRun(INIT, es) && |Exec(INIT, es).pool| == |Exec(INIT, fs).pool| - 1
    ensures m.isEnd == isEnd && Alone(Exec(INIT, es), ms + [m], ended || isEnd, status)
  {
    m := Msg(Exec(INIT, fs).pool[0], 7, isEnd);
    es := Hands(fs, ms, ended, status, isEnd);
    var s := Exec(INIT, es);
    es := Extended(es, s, Enqueue, Apply(s, Enqueue));
  }

  lemma Turns(fs: seq<Event>, ms: seq<Msg>, ended: bool) returns (es: seq<Event>)
    requires IsRun(INIT, fs) && Alone(Exec(INIT, fs), ms, ended, Looping) && ms != []
    ensures IsRun(INIT, es) && |Exec(INIT, es).pool| == |Exec(INIT, fs).pool| + 1
    ensures Alone(Exec(INIT, es), ms[1..], ended, if ms[0].isEnd then Returning else Looping)
  {
    var s := Exec(INIT, fs);
    var a := Apply(s, StreamTakes(0));
    es := Extended(fs, s, StreamTakes(0), a);
    es := Extended(es, a, StreamReleases(0), Apply(a, StreamReleases(0)));
  }

  /** The stream has taken its end message and is about to drop its registration. */
  lemma Finishes() returns (es: seq<Event>)
    ensures IsRun(INIT, es) && |Exec(INIT, es).pool| == POOL_SIZE && Alone(Exec(INIT, es), [], true, Returning)
  {
    var m: Msg;
    es := Opens();
    var first := Msg(0, 7, false);
    es, m := Feeds(es, [first], false, Looping, true);
    es := Turns(es, [first] + [m], true);
    assert ([first] + [m])[1..] == [m];
    es := Turns(es, [m], true);
    assert [m][1..] == [];
  }

  /** Data that still reaches the ended stream stays behind when the session is handed to its next connection. */
  lemma DataBehindTheEnd() returns (es: seq<Event>)
    ensures IsRun(INIT, es) && Enabled(Exec(INIT, es), Reconnect) && !AllPooled(Exec(INIT, es)) && !ConformingRun(INIT, es)
  {
    var m: Msg;
    es := Finishes();
    es, m := Feeds(es, [], true, Returning, false);
    var s := Exec(INIT, es);
    var a := Apply(s, Unregister(0));
    var b := Apply(a, ConnLost);
    es := Extended(es, s, Unregister(0), a);
    es := Extended(es, a, ConnLost, b);
    es := Extended(es, b, AllClosed, Apply(b, AllClosed));
    Initially();
    RunKeeps(INIT, es);
    HeldIsNotPooled(Exec(INIT, es), 0);
    AllReturnIff(es);
  }

  lemma {:induction false} FillsUp(k: nat) returns (es: seq<Event>, ms: seq<Msg>)
    requires k <= QUEUE_SLOTS
    ensures IsRun(INIT, es) && |ms| == k && |Exec(INIT, es).pool| == POOL_SIZE - k && Alone(Exec(INIT, es), ms, true, Returning)
    decreases k
  {
    if k == 0 {
      es := Finishes();
      ms := [];
    } else {
      var m: Msg;
      es, ms := FillsUp(k - 1);
      es, m := Feeds(es, ms, true, Returning, false);
      ms := ms + [m];
    }
  }

  /** Five messages for it, and the read loop never gets on. */
  lemma BlockIsReachable() returns (es: seq<Event>)
    ensures IsRun(INIT, es) && Blocked(Exec(INIT, es))
  {
    var ms: seq<Msg>;
    es, ms := FillsUp(QUEUE_SLOTS);
    es := Hands(es, ms, true, Returning, false);
  }

  // ---- The operations of the session object ----

  class Session {
    var pool: seq<nat>
    var mem: seq<nat>
    var reader: Reader
    var gs: seq<Goroutine>
    var registry: map<nat, nat>

    ghost function View(): State reads this { State(pool, mem, reader, gs, registry) }

    constructor ()
      ensures View() == INIT
    {
      pool, mem := seq(POOL_SIZE, i => i), seq(POOL_SIZE, _ => 0);
      reader, gs, registry := Idle, [], map[];
    }

    method AcquireFastBuffer() returns (buf: nat)
      requires pool != []
      modifies this`pool
      ensures [buf] + pool == old(pool)
    {
      buf := pool[0];
      pool := pool[1..];
    }

    method ReleaseFastBuffer(buf: nat)
      modifies this`pool
      ensures pool == old(pool) + [buf]
    {
      pool := pool + [buf];
    }

    /** What becomes of a decoded payload: a worker, a stream's queue, or back to the pool. */
    method HandOver(kind: Kind, m: Msg)
      requires reader.Filled? && !m.isEnd
      modifies this
      ensures View() == Dispatched(old(View()), m, kind)
    {
      match kind
      case Write =>
        gs := gs + [Worker(Some(m))];
        reader := Idle;
      case OpenStream(mark, fdOk) =>
        if !fdOk || mark in registry {
          ReleaseFastBuffer(m.buf);
          reader := Idle;
        } else {
          reader := Handing(|gs|, m);
          registry := registry[mark := |gs|];
          gs := gs + [Stream(mark, None, [], false, false, Looping)];
        }
      case StreamData(mark, isEnd) =>
        if mark !in registry {
          ReleaseFastBuffer(m.buf);
          reader := Idle;
        } else {
          reader := Handing(registry[mark], m.(isEnd := isEnd));
        }
    }

    /**
     One command that carries a payload, as the dispatch switch treats it: buffer taken,
     payload decoded into it, and the buffer given back or handed on.
     */
    method DoCommandCall(kind: Kind, decodes: bool, payload: nat)
      requires Inv(View()) && Enabled(View(), Acquire(kind))
      modifies this
      ensures var s := Apply(old(View()), Acquire(kind));
        if !decodes then View() == Apply(s, DecodeFails(payload))
        else View() == Apply(Apply(s, Decodes(payload)), Dispatch)
    {
      var buf := AcquireFastBuffer();
      assert buf < |mem| by {
        PooledFirst(old(pool), buf);
        assert Owners(old(View()), buf) > 0;
      }
      mem := mem[buf := payload];
      if decodes {
        reader := Filled(Msg(buf, payload, false), kind);
        HandOver(kind, Msg(buf, payload, false));
      } else {
        ReleaseFastBuffer(buf);
      }
    }

    /** One turn of a stream goroutine's loop; `used` is what it finds in the buffer. */
    method StreamTurn(g: nat) returns (used: nat)
      requires Inv(View()) && Enabled(View(), StreamTakes(g))
      modifies this
      ensures used == old(gs[g].queue[0].data)
      ensures View() == Apply(Apply(old(View()), StreamTakes(g)), StreamReleases(g))
    {
      var st := gs[g];
      var m := st.queue[0];
      assert Held(st)[0] == m && AllOk(mem, Held(st));
      used := mem[m.buf];
      ReleaseFastBuffer(m.buf);
      gs := gs[g := st.(queue := st.queue[1..], status := if m.isEnd then Returning else Looping)];
    }
  }
}
