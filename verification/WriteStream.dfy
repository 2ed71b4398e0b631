/**
 Large writes: the client cuts the data into commands, the server's read loop puts
 them into a four-slot queue, and a worker goroutine writes them with pwrite calls
 that may be short or fail. Client, read loop and worker run concurrently; a run
 is any interleaving of their steps.
 */
module WriteStream {
  import opened Bytes
  import opened Protocol
  import opened Files

  const MAX_OPEN_PAYLOAD := MAX_MSG - 14
  const MAX_DATA_PAYLOAD := MAX_MSG - 3

  datatype Cmd = Open(offset: nat, data: seq<byte>) | Data(data: seq<byte>, isEnd: bool)

  function Payload(cmds: seq<Cmd>): seq<byte> {
    if cmds == [] then [] else cmds[0].data + Payload(cmds[1..])
  }

  lemma {:induction false} PayloadAppend(xs: seq<Cmd>, ys: seq<Cmd>)
    ensures Payload(xs + ys) == Payload(xs) + Payload(ys)
  {
    if xs == [] {
      assert xs + ys == ys;
    } else {
      PayloadAppend(xs[1..], ys);
      assert (xs + ys)[1..] == xs[1..] + ys;
      assert xs[0].data + (Payload(xs[1..]) + Payload(ys)) == xs[0].data + Payload(xs[1..]) + Payload(ys);
    }
  }

  lemma PayloadSnoc(xs: seq<Cmd>, c: Cmd)
    ensures Payload(xs + [c]) == Payload(xs) + c.data
  {
    PayloadAppend(xs, [c]);
    assert [c][1..] == [];
    assert Payload([c]) == c.data + [];
  }

  /** Header and fixed fields included, a command fits one frame. */
  predicate FitsFrame(c: Cmd) {
    match c
    case Open(_, d) => 2 + 4 + 8 + |d| <= MAX_MSG
    case Data(d, _) => 2 + 1 + |d| <= MAX_MSG
  }

  /** A stream as a conforming client sends it: one open, then data, `more` telling whether the end is still to come. */
  predicate IsStream(cmds: seq<Cmd>, more: bool) {
    && cmds != [] && cmds[0].Open?
    && (forall i :: 0 <= i < |cmds| ==> FitsFrame(cmds[i]))
    && (forall i :: 1 <= i < |cmds| ==> cmds[i].Data? && (cmds[i].isEnd <==> !more && i == |cmds| - 1))
    && (!more ==> |cmds| >= 2)
  }

  // ---- The client ----

  class ClientStream {
    const sendOk: nat -> bool     // whether the k-th frame goes out
    var sends: nat
    var sent: seq<Cmd>            // the frames that did
    var closed: bool
    var released: bool            // the mark was given back before any answer
    ghost var ended: bool

    /** What has gone out is the beginning of a stream, complete once the end mark is out. */
    ghost predicate Valid()
      reads this
    {
      && (sent == [] || IsStream(sent, !ended)) && (ended ==> sent != [] && closed && !released)
      && (sent == [] ==> closed) && (released ==> closed)
    }

    ghost predicate NoneFailed(from: nat)
      reads this
    {
      forall k :: from <= k < sends ==> sendOk(k)
    }

    /** OpenWriteStream: the first data goes out, or the mark is given back. */
    constructor (sendOk: nat -> bool, offset: nat, first: seq<byte>)
      ensures Valid() && !ended && closed == released && this.sendOk == sendOk
      ensures sent != [] ==> sent[0].offset == offset
      ensures Payload(sent) <= first && (!closed ==> Payload(sent) == first)
      ensures NoneFailed(0) ==> !closed
    {
      var chunk, rest := first, [];
      if |first| > MAX_OPEN_PAYLOAD {
        chunk, rest := first[..MAX_OPEN_PAYLOAD], first[MAX_OPEN_PAYLOAD..];
      }
      this.sendOk, sends, ended := sendOk, 1, false;
      sent := if sendOk(0) then [Open(offset, chunk)] else [];
      closed, released := !sendOk(0), !sendOk(0);
      new;
      assert first == chunk + rest;
      if !closed {
        PayloadSnoc([], Open(offset, chunk));
        assert [] + [Open(offset, chunk)] == [Open(offset, chunk)];
        if |rest| > 0 {
          var ok := Write(rest);
          if !ok {
            closed, released := true, true;
          }
        }
      }
    }

    /** One frame of data, if it goes out. */
    method SendData(c: Cmd) returns (ok: bool)
      requires Valid() && sent != [] && !ended && c.Data? && !c.isEnd && FitsFrame(c)
      modifies this`sent, this`sends
      ensures Valid() && sends == old(sends) + 1 && ok == sendOk(old(sends)) && old(sent) <= sent
      ensures Payload(sent) == old(Payload(sent)) + if ok then c.data else []
    {
      ok := sendOk(sends);
      sends := sends + 1;
      PayloadSnoc(sent, c);
      assert Payload(sent) + [] == Payload(sent);
      if ok {
        sent := sent + [c];
      }
    }

    /** WriteStream.Write: data goes out in frames until one fails; a closed stream refuses. */
    method Write(data: seq<byte>) returns (ok: bool)
      requires Valid() && (!closed ==> !ended)
      modifies this`sent, this`sends
      ensures Valid() && old(sent) <= sent && sends >= old(sends)
      ensures old(closed) ==> !ok && sent == old(sent)
      ensures old(Payload(sent)) <= Payload(sent) <= old(Payload(sent)) + data
      ensures ok ==> Payload(sent) == old(Payload(sent)) + data
      ensures !closed && NoneFailed(old(sends)) ==> ok
    {
      if closed {
        return false;
      }
      var rest := data;
      while |rest| > 0
        invariant Valid() && old(sent) <= sent && sends >= old(sends)
        invariant old(Payload(sent)) <= Payload(sent) && Payload(sent) + rest == old(Payload(sent)) + data
        decreases |rest|
      {
        var chunk := rest;
        if |chunk| > MAX_DATA_PAYLOAD {
          chunk := rest[..MAX_DATA_PAYLOAD];
        }
        assert Payload(sent) + rest == Payload(sent) + chunk + rest[|chunk|..] by { assert rest == chunk + rest[|chunk|..]; }
        var out := SendData(Data(chunk, false));
        if !out {
          assert !NoneFailed(old(sends));
          return false;
        }
        rest := rest[|chunk|..];
      }
      assert Payload(sent) + [] == Payload(sent);
      ok := true;
    }

    /** The frame with the end mark, if it goes out; the stream is closed either way. */
    method SendEnd(tail: seq<byte>) returns (ok: bool)
      requires Valid() && !closed && !ended && |tail| <= MAX_DATA_PAYLOAD
      modifies this
      ensures Valid() && closed && ok == ended && ok == !released && ok == sendOk(old(sends)) && sends == old(sends) + 1
      ensures old(sent) <= sent && Payload(sent) == old(Payload(sent)) + if ok then tail else []
    {
      ok := sendOk(sends);
      sends := sends + 1;
      closed, released := true, !ok;
      PayloadSnoc(sent, Data(tail, true));
      assert Payload(sent) + [] == Payload(sent);
      if ok {
        sent := sent + [Data(tail, true)];
        ended := true;
      }
    }

    /** The sending half of WriteStream.Close: everything and the end mark are out, or the mark is given back. */
    method SendClose(last: seq<byte>) returns (ok: bool)
      requires Valid() && (!closed ==> !ended)
      modifies this
      ensures Valid() && closed && old(sent) <= sent && (old(closed) ==> !ok && sent == old(sent) && ended == old(ended))
      ensures !old(closed) ==> ok == ended && ok == !released
      ensures old(Payload(sent)) <= Payload(sent) <= old(Payload(sent)) + last
      ensures ok ==> Payload(sent) == old(Payload(sent)) + last
      ensures !old(closed) && NoneFailed(old(sends)) ==> ok
    {
      if closed {
        return false;
      }
      var tail := last;
      if |last| > MAX_DATA_PAYLOAD {
        var head := last[..|last| - MAX_DATA_PAYLOAD];
        tail := last[|last| - MAX_DATA_PAYLOAD..];
        assert last == head + tail;
        var out := Write(head);
        assert old(Payload(sent)) + last == old(Payload(sent)) + head + tail;
        if !out {
          closed, released := true, true;
          return false;
        }
      }
      ok := SendEnd(tail);
    }
  }

  /** All commands of one large CmdWriteAt: open with the data, close with nothing more. */
  method LargeWrite(sendOk: nat -> bool, offset: nat, data: seq<byte>) returns (cmds: seq<Cmd>, isOpen: bool, ok: bool)
    ensures Payload(cmds) <= data && (cmds != [] ==> cmds[0].Open? && cmds[0].offset == offset) && (ok ==> isOpen)
    ensures ok ==> IsStream(cmds, false) && Payload(cmds) == data
    ensures !ok ==> cmds == [] || IsStream(cmds, true)
    ensures (forall k :: sendOk(k)) ==> ok
  {
    var stream := new ClientStream(sendOk, offset, data);
    isOpen := !stream.closed;
    ok := stream.SendClose([]);
    cmds := stream.sent;
    assert data + [] == data;
  }

  // ---- The server ----

  datatype Rsp = RspErr(code: byte, desc: string) | RspClose(written: nat)

  datatype Msg = Msg(data: seq<byte>, isEnd: bool)

  /** What one pwrite does: a count, possibly short or zero, or an error code. */
  datatype IO = Wrote(n: nat) | Fails(code: byte)

  datatype State = State(wire: seq<Cmd>, queue: seq<Msg>, cur: Option<Msg>, file: seq<byte>, offset: nat,
                         written: nat, errSent: bool, rsps: seq<Rsp>, started: bool, finished: bool)

  datatype Event = Dispatch | Take | Pwrite(io: IO) | Release

  function Start(cmds: seq<Cmd>, file: seq<byte>): State {
    State(cmds, [], None, file, 0, 0, false, [], false, false)
  }

  /** The worker is in the write loop of its current message. */
  predicate Writing(s: State) {
    s.cur.Some? && s.cur.value.data != [] && !s.errSent
  }

  predicate Enabled(s: State, e: Event) {
    match e
    case Dispatch => s.wire != [] && |s.queue| < QUEUE_SLOTS && (s.started <==> s.wire[0].Data?)
    case Take => s.started && !s.finished && s.cur.None? && s.queue != []
    case Pwrite(io) => Writing(s) && (io.Wrote? ==> io.n <= |s.cur.value.data|) && (io.Fails? ==> io.code >= 2)
    case Release => s.cur.Some? && !Writing(s)
  }

  function Fail(s: State, code: byte, desc: string): State {
    s.(errSent := true, rsps := s.rsps + [RspErr(code, desc)])
  }

  /** One step of the read loop (Dispatch) or of the worker. */
  function Apply(s: State, e: Event): State
    requires Enabled(s, e)
  {
    match e
    case Dispatch =>
      var c := s.wire[0];
      var t := s.(wire := s.wire[1..], queue := s.queue + [Msg(c.data, c.Data? && c.isEnd)]);
      if c.Open? then t.(started := true, offset := c.offset) else t
    case Take => s.(cur := Some(s.queue[0]), queue := s.queue[1..])
    case Pwrite(Fails(code)) => Fail(s, code, "syscall error")
    case Pwrite(Wrote(n)) =>
      if n == 0 then Fail(s, ERROR_IO, "short write")
      else
        var d := s.cur.value.data;
        s.(file := Patch(s.file, s.offset, d[..n]), offset := s.offset + n, written := s.written + n,
           cur := Some(s.cur.value.(data := d[n..])))
    case Release =>
      if s.cur.value.isEnd then s.(cur := None, finished := true, rsps := s.rsps + [RspClose(s.written)])
      else s.(cur := None)
  }

  predicate IsRun(s: State, es: seq<Event>)
    decreases |es|
  {
    es == [] || (Enabled(s, es[0]) && IsRun(Apply(s, es[0]), es[1..]))
  }

  function Exec(s: State, es: seq<Event>): State
    requires IsRun(s, es)
    decreases |es|
  {
    if es == [] then s else Exec(Apply(s, es[0]), es[1..])
  }

  /** The worker's side as the server code has it. */
  class StreamWorker {
    var queue: seq<Msg>
    var cur: Option<Msg>
    var file: seq<byte>
    var offset: nat
    var written: nat
    var errSent: bool
    var rsps: seq<Rsp>
    var finished: bool

    /** The session state, given what is still on the wire. */
    function View(wire: seq<Cmd>): State
      reads this
    {
      State(wire, queue, cur, file, offset, written, errSent, rsps, true, finished)
    }

    /** cmdWriteStreamOpen on a valid descriptor: the worker starts with the first message queued. */
    constructor (file: seq<byte>, c: Cmd)
      requires c.Open?
      ensures forall wire :: View(wire) == Apply(Start([c] + wire, file), Dispatch)
    {
      queue, cur, this.file, offset := [Msg(c.data, false)], None, file, c.offset;
      written, errSent, rsps, finished := 0, false, [], false;
    }

    /** cmdWriteStreamData: blocks until the queue has room. */
    method Enqueue(c: Cmd, ghost wire: seq<Cmd>)
      requires c.Data? && |queue| < QUEUE_SLOTS
      modifies this`queue
      ensures View(wire) == Apply(old(View([c] + wire)), Dispatch)
    {
      queue := queue + [Msg(c.data, c.isEnd)];
    }

    method Receive(ghost wire: seq<Cmd>)
      requires Enabled(View(wire), Take)
      modifies this`queue, this`cur
      ensures View(wire) == Apply(old(View(wire)), Take)
    {
      cur := Some(queue[0]);
      queue := queue[1..];
    }

    /** One turn of writeStreamWriteChunk with the result of its pwrite. */
    method WriteOnce(io: IO, ghost wire: seq<Cmd>)
      requires Enabled(View(wire), Pwrite(io))
      modifies this
      ensures View(wire) == Apply(old(View(wire)), Pwrite(io))
    {
      if io.Fails? {
        errSent := true;
        rsps := rsps + [RspErr(io.code, "syscall error")];
      } else if io.n == 0 {
        errSent := true;
        rsps := rsps + [RspErr(ERROR_IO, "short write")];
      } else {
        var data := cur.value.data;
        file := Patch(file, offset, data[..io.n]);
        offset := offset + io.n;
        written := written + io.n;
        cur := Some(cur.value.(data := data[io.n..]));
      }
    }

    method ReleaseInput(ghost wire: seq<Cmd>)
      requires Enabled(View(wire), Release)
      modifies this`cur, this`finished, this`rsps
      ensures View(wire) == Apply(old(View(wire)), Release)
    {
      var isEnd := cur.value.isEnd;
      cur := None;
      if isEnd {
        finished := true;
        rsps := rsps + [RspClose(written)];
      }
    }
  }

  // ---- What every run keeps ----

  function QueueData(q: seq<Msg>): seq<byte> {
    if q == [] then [] else q[0].data + QueueData(q[1..])
  }

  lemma {:induction false} QueueSnoc(q: seq<Msg>, m: Msg)
    ensures QueueData(q + [m]) == QueueData(q) + m.data
  {
    if q == [] {
      assert [] + [m] == [m] && [m][1..] == [];
      assert QueueData([m]) == m.data + [];
    } else {
      QueueSnoc(q[1..], m);
      assert (q + [m])[1..] == q[1..] + [m];
      assert q[0].data + (QueueData(q[1..]) + m.data) == q[0].data + QueueData(q[1..]) + m.data;
    }
  }

  /** Bytes not yet written, in order: the current message, the queue, the wire. */
  function Remaining(s: State): seq<byte> {
    (if s.cur.Some? then s.cur.value.data else []) + (QueueData(s.queue) + Payload(s.wire))
  }

  /** The end marker is the last message, wherever it is. */
  predicate EndsLast(s: State) {
    && (forall i :: 0 <= i < |s.queue| ==> (s.queue[i].isEnd <==> i == |s.queue| - 1 && s.wire == [] && !s.finished))
    && (s.cur.Some? ==> (s.cur.value.isEnd <==> s.queue == [] && s.wire == []) && !s.finished && s.started)
    && (s.finished ==> s.queue == [] && s.wire == [])
    && (s.wire != [] ==> IsTail(s.wire, s.started))
    && (!s.started ==> s.queue == [] && s.wire != [])
    && (s.started && s.wire == [] && s.queue == [] && s.cur.None? ==> s.finished)
  }

  predicate IsTail(wire: seq<Cmd>, started: bool) {
    if started then forall i :: 0 <= i < |wire| ==> wire[i].Data? && (wire[i].isEnd <==> i == |wire| - 1)
    else IsStream(wire, false)
  }

  /** The file has changed by exactly the first `written` bytes; nothing is written after the first error. */
  ghost predicate Inv(s: State, data: seq<byte>, file: seq<byte>, offset: nat) {
    && |s.queue| <= QUEUE_SLOTS
    && EndsLast(s)
    && (if s.started then s.offset == offset + s.written else s.wire[0].offset == offset && s.written == 0 && s.file == file)
    && s.written <= |data|
    && s.file == Patch(file, offset, data[..s.written])
    && (!s.errSent ==> data == data[..s.written] + Remaining(s))
    && s.rsps == (if s.errSent then [RspErr(FirstErr(s).code, FirstErr(s).desc)] else []) +
                 (if s.finished then [RspClose(s.written)] else [])
  }

  function FirstErr(s: State): Rsp {
    if s.rsps != [] && s.rsps[0].RspErr? then s.rsps[0] else RspErr(0, "")
  }

  lemma InitInv(cmds: seq<Cmd>, file: seq<byte>)
    requires IsStream(cmds, false)
    ensures Inv(Start(cmds, file), Payload(cmds), file, cmds[0].offset)
  {
    var s := Start(cmds, file);
    assert Remaining(s) == Payload(cmds);
    assert Payload(cmds)[..0] + Payload(cmds) == Payload(cmds);
  }

  lemma DispatchRemaining(s: State)
    requires Enabled(s, Dispatch)
    ensures Remaining(Apply(s, Dispatch)) == Remaining(s)
  {
    var t, c := Apply(s, Dispatch), s.wire[0];
    QueueSnoc(s.queue, Msg(c.data, c.Data? && c.isEnd));
    var cur, q, rest := if s.cur.Some? then s.cur.value.data else [], QueueData(s.queue), Payload(t.wire);
    assert q + c.data + rest == q + (c.data + rest);
  }

  lemma DispatchEndsLast(s: State)
    requires EndsLast(s) && Enabled(s, Dispatch)
    ensures EndsLast(Apply(s, Dispatch))
  {
    var t := Apply(s, Dispatch);
    forall i | 0 <= i < |t.wire| ensures t.wire[i].Data? && (t.wire[i].isEnd <==> i == |t.wire| - 1) {
      assert t.wire[i] == s.wire[i + 1];
    }
  }

  lemma DispatchKeeps(s: State, data: seq<byte>, file: seq<byte>, offset: nat)
    requires Inv(s, data, file, offset) && Enabled(s, Dispatch)
    ensures Inv(Apply(s, Dispatch), data, file, offset)
  {
    DispatchRemaining(s);
    DispatchEndsLast(s);
  }

  lemma TakeKeeps(s: State, data: seq<byte>, file: seq<byte>, offset: nat)
    requires Inv(s, data, file, offset) && Enabled(s, Take)
    ensures Inv(Apply(s, Take), data, file, offset)
  {
    var t := Apply(s, Take);
    var rest := QueueData(t.queue);
    assert s.queue[0].data + rest + Payload(s.wire) == s.queue[0].data + (rest + Payload(s.wire));
    assert Remaining(t) == Remaining(s);
  }

  /** Writing the first `n` bytes of what remains. */
  lemma WroteSplit(data: seq<byte>, w: nat, d: seq<byte>, behind: seq<byte>, n: nat)
    requires w <= |data| && data == data[..w] + (d + behind) && n <= |d|
    ensures w + n <= |data| && data[..w + n] == data[..w] + d[..n]
    ensures data == data[..w + n] + (d[n..] + behind)
  {
    assert data[w..] == d + behind;
    assert data[w..][..n] == d[..n];
    assert data[w..][n..] == d[n..] + behind;
    assert data[..w + n] == data[..w] + data[w..][..n];
  }

  lemma WroteFile(s: State, n: nat, data: seq<byte>, file: seq<byte>, offset: nat)
    requires s.written + n <= |data| && s.offset == offset + s.written && s.file == Patch(file, offset, data[..s.written])
    requires s.cur.Some? && n <= |s.cur.value.data| && data[..s.written + n] == data[..s.written] + s.cur.value.data[..n]
    ensures Patch(s.file, s.offset, s.cur.value.data[..n]) == Patch(file, offset, data[..s.written + n])
  {
    PatchAppend(file, offset, data[..s.written], s.cur.value.data[..n]);
  }

  lemma PwriteKeeps(s: State, io: IO, data: seq<byte>, file: seq<byte>, offset: nat)
    requires Inv(s, data, file, offset) && Enabled(s, Pwrite(io))
    ensures Inv(Apply(s, Pwrite(io)), data, file, offset)
  {
    if io.Wrote? && io.n > 0 {
      var t := Apply(s, Pwrite(io));
      var n, d, w, behind := io.n, s.cur.value.data, s.written, QueueData(s.queue) + Payload(s.wire);
      WroteSplit(data, w, d, behind, n);
      WroteFile(s, n, data, file, offset);
    }
  }

  lemma ReleaseKeeps(s: State, data: seq<byte>, file: seq<byte>, offset: nat)
    requires Inv(s, data, file, offset) && Enabled(s, Release)
    ensures Inv(Apply(s, Release), data, file, offset)
  {
    var t := Apply(s, Release);
    if !s.errSent { assert Remaining(t) == Remaining(s); }
  }

  lemma StepKeeps(s: State, e: Event, data: seq<byte>, file: seq<byte>, offset: nat)
    requires Enabled(s, e) && Inv(s, data, file, offset)
    ensures Inv(Apply(s, e), data, file, offset)
  {
    match e
    case Dispatch => DispatchKeeps(s, data, file, offset);
    case Take => TakeKeeps(s, data, file, offset);
    case Pwrite(io) => PwriteKeeps(s, io, data, file, offset);
    case Release => ReleaseKeeps(s, data, file, offset);
  }

  lemma {:induction false} RunKeeps(s: State, es: seq<Event>, data: seq<byte>, file: seq<byte>, offset: nat)
    requires IsRun(s, es) && Inv(s, data, file, offset)
    ensures Inv(Exec(s, es), data, file, offset)
    decreases |es|
  {
    if es != [] {
      StepKeeps(s, es[0], data, file, offset);
      RunKeeps(Apply(s, es[0]), es[1..], data, file, offset);
    }
  }

  /** As long as the stream has not ended, some step is possible: the bounded queue never locks up. */
  lemma Progress(s: State, data: seq<byte>, file: seq<byte>, offset: nat)
    requires Inv(s, data, file, offset) && !s.finished
    ensures exists e :: Enabled(s, e)
  {
    if s.cur.Some? {
      assert Enabled(s, if Writing(s) then Pwrite(Wrote(0)) else Release);
    } else if s.queue != [] {
      assert Enabled(s, Take);
    } else {
      assert s.wire != [];
      assert Enabled(s, Dispatch);
    }
  }

  /** Steps still to come at most: what is on the wire, in the queue, in hand, and one failure. */
  function Measure(s: State): nat {
    WireSteps(s.wire) + QueueSteps(s.queue) + (if s.cur.Some? then 1 + |s.cur.value.data| else 0) + (if s.errSent then 0 else 1)
  }

  function WireSteps(wire: seq<Cmd>): nat { if wire == [] then 0 else 3 + |wire[0].data| + WireSteps(wire[1..]) }

  function QueueSteps(queue: seq<Msg>): nat { if queue == [] then 0 else 2 + |queue[0].data| + QueueSteps(queue[1..]) }

  lemma {:induction false} QueueStepsSnoc(q: seq<Msg>, m: Msg)
    ensures QueueSteps(q + [m]) == QueueSteps(q) + 2 + |m.data|
  {
    if q == [] {
      assert [] + [m] == [m] && [m][1..] == [];
    } else {
      QueueStepsSnoc(q[1..], m);
      assert (q + [m])[1..] == q[1..] + [m];
    }
  }

  lemma StepShrinks(s: State, e: Event)
    requires Enabled(s, e)
    ensures Measure(Apply(s, e)) < Measure(s)
  {
    if e.Dispatch? {
      var c := s.wire[0];
      QueueStepsSnoc(s.queue, Msg(c.data, c.Data? && c.isEnd));
    }
  }

  /** Every run of a stream is this short; one that cannot go on has ended the stream. */
  lemma {:induction false} StreamEnds(s: State, es: seq<Event>, data: seq<byte>, file: seq<byte>, offset: nat)
    requires IsRun(s, es) && Inv(s, data, file, offset)
    ensures |es| + Measure(Exec(s, es)) <= Measure(s)
    ensures (forall e :: !Enabled(Exec(s, es), e)) ==> Exec(s, es).finished
    decreases |es|
  {
    if es == [] {
      if !s.finished { Progress(s, data, file, offset); }
    } else {
      StepShrinks(s, es[0]);
      StepKeeps(s, es[0], data, file, offset);
      StreamEnds(Apply(s, es[0]), es[1..], data, file, offset);
    }
  }

  // ---- What the caller is told ----

  datatype Reported = Reported(written: nat, code: byte) | Waiting

  /** The receiving half of Close and what CmdWriteAt makes of it; `first` is the first write error so far. */
  function Report(rsps: seq<Rsp>, first: byte): Reported
    decreases |rsps|
  {
    if rsps == [] then Waiting
    else
      match rsps[0]
      case RspClose(w) => Reported(w, if first != 0 then first else OK)
      case RspErr(code, desc) =>
        if code == ERROR_UNKNOWN || (code == ERROR_IO && desc == "Session error mode") then Reported(0, ERROR_UNKNOWN)
        else Report(rsps[1..], if first == 0 then code else first)
  }

  /** The loop of WriteStream.Close, then the tail of CmdWriteAt. */
  method AwaitClose(rsps: seq<Rsp>) returns (r: Reported)
    requires forall i :: 0 <= i < |rsps| && rsps[i].RspErr? ==> rsps[i].code >= 2
    ensures r == Report(rsps, 0)
  {
    var writeErrCode: byte := 0;
    for i := 0 to |rsps|
      invariant Report(rsps[i..], writeErrCode) == Report(rsps, 0)
    {
      assert rsps[i..][1..] == rsps[i + 1..];
      match rsps[i]
      case RspClose(w) =>
        if writeErrCode != 0 {
          return Reported(w, writeErrCode);
        }
        return Reported(w, OK);
      case RspErr(code, desc) =>
        if code == ERROR_UNKNOWN {
          return Reported(0, code);
        }
        if code == ERROR_IO && desc == "Session error mode" {
          return Reported(0, ERROR_UNKNOWN);
        }
        if writeErrCode == 0 {
          writeErrCode := code;
        }
    }
    r := Waiting;
  }

  lemma {:induction false} ErrorsComeFromWrites(s: State, es: seq<Event>)
    requires IsRun(s, es)
    requires s.rsps != [] && s.rsps[0].RspErr? ==> s.rsps[0].code >= 2 && s.rsps[0].desc in {"syscall error", "short write"}
    ensures var t := Exec(s, es);
            t.rsps != [] && t.rsps[0].RspErr? ==> t.rsps[0].code >= 2 && t.rsps[0].desc in {"syscall error", "short write"}
    decreases |es|
  {
    if es != [] { ErrorsComeFromWrites(Apply(s, es[0]), es[1..]); }
  }

  /**
   A whole large write, over every interleaving, short-write schedule and failure:
   when the stream has ended, the file has changed by exactly the first `w` bytes of
   the data at the offset, where `w` is what the server reports; without an error
   `w` is everything. The caller gets (w, first error or OK), unless that error is
   the unknown one, on which the client stops waiting and reports zero.
   */
  lemma WriteEndToEnd(cmds: seq<Cmd>, file: seq<byte>, es: seq<Event>)
    requires IsStream(cmds, false) && IsRun(Start(cmds, file), es) && Exec(Start(cmds, file), es).finished
    ensures var s, data := Exec(Start(cmds, file), es), Payload(cmds);
            && s.written <= |data| && s.file == Patch(file, cmds[0].offset, data[..s.written])
            && (!s.errSent ==> s.written == |data| && Report(s.rsps, 0) == Reported(|data|, OK))
            && (s.errSent && FirstErr(s).code != ERROR_UNKNOWN ==> Report(s.rsps, 0) == Reported(s.written, FirstErr(s).code) && FirstErr(s).code != OK)
            && (s.errSent && FirstErr(s).code == ERROR_UNKNOWN ==> Report(s.rsps, 0) == Reported(0, ERROR_UNKNOWN))
  {
    var s0 := Start(cmds, file);
    InitInv(cmds, file);
    RunKeeps(s0, es, Payload(cmds), file, cmds[0].offset);
    ErrorsComeFromWrites(s0, es);
    var s := Exec(s0, es);
    assert Remaining(s) == [];
    if s.errSent {
      assert s.rsps == [FirstErr(s), RspClose(s.written)];
      assert s.rsps[1..] == [RspClose(s.written)];
    } else {
      assert s.rsps == [RspClose(s.written)];
    }
  }

  /** The reported count is the number of bytes in the file exactly when the first error is known or nothing was written. */
  lemma CountExactIff(cmds: seq<Cmd>, file: seq<byte>, es: seq<Event>)
    requires IsStream(cmds, false) && IsRun(Start(cmds, file), es) && Exec(Start(cmds, file), es).finished
    ensures var s := Exec(Start(cmds, file), es);
            && Report(s.rsps, 0).Reported?
            && (Report(s.rsps, 0).written == s.written <==> !(s.errSent && FirstErr(s).code == ERROR_UNKNOWN) || s.written == 0)
  {
    WriteEndToEnd(cmds, file, es);
  }

  /** The second half of the case below: the error is noted, the end mark closes the stream. */
  lemma AfterTheError(a: byte, b: byte)
    ensures var s4 := State([Data([], true)], [], Some(Msg([b], false)), [a], 1, 1, true, [RspErr(ERROR_UNKNOWN, "syscall error")], true, false);
      var es := [Release, Dispatch, Take, Release];
      && IsRun(s4, es)
      && var s := Exec(s4, es);
         s.finished && s.written == 1 && s.file == [a] && s.rsps == [RspErr(ERROR_UNKNOWN, "syscall error"), RspClose(1)]
  {
    var s4 := State([Data([], true)], [], Some(Msg([b], false)), [a], 1, 1, true, [RspErr(ERROR_UNKNOWN, "syscall error")], true, false);
    var s5 := Apply(s4, Release);
    var s6 := Apply(s5, Dispatch);
    var s7 := Apply(s6, Take);
    OneStep(s7, Release, []);
    OneStep(s6, Take, [Release]);
    OneStep(s5, Dispatch, [Take, Release]);
    OneStep(s4, Release, [Dispatch, Take, Release]);
  }

  /** The first half: one byte is written, the next write fails with the unknown error. */
  lemma UpToTheError(a: byte, b: byte)
    ensures var s0 := Start([Open(0, [a, b]), Data([], true)], []);
      && Enabled(s0, Dispatch) && var s1 := Apply(s0, Dispatch);
      && Enabled(s1, Take) && var s2 := Apply(s1, Take);
      && Enabled(s2, Pwrite(Wrote(1))) && var s3 := Apply(s2, Pwrite(Wrote(1)));
      && Enabled(s3, Pwrite(Fails(ERROR_UNKNOWN))) && Apply(s3, Pwrite(Fails(ERROR_UNKNOWN))) ==
        State([Data([], true)], [], Some(Msg([b], false)), [a], 1, 1, true, [RspErr(ERROR_UNKNOWN, "syscall error")], true, false)
  {
    var s1 := Apply(Start([Open(0, [a, b]), Data([], true)], []), Dispatch);
    assert s1 == State([Data([], true)], [Msg([a, b], false)], None, [], 0, 0, false, [], true, false);
    var s2 := Apply(s1, Take);
    assert s2 == State([Data([], true)], [], Some(Msg([a, b], false)), [], 0, 0, false, [], true, false);
    assert Patch([], 0, [a, b][..1]) == [a] && [a, b][1..] == [b];
  }

  /** The smallest case: one byte is written, then the unknown error; the caller hears of none. */
  lemma CountIsLost(a: byte, b: byte)
    ensures var cmds := [Open(0, [a, b]), Data([], true)];
      var es := [Dispatch] + ([Take] + ([Pwrite(Wrote(1))] + ([Pwrite(Fails(ERROR_UNKNOWN))] + [Release, Dispatch, Take, Release])));
      && IsStream(cmds, false) && IsRun(Start(cmds, []), es)
      && var s := Exec(Start(cmds, []), es);
         s.finished && s.written == 1 && s.file == [a] && Report(s.rsps, 0) == Reported(0, ERROR_UNKNOWN)
  {
    var rest := [Release, Dispatch, Take, Release];
    var fail := Pwrite(Fails(ERROR_UNKNOWN));
    UpToTheError(a, b);
    AfterTheError(a, b);
    var s0 := Start([Open(0, [a, b]), Data([], true)], []);
    var s1 := Apply(s0, Dispatch);
    var s2 := Apply(s1, Take);
    var s3 := Apply(s2, Pwrite(Wrote(1)));
    OneStep(s3, fail, rest);
    OneStep(s2, Pwrite(Wrote(1)), [fail] + rest);
    OneStep(s1, Take, [Pwrite(Wrote(1))] + ([fail] + rest));
    OneStep(s0, Dispatch, [Take] + ([Pwrite(Wrote(1))] + ([fail] + rest)));
  }

  lemma OneStep(s: State, e: Event, es: seq<Event>)
    requires Enabled(s, e) && IsRun(Apply(s, e), es)
    ensures IsRun(s, [e] + es) && Exec(s, [e] + es) == Exec(Apply(s, e), es)
  {
    assert ([e] + es)[0] == e && ([e] + es)[1..] == es;
  }

  // ---- CmdWriteAt, both ends ----

  /** What the next pwrite does, clamped to what it can do. */
  function Clamp(io: IO, room: nat): IO {
    if io.Fails? then (if io.code >= 2 then io else Fails(ERROR_IO)) else Wrote(Min(io.n, room))
  }

  lemma {:induction false} RunSnoc(s: State, es: seq<Event>, e: Event)
    requires IsRun(s, es) && Enabled(Exec(s, es), e)
    ensures IsRun(s, es + [e]) && Exec(s, es + [e]) == Apply(Exec(s, es), e)
    decreases |es|
  {
    if es == [] {
      assert [] + [e] == [e] && [e][1..] == [];
    } else {
      RunSnoc(Apply(s, es[0]), es[1..], e);
      assert (es + [e])[1..] == es[1..] + [e];
    }
  }

  /** What arrives of a stream that breaks off, as the beginning of one that ends. */
  function Whole(cmds: seq<Cmd>, more: bool): seq<Cmd> { if more then cmds + [Data([], true)] else cmds }

  lemma WholeIsStream(cmds: seq<Cmd>, more: bool)
    requires IsStream(cmds, more)
    ensures IsStream(Whole(cmds, more), false) && Whole(cmds, more)[0] == cmds[0] && Payload(Whole(cmds, more)) == Payload(cmds)
  {
    PayloadSnoc(cmds, Data([], true));
    assert Payload(cmds) + [] == Payload(cmds);
  }

  function Pad(s: State, more: bool): State { s.(wire := Whole(s.wire, more)) }

  /** The server does with the beginning what it would do with the whole. */
  lemma {:induction false} RunOfWhole(s: State, es: seq<Event>, more: bool)
    requires IsRun(s, es)
    ensures IsRun(Pad(s, more), es) && Exec(Pad(s, more), es) == Pad(Exec(s, es), more)
    decreases |es|
  {
    if es != [] {
      var e := es[0];
      assert e.Dispatch? ==> Whole(s.wire, more)[0] == s.wire[0] && Whole(s.wire, more)[1..] == Whole(s.wire[1..], more);
      assert Enabled(Pad(s, more), e) && Apply(Pad(s, more), e) == Pad(Apply(s, e), more);
      RunOfWhole(Apply(s, e), es[1..], more);
    }
  }

  /** Whatever has arrived of a stream, and however far the server has got: the file has changed by a beginning of it. */
  lemma BrokenOff(cmds: seq<Cmd>, more: bool, file: seq<byte>, es: seq<Event>)
    requires IsStream(cmds, more) && IsRun(Start(cmds, file), es)
    ensures var s, data := Exec(Start(cmds, file), es), Payload(cmds);
      && Inv(Pad(s, more), data, file, cmds[0].offset)
      && s.written <= |data| && s.file == Patch(file, cmds[0].offset, data[..s.written])
  {
    WholeIsStream(cmds, more);
    InitInv(Whole(cmds, more), file);
    RunOfWhole(Start(cmds, file), es, more);
    RunKeeps(Start(Whole(cmds, more), file), es, Payload(cmds), file, cmds[0].offset);
  }

  predicate Idle(s: State) { s.wire == [] && s.queue == [] && s.cur.None? }

  /** The run `es` deals with all that arrived and leaves this file and these answers; a whole stream is ended by it. */
  ghost predicate EndsAs(cmds: seq<Cmd>, more: bool, file: seq<byte>, es: seq<Event>, file': seq<byte>, rsps: seq<Rsp>) {
    && IsRun(Start(cmds, file), es)
    && var s := Exec(Start(cmds, file), es);
      Idle(s) && s.finished == !more && s.file == file' && s.rsps == rsps
  }

  /** In a stream that has begun and has something left to do, this can be done next. */
  lemma NextStep(s: State, more: bool, data: seq<byte>, file: seq<byte>, offset: nat)
    requires Inv(Pad(s, more), data, file, offset) && s.started
    ensures s.cur.None? && s.queue == [] && s.wire != [] ==> Enabled(s, Dispatch)
    ensures s.cur.None? && s.wire != [] && |s.queue| < QUEUE_SLOTS ==> Enabled(s, Dispatch)
    ensures s.cur.None? && s.queue != [] ==> Enabled(s, Take)
    ensures Idle(s) ==> s.finished == !more
  {
    var w := Whole(s.wire, more);
    if s.wire != [] { assert w[0] == s.wire[0]; }
  }

  /**
   The server on what arrives of a stream, all of it or a beginning after which its input
   is closed: `io` is what the pwrites do, `eager` how far the read loop runs ahead.
   */
  method Serve(file: seq<byte>, cmds: seq<Cmd>, ghost more: bool, io: nat -> IO, eager: nat -> bool) returns (file': seq<byte>, rsps: seq<Rsp>)
    requires IsStream(cmds, more)
    ensures exists es :: EndsAs(cmds, more, file, es, file', rsps)
  {
    ghost var s0 := Start(cmds, file);
    var worker := new StreamWorker(file, cmds[0]);
    var wire, k := cmds[1..], 0;
    assert cmds == [cmds[0]] + wire;
    ghost var es := [];
    RunSnoc(s0, es, Dispatch);
    es := es + [Dispatch];
    while wire != [] || worker.queue != [] || worker.cur.Some?
      invariant IsRun(s0, es) && Exec(s0, es) == worker.View(wire)
      decreases Measure(worker.View(wire))
    {
      ghost var s := worker.View(wire);
      BrokenOff(cmds, more, file, es);
      NextStep(s, more, Payload(cmds), file, cmds[0].offset);
      ghost var e;
      if worker.cur.Some? && !(worker.cur.value.data != [] && !worker.errSent) {
        e := Release;
        worker.ReleaseInput(wire);
      } else if worker.cur.Some? {
        var next := Clamp(io(k), |worker.cur.value.data|);
        e := Pwrite(next);
        worker.WriteOnce(next, wire);
      } else if worker.queue != [] && (wire == [] || |worker.queue| == QUEUE_SLOTS || !eager(k)) {
        e := Take;
        worker.Receive(wire);
      } else {
        e := Dispatch;
        assert wire == [wire[0]] + wire[1..];
        worker.Enqueue(wire[0], wire[1..]);
        wire := wire[1..];
      }
      k := k + 1;
      RunSnoc(s0, es, e);
      StepShrinks(s, e);
      es := es + [e];
    }
    BrokenOff(cmds, more, file, es);
    NextStep(worker.View(wire), more, Payload(cmds), file, cmds[0].offset);
    file', rsps := worker.file, worker.rsps;
    assert EndsAs(cmds, more, file, es, file', rsps);
  }

  /** The file has changed by a beginning of the data, if at all. */
  ghost predicate Begins(after: seq<byte>, file: seq<byte>, offset: nat, data: seq<byte>) {
    exists w :: 0 <= w <= |data| && after == Patch(file, offset, data[..w])
  }

  lemma BeginsLater(after: seq<byte>, file: seq<byte>, offset: nat, part: seq<byte>, data: seq<byte>, w: nat)
    requires part <= data && w <= |part| && after == Patch(file, offset, part[..w])
    ensures Begins(after, file, offset, data)
  {
    assert part[..w] == data[..w];
  }

  lemma PayloadPrefix(cmds: seq<Cmd>, n: nat)
    requires n <= |cmds|
    ensures Payload(cmds[..n]) <= Payload(cmds)
  {
    PayloadAppend(cmds[..n], cmds[n..]);
    assert cmds == cmds[..n] + cmds[n..];
  }

  /** A connection that fails in the middle of a large write: the server finishes what it had got. */
  method ServeRest(file: seq<byte>, offset: nat, ghost data: seq<byte>, cmds: seq<Cmd>, arrived: nat, io: nat -> IO, eager: nat -> bool)
    returns (after: seq<byte>)
    requires cmds == [] || (IsStream(cmds, true) && cmds[0].offset == offset)
    requires Payload(cmds) <= data
    ensures Begins(after, file, offset, data)
  {
    var got := cmds[..Min(arrived, |cmds|)];
    if got == [] {
      assert Patch(file, offset, data[..0]) == file;
      return file;
    }
    PayloadPrefix(cmds, |got|);
    var rsps;
    after, rsps := Serve(file, got, true, io, eager);
    ghost var es :| EndsAs(got, true, file, es, after, rsps);
    BrokenOff(got, true, file, es);
    BeginsLater(after, file, offset, Payload(got), data, Exec(Start(got, file), es).written);
  }

  /**
   CmdWriteAt with a server behind it; `held` tells whether every frame went out, and
   `arrived` how many of those sent before a failure the server got. The file changes by
   a beginning of the data in any case. While the connection holds it is exactly the
   reported bytes, and all of a large write when the code is OK; only the unknown error
   hides how much was written.
   */
  method CmdWriteAt(sendOk: nat -> bool, arrived: nat, file: seq<byte>, offset: nat, data: seq<byte>, io: nat -> IO, eager: nat -> bool)
    returns (after: seq<byte>, held: bool, written: nat, code: byte)
    ensures Begins(after, file, offset, data)
    ensures (forall k :: sendOk(k)) ==> held
    ensures !held ==> written == 0 && (code == ERROR_IO || code == ERROR_UNKNOWN)
    ensures held && code != ERROR_UNKNOWN ==> written <= |data| && after == Patch(file, offset, data[..written])
    ensures code == ERROR_UNKNOWN ==> written == 0
    ensures held && code == OK && |data| > MAX_OPEN_PAYLOAD ==> written == |data|
  {
    if |data| <= MAX_OPEN_PAYLOAD {
      assert Patch(file, offset, data[..0]) == file;
      if !sendOk(0) {
        return file, false, 0, ERROR_IO;
      }
      match Clamp(io(0), |data|)
      case Fails(c) => return file, true, 0, c;
      case Wrote(n) => return Patch(file, offset, data[..n]), true, n, OK;
    }
    var cmds, isOpen, ok := LargeWrite(sendOk, offset, data);
    if !ok {
      after := ServeRest(file, offset, data, cmds, arrived, io, eager);
      return after, false, 0, if isOpen then ERROR_UNKNOWN else ERROR_IO;
    }
    var rsps;
    after, rsps := Serve(file, cmds, false, io, eager);
    ghost var es :| EndsAs(cmds, false, file, es, after, rsps);
    WriteEndToEnd(cmds, file, es);
    ErrorsComeFromWrites(Start(cmds, file), es);
    ghost var s := Exec(Start(cmds, file), es);
    BrokenOff(cmds, false, file, es);
    var r := AwaitClose(rsps);
    assert after == Patch(file, offset, data[..s.written]);
    held, written, code := true, r.written, r.code;
  }
}
