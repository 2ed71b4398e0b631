/**
 Extended-attribute writes that do not fit one command: a first set, then appends,
 and a rollback when a later piece fails. Every call may be refused by the server,
 and its answer may be lost after the server did or did not apply it.
 */
module XAttrWrite {
  import opened Bytes
  import opened Protocol
  import opened Codec

  type ErrCode = c: byte | c >= 2 witness 2
  type Flag = x: int | 0 <= x < 0x1_0000_0000

  /** XATTR_NOFOLLOW picks the link instead of its target; the key names the attribute. */
  datatype Name = Name(nofollow: bool, key: seq<byte>)
  type Store = map<Name, seq<byte>>

  datatype Mode = Normal | Append | Create | Replace

  predicate NoFollow(flag: Flag) { flag >= 0x8000_0000 }

  function ModeOf(flag: Flag): Option<Mode> {
    match flag % 0x8000_0000
    case 0 => Some(Normal)
    case 1 => Some(Append)
    case 2 => Some(Create)
    case 3 => Some(Replace)
    case _ => None
  }

  // ---- The server ----

  datatype SetResult = Done(store: Store) | Refused(code: ErrCode)

  /** xattr.Set: what one set of any size means in each mode. */
  function SetOnce(s: Store, n: Name, value: seq<byte>, mode: Mode): SetResult {
    match mode
    case Normal => Done(s[n := value])
    case Append => if n in s then Done(s[n := s[n] + value]) else Refused(NO_XATTR)
    case Create => if n in s then Refused(EXISTS) else Done(s[n := value])
    case Replace => if n in s then Done(s[n := value]) else Refused(NO_XATTR)
  }

  /** A set in any mode followed by an append is one larger set. */
  lemma SplitIsOneSet(s: Store, n: Name, a: seq<byte>, b: seq<byte>, mode: Mode)
    requires SetOnce(s, n, a, mode).Done?
    ensures SetOnce(SetOnce(s, n, a, mode).store, n, b, Append) == SetOnce(s, n, a + b, mode)
  {
    var s1 := SetOnce(s, n, a, mode).store;
    if mode == Append { assert s[n] + a + b == s[n] + (a + b); }
    assert SetOnce(s1, n, b, Append).store == SetOnce(s, n, a + b, mode).store;
  }

  // ---- Sizes ----

  const SET_XATTR := Struct([Str, Num(4, false), Str, Blob])

  function CommandValue(path: seq<byte>, flag: Flag, key: seq<byte>, value: seq<byte>): (v: Value)
    ensures HasType(SET_XATTR, v)
  {
    Widths();
    StructV([BytesV(path), NumV(flag), BytesV(key), BytesV(value)])
  }

  /** Header included, what setXAttrFits compares with the limit. */
  function CommandSize(path: seq<byte>, key: seq<byte>, size: nat): nat {
    2 + (2 + |path|) + 4 + (2 + |key|) + size
  }

  /** The generated size function of CmdSetXAttrStruct, and the command as bytes. */
  lemma CommandSizeIsExact(path: seq<byte>, flag: Flag, key: seq<byte>, value: seq<byte>)
    ensures 2 + RequiredSize(SET_XATTR, CommandValue(path, flag, key, value)) == CommandSize(path, key, |value|)
    ensures |path| <= MAX_STRING && |key| <= MAX_STRING ==>
              var o := Encode(SET_XATTR, CommandValue(path, flag, key, value));
              o.ok && 2 + |o.bytes| == CommandSize(path, key, |value|) && Decode(SET_XATTR, o.bytes) == Some((CommandValue(path, flag, key, value), []))
  {
    var v, fs := CommandValue(path, flag, key, value), SET_XATTR.fields;
    assert RequiredSizes(fs, v.vs, 3) == |value|;
    assert RequiredSizes(fs, v.vs, 2) == 2 + |key| + |value|;
    assert RequiredSizes(fs, v.vs, 1) == 4 + 2 + |key| + |value|;
    assert RequiredSizes(fs, v.vs, 0) == RequiredSize(fs[0], v.vs[0]) + RequiredSizes(fs, v.vs, 1);
    RequiredSizeIsLength(SET_XATTR, v);
    if |path| <= MAX_STRING && |key| <= MAX_STRING {
      assert forall i :: 0 <= i < 4 ==> StringsFit(fs[i], v.vs[i]);
      EncodeOkIff(SET_XATTR, v);
      SetXAttrBlobLast();
      RoundTripBlobLast(SET_XATTR, v);
    }
  }

  lemma SetXAttrBlobLast()
    ensures BlobOnlyLast(Flatten(SET_XATTR))
  {
    var fs := SET_XATTR.fields;
    assert FlattenFields(fs, 4) == [];
    assert FlattenFields(fs, 3) == [Blob];
    assert FlattenFields(fs, 2) == [Str, Blob];
    assert FlattenFields(fs, 1) == [Num(4, false), Str, Blob];
    assert FlattenFields(fs, 0) == [Str, Num(4, false), Str, Blob];
  }

  predicate Fits(path: seq<byte>, key: seq<byte>, size: nat) {
    CommandSize(path, key, size) <= MAX_MSG
  }

  /** maxXAttrChunkSize: the binary search finds the largest piece that fits, 0 when none does. */
  method MaxChunkSize(path: seq<byte>, key: seq<byte>) returns (n: nat)
    ensures n > 0 ==> Fits(path, key, n)
    ensures forall m: nat :: Fits(path, key, m) ==> m <= n
  {
    if !Fits(path, key, 0) {
      return 0;
    }
    var low, high := 0, MAX_MSG;
    while low < high
      invariant 0 <= low <= high && Fits(path, key, low)
      invariant forall m: nat :: Fits(path, key, m) ==> m <= high
    {
      var mid := low + (high - low + 1) / 2;
      if Fits(path, key, mid) {
        low := mid;
      } else {
        high := mid - 1;
      }
    }
    n := low;
  }

  // ---- The client ----

  /** A refusal for a reason of its own: "no such attribute" is an answer about the store, never a fault. */
  type FaultCode = c: byte | c >= 2 && c != NO_XATTR witness 2

  /** What happens to the k-th call besides its meaning. */
  datatype Fault = Clean | Refuse(code: FaultCode) | Lost(applied: bool)

  class XAttrClient {
    const path: seq<byte>
    const fault: nat -> Fault
    const autoAppend: bool
    const prefixes: seq<seq<byte>>
    var store: Store
    var calls: nat
    ghost var largest: nat

    constructor (path: seq<byte>, prefixes: seq<seq<byte>>, autoAppend: bool, fault: nat -> Fault, store: Store)
      ensures this.path == path && this.prefixes == prefixes && this.autoAppend == autoAppend && this.fault == fault
      ensures this.store == store && calls == 0 && largest == 0
    {
      this.path, this.prefixes, this.autoAppend, this.fault := path, prefixes, autoAppend, fault;
      this.store, calls, largest := store, 0, 0;
    }

    /** No fault hits the calls made since the counter stood at `from`. */
    ghost predicate Quiet(from: nat)
      reads this
    {
      forall k :: from <= k < calls ==> fault(k) == Clean
    }

    /** Only the attribute `n` can have changed. */
    twostate predicate OnlyTouches(n: Name)
      reads this
    {
      forall m :: m != n ==> (m in store <==> m in old(store)) && (m in store ==> store[m] == old(store[m]))
    }

    /** sendSetXAttr */
    method Send(n: Name, value: seq<byte>, mode: Mode) returns (code: byte)
      requires Fits(path, n.key, |value|)
      modifies this
      ensures calls == old(calls) + 1 && largest == Max(old(largest), CommandSize(path, n.key, |value|))
      ensures OnlyTouches(n)
      ensures code == OK ==> SetOnce(old(store), n, value, mode) == Done(store)
      ensures code != OK && !fault(old(calls)).Lost? ==> store == old(store)
      ensures fault(old(calls)) == Clean ==>
                match SetOnce(old(store), n, value, mode) case Done(_) => code == OK case Refused(c) => code == c
    {
      var f := fault(calls);
      calls := calls + 1;
      largest := Max(largest, CommandSize(path, n.key, |value|));
      if f.Refuse? {
        return f.code;
      }
      var r := SetOnce(store, n, value, mode);
      if f.Lost? {
        if f.applied && r.Done? {
          store := r.store;
        }
        return ERROR_IO;
      }
      match r
      case Refused(c) => code := c;
      case Done(s) =>
        store := s;
        code := OK;
    }

    /** CmdGetXAttr */
    method Get(n: Name) returns (value: seq<byte>, code: byte)
      modifies this`calls
      ensures calls == old(calls) + 1
      ensures code == OK ==> n in store && value == store[n]
      ensures fault(old(calls)) == Clean ==> code == if n in store then OK else NO_XATTR
      ensures code == NO_XATTR ==> n !in store
    {
      var f := fault(calls);
      calls := calls + 1;
      value := [];
      if f.Refuse? {
        return [], f.code;
      } else if f.Lost? {
        return [], ERROR_IO;
      } else if n in store {
        return store[n], OK;
      }
      return [], NO_XATTR;
    }

    /** CmdRemoveXAttr */
    method Remove(n: Name) returns (code: byte)
      modifies this`store, this`calls
      ensures calls == old(calls) + 1 && OnlyTouches(n)
      ensures code == OK ==> n !in store
    {
      var f := fault(calls);
      calls := calls + 1;
      if f.Refuse? {
        return f.code;
      }
      if f.Lost? {
        if f.applied {
          store := store - {n};
        }
        return ERROR_IO;
      }
      if n !in store {
        return NO_XATTR;
      }
      store := store - {n};
      code := OK;
    }

    /**
     sendSplitXAttr. Success is one set of the whole value; without faults the code
     is that of the one set, or ERANGE when not even one byte fits a command.
     */
    method SendSplit(n: Name, value: seq<byte>, mode: Mode) returns (code: byte)
      modifies this
      ensures calls >= old(calls) && OnlyTouches(n)
      ensures old(largest) <= MAX_MSG ==> largest <= MAX_MSG
      ensures code == OK ==> SetOnce(old(store), n, value, mode) == Done(store)
      ensures Quiet(old(calls)) ==>
                code == if !Fits(path, n.key, 1) then RANGE
                        else match SetOnce(old(store), n, value, mode) case Done(_) => OK case Refused(c) => c
    {
      var chunkSize := MaxChunkSize(path, n.key);
      if chunkSize == 0 {
        return RANGE;
      }
      var chunk := value;
      if |chunk| > chunkSize {
        chunk := value[..chunkSize];
      }
      code := Send(n, chunk, mode);
      if code != OK {
        assert calls == old(calls) + 1;
        return;
      }
      ghost var sent := chunk;
      var rest := value[|chunk|..];
      while |rest| > 0
        invariant sent + rest == value && code == OK && calls > old(calls)
        invariant OnlyTouches(n) && (old(largest) <= MAX_MSG ==> largest <= MAX_MSG)
        invariant SetOnce(old(store), n, sent, mode) == Done(store)
        decreases |rest|
      {
        var before := calls;
        chunk := rest;
        if |chunk| > chunkSize {
          chunk := rest[..chunkSize];
        }
        SplitIsOneSet(old(store), n, sent, chunk, mode);
        assert n in store;
        code := Send(n, chunk, Append);
        if code != OK {
          assert fault(before) != Clean;
          assert !Quiet(old(calls));
          return;
        }
        assert sent + rest == sent + chunk + rest[|chunk|..] by { assert rest == chunk + rest[|chunk|..]; }
        sent := sent + chunk;
        rest := rest[|chunk|..];
      }
      assert sent == value;
    }

    /** restoreXAttr: success puts the attribute back as it was. */
    method Restore(n: Name, oldValue: seq<byte>, oldExists: bool) returns (code: byte)
      modifies this
      ensures calls >= old(calls) && OnlyTouches(n)
      ensures old(largest) <= MAX_MSG ==> largest <= MAX_MSG
      ensures code == OK ==> if oldExists then n in store && store[n] == oldValue else n !in store
    {
      if !oldExists {
        code := Remove(n);
      } else if Fits(path, n.key, |oldValue|) {
        code := Send(n, oldValue, Normal);
      } else {
        code := SendSplit(n, oldValue, Normal);
      }
    }

    /** validateXAttr for a set. */
    function Validate(key: seq<byte>, flag: Flag): byte
    {
      if key == [] || 0 in key || ModeOf(flag).None? then INVALID
      else if exists i :: 0 <= i < |prefixes| && prefixes[i] <= key then OK
      else STATE_BLOCKED
    }

    /**
     CmdSetXAttr. Success leaves the store as one unbounded set would. A failed
     write that was rolled back successfully leaves it as it was, whatever was lost
     on the way, and so does any failure before a split began. When nothing goes wrong
     on the way the code is that of the one set. No command is ever larger than the limit.
     */
    method SetXAttr(key: seq<byte>, value: seq<byte>, flag: Flag) returns (code: byte, rollback: Option<byte>)
      modifies this
      ensures OnlyTouches(Name(NoFollow(flag), key))
      ensures old(largest) <= MAX_MSG ==> largest <= MAX_MSG
      ensures code == OK ==>
                ModeOf(flag).Some? && SetOnce(old(store), Name(NoFollow(flag), key), value, ModeOf(flag).value) == Done(store)
      ensures code != OK && rollback == Some(OK) ==> store == old(store)
      ensures code != OK && rollback.None? && !fault(old(calls)).Lost? ==> store == old(store)
      ensures Validate(key, flag) != OK ==> code == Validate(key, flag) && calls == old(calls) && store == old(store)
      ensures Quiet(old(calls)) && Validate(key, flag) == OK && (Fits(path, key, |value|) || (autoAppend && Fits(path, key, 1))) ==>
                code == match SetOnce(old(store), Name(NoFollow(flag), key), value, ModeOf(flag).value) case Done(_) => OK case Refused(c) => c
      ensures rollback.Some? ==> autoAppend && !Fits(path, key, |value|)
      ensures !Fits(path, key, |value|) && !autoAppend && Validate(key, flag) == OK ==> code == RANGE && store == old(store)
    {
      rollback := None;
      code := Validate(key, flag);
      if code != OK {
        return;
      }
      var n, mode := Name(NoFollow(flag), key), ModeOf(flag).value;
      if Fits(path, key, |value|) {
        code := Send(n, value, mode);
        return;
      }
      if !autoAppend {
        return RANGE, None;
      }
      var oldValue;
      oldValue, code := Get(n);
      var oldExists := code == OK;
      if !oldExists && code != NO_XATTR {
        return;
      }
      code := SendSplit(n, value, mode);
      if code == OK {
        return;
      }
      var rc := Restore(n, oldValue, oldExists);
      rollback := Some(rc);
      if rc == OK {
        assert store.Keys == old(store).Keys;
        assert forall m :: m in store ==> store[m] == old(store)[m];
      }
    }
  }
}
