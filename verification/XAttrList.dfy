/**
 Listing extended attributes: the server filters a NUL-separated key list, sends it
 in pieces, the client puts the pieces together and filters again.
 */
module XAttrList {
  import opened Bytes
  import opened Protocol

  const MAX_PAYLOAD := MAX_MSG - 2

  type Key = seq<byte>

  predicate ValidKey(k: Key) { k != [] && 0 !in k }

  predicate ValidKeys(ks: seq<Key>) { forall i :: 0 <= i < |ks| ==> ValidKey(ks[i]) }

  /** The wire form: every key followed by a NUL. */
  function Join(ks: seq<Key>): seq<byte> {
    if ks == [] then [] else ks[0] + [0] + Join(ks[1..])
  }

  /** bytes.IndexByte(data, 0), or -1. */
  function IndexZero(data: seq<byte>): (i: int)
    ensures -1 <= i < |data|
    ensures i >= 0 ==> data[i] == 0 && 0 !in data[..i]
    ensures i == -1 ==> 0 !in data
  {
    if data == [] then -1
    else if data[0] == 0 then 0
    else
      var i := IndexZero(data[1..]);
      if i < 0 then -1
      else
        assert data[..i + 1] == [data[0]] + data[1..][..i];
        i + 1
  }

  /** Parsing back; None for a list that is not the wire form of any keys. */
  function Keys(data: seq<byte>): Option<seq<Key>>
    decreases |data|
  {
    if data == [] then Some([])
    else
      var end := IndexZero(data);
      if end <= 0 then None
      else
        match Keys(data[end + 1..])
        case None => None
        case Some(ks) => Some([data[..end]] + ks)
  }

  lemma {:induction false} KeysAreJoined(data: seq<byte>)
    ensures Keys(data).Some? ==> ValidKeys(Keys(data).value) && Join(Keys(data).value) == data
    decreases |data|
  {
    if data != [] && IndexZero(data) > 0 {
      var end := IndexZero(data);
      KeysAreJoined(data[end + 1..]);
      if Keys(data).Some? {
        var rest := Keys(data[end + 1..]).value;
        assert ([data[..end]] + rest)[1..] == rest;
        assert data == data[..end] + [0] + data[end + 1..];
      }
    }
  }

  lemma {:induction false} FirstZero(k: Key, rest: seq<byte>)
    requires 0 !in k
    ensures IndexZero(k + [0] + rest) == |k|
  {
    var data := k + [0] + rest;
    if k != [] {
      assert data[0] == k[0] && k[0] in k;
      assert data[1..] == k[1..] + [0] + rest;
      FirstZero(k[1..], rest);
    }
  }

  lemma {:induction false} JoinIsParsed(ks: seq<Key>)
    requires ValidKeys(ks)
    ensures Keys(Join(ks)) == Some(ks)
  {
    if ks != [] {
      var k, rest := ks[0], Join(ks[1..]);
      var data := Join(ks);
      assert data == k + [0] + rest;
      JoinIsParsed(ks[1..]);
      var end := IndexZero(data);
      FirstZero(k, rest);
      assert data[..end] == k && data[end + 1..] == rest;
      assert [k] + ks[1..] == ks;
    }
  }

  predicate Allowed(k: Key, prefixes: seq<Key>) {
    exists i :: 0 <= i < |prefixes| && prefixes[i] <= k
  }

  function Select(ks: seq<Key>, prefixes: seq<Key>): seq<Key> {
    if ks == [] then []
    else (if Allowed(ks[0], prefixes) then [ks[0]] else []) + Select(ks[1..], prefixes)
  }

  function Filtered(data: seq<byte>, prefixes: seq<Key>): Option<seq<byte>> {
    match Keys(data)
    case None => None
    case Some(ks) => Some(Join(Select(ks, prefixes)))
  }

  /** A well-formed list ends with a NUL. */
  lemma {:induction false} EndsWithNul(data: seq<byte>)
    requires data != [] && Keys(data).Some?
    ensures data[|data| - 1] == 0
    decreases |data|
  {
    var end := IndexZero(data);
    if data[end + 1..] != [] { EndsWithNul(data[end + 1..]); }
  }

  method HasAllowedPrefix(key: Key, prefixes: seq<Key>) returns (ok: bool)
    ensures ok <==> Allowed(key, prefixes)
  {
    for i := 0 to |prefixes|
      invariant forall k :: 0 <= k < i ==> !(prefixes[k] <= key)
    {
      if prefixes[i] <= key {
        return true;
      }
    }
    ok := false;
  }

  /** The loop both filters share, from `data` on with `filtered` already kept. */
  function FilterLoop(data: seq<byte>, prefixes: seq<Key>, filtered: seq<byte>): Option<seq<byte>>
    decreases |data|
  {
    if data == [] then Some(filtered)
    else
      var end := IndexZero(data);
      if end <= 0 then None
      else
        FilterLoop(data[end + 1..], prefixes,
                   if Allowed(data[..end], prefixes) then filtered + data[..end + 1] else filtered)
  }

  lemma {:induction false} FilterLoopIs(data: seq<byte>, prefixes: seq<Key>, filtered: seq<byte>)
    ensures FilterLoop(data, prefixes, filtered) ==
            match Filtered(data, prefixes) case None => None case Some(f) => Some(filtered + f)
    decreases |data|
  {
    if data == [] {
      assert filtered + [] == filtered;
    } else if IndexZero(data) > 0 {
      var end := IndexZero(data);
      var key, rest := data[..end], data[end + 1..];
      var kept := if Allowed(key, prefixes) then filtered + data[..end + 1] else filtered;
      FilterLoopIs(rest, prefixes, kept);
      if Keys(rest).Some? {
        var ks := Keys(rest).value;
        assert ([key] + ks)[1..] == ks;
        if Allowed(key, prefixes) {
          assert ([key] + Select(ks, prefixes))[1..] == Select(ks, prefixes);
          assert data[..end + 1] == key + [0];
          assert filtered + (key + [0]) + Join(Select(ks, prefixes)) == filtered + (key + [0] + Join(Select(ks, prefixes)));
        } else {
          assert [] + Select(ks, prefixes) == Select(ks, prefixes);
        }
      }
    }
  }

  lemma FilterFromStart(data: seq<byte>, prefixes: seq<Key>)
    ensures FilterLoop(data, prefixes, []) == Filtered(data, prefixes)
  {
    FilterLoopIs(data, prefixes, []);
    if Filtered(data, prefixes).Some? { assert [] + Filtered(data, prefixes).value == Filtered(data, prefixes).value; }
  }

  /** The client's filterXAttrList. */
  method ClientFilter(list: seq<byte>, prefixes: seq<Key>) returns (r: Option<seq<byte>>)
    ensures r == Filtered(list, prefixes)
  {
    var data, filtered := list, [];
    while data != []
      invariant FilterLoop(data, prefixes, filtered) == FilterLoop(list, prefixes, [])
      decreases |data|
    {
      var end := IndexZero(data);
      if end <= 0 {
        FilterFromStart(list, prefixes);
        return None;
      }
      var ok := HasAllowedPrefix(data[..end], prefixes);
      if ok {
        filtered := filtered + data[..end + 1];
      }
      data := data[end + 1..];
    }
    FilterFromStart(list, prefixes);
    r := Some(filtered);
  }

  /** The server's filterXAttrList, with its early check of the last byte. */
  method ServerFilter(list: seq<byte>, prefixes: seq<Key>) returns (r: Option<seq<byte>>)
    ensures r == Filtered(list, prefixes)
  {
    if |list| == 0 {
      return Some(list);
    }
    if list[|list| - 1] != 0 {
      if Keys(list).Some? { EndsWithNul(list); }
      return None;
    }
    var data, filtered := list, [];
    while |data| > 0
      invariant FilterLoop(data, prefixes, filtered) == FilterLoop(list, prefixes, [])
      decreases |data|
    {
      var end := IndexZero(data);
      if end <= 0 {
        FilterFromStart(list, prefixes);
        return None;
      }
      var ok := HasAllowedPrefix(data[..end], prefixes);
      if ok {
        filtered := filtered + data[..end + 1];
      }
      data := data[end + 1..];
    }
    FilterFromStart(list, prefixes);
    r := Some(filtered);
  }

  /** Both filters accept the same byte strings: the wire forms of lists of non-empty NUL-free keys. */
  lemma AcceptedIff(data: seq<byte>, prefixes: seq<Key>)
    ensures Filtered(data, prefixes).Some? <==> exists ks :: ValidKeys(ks) && Join(ks) == data
  {
    if Keys(data).Some? {
      KeysAreJoined(data);
    } else if ks :| ValidKeys(ks) && Join(ks) == data {
      JoinIsParsed(ks);
    }
  }

  // ---- Pieces ----

  datatype Msg = Msg(code: byte, data: seq<byte>)

  function Pieces(data: seq<byte>): (ms: seq<Msg>)
    ensures ms != []
    decreases |data|
  {
    if |data| > MAX_PAYLOAD then [Msg(PARTIAL, data[..MAX_PAYLOAD])] + Pieces(data[MAX_PAYLOAD..]) else [Msg(OK, data)]
  }

  /** writeXAttrData */
  method SendData(data: seq<byte>) returns (sent: seq<Msg>)
    ensures sent == Pieces(data)
    ensures forall i :: 0 <= i < |sent| ==> 2 + |sent[i].data| <= MAX_MSG
    ensures forall i :: 0 <= i < |sent| ==> (sent[i].code == OK <==> i == |sent| - 1)
  {
    if |data| == 0 {
      return [Msg(OK, [])];
    }
    sent := [];
    var rest := data;
    while |rest| > MAX_PAYLOAD
      invariant sent + Pieces(rest) == Pieces(data)
      invariant forall i :: 0 <= i < |sent| ==> 2 + |sent[i].data| <= MAX_MSG && sent[i].code == PARTIAL
      decreases |rest|
    {
      var m := Msg(PARTIAL, rest[..MAX_PAYLOAD]);
      assert sent + ([m] + Pieces(rest[MAX_PAYLOAD..])) == sent + [m] + Pieces(rest[MAX_PAYLOAD..]);
      sent := sent + [m];
      rest := rest[MAX_PAYLOAD..];
    }
    sent := sent + [Msg(OK, rest)];
  }

  datatype Received = Data(data: seq<byte>) | Failed(code: byte) | Waiting

  function Collect(ms: seq<Msg>, acc: seq<byte>): Received
    decreases |ms|
  {
    if ms == [] then Waiting
    else if ms[0].code != OK && ms[0].code != PARTIAL then Failed(ms[0].code)
    else if ms[0].code == OK then Data(acc + ms[0].data)
    else Collect(ms[1..], acc + ms[0].data)
  }

  /** readXAttrData */
  method ReceiveData(ms: seq<Msg>) returns (r: Received)
    ensures r == Collect(ms, [])
  {
    var data := [];
    for i := 0 to |ms|
      invariant Collect(ms[i..], data) == Collect(ms, [])
    {
      assert ms[i..][0] == ms[i] && ms[i..][1..] == ms[i + 1..];
      if ms[i].code != OK && ms[i].code != PARTIAL {
        return Failed(ms[i].code);
      }
      data := data + ms[i].data;
      if ms[i].code == OK {
        return Data(data);
      }
    }
    r := Waiting;
  }

  lemma {:induction false} PiecesCollect(data: seq<byte>, acc: seq<byte>)
    ensures Collect(Pieces(data), acc) == Data(acc + data)
    decreases |data|
  {
    if |data| > MAX_PAYLOAD {
      var head, rest := data[..MAX_PAYLOAD], data[MAX_PAYLOAD..];
      assert Pieces(data)[1..] == Pieces(rest);
      PiecesCollect(rest, acc + head);
      assert acc + head + rest == acc + (head + rest) && head + rest == data;
    }
  }

  // ---- The whole pipeline ----

  function SelectBoth(ks: seq<Key>, ps: seq<Key>, qs: seq<Key>): seq<Key> {
    if ks == [] then []
    else (if Allowed(ks[0], ps) && Allowed(ks[0], qs) then [ks[0]] else []) + SelectBoth(ks[1..], ps, qs)
  }

  lemma {:induction false} SelectTwice(ks: seq<Key>, ps: seq<Key>, qs: seq<Key>)
    ensures Select(Select(ks, ps), qs) == SelectBoth(ks, ps, qs)
    ensures ValidKeys(ks) ==> ValidKeys(Select(ks, ps))
  {
    if ks != [] {
      SelectTwice(ks[1..], ps, qs);
      var rest := Select(ks[1..], ps);
      if Allowed(ks[0], ps) {
        assert ([ks[0]] + rest)[1..] == rest;
      } else {
        assert [] + rest == rest;
      }
    }
  }

  /** Listing end to end, server prefixes `ps` and client prefixes `qs`: exactly the keys that pass both, in order. */
  method ListKeys(ks: seq<Key>, ps: seq<Key>, qs: seq<Key>) returns (result: seq<byte>)
    requires ValidKeys(ks)
    ensures Keys(result) == Some(SelectBoth(ks, ps, qs))
  {
    var filtered := ServerFilter(Join(ks), ps);
    JoinIsParsed(ks);
    var sent := SendData(filtered.value);
    var got := ReceiveData(sent);
    PiecesCollect(filtered.value, []);
    assert [] + filtered.value == filtered.value;
    SelectTwice(ks, ps, qs);
    JoinIsParsed(Select(ks, ps));
    var r := ClientFilter(got.data, qs);
    SelectTwice(Select(ks, ps), qs, []);
    JoinIsParsed(Select(Select(ks, ps), qs));
    result := r.value;
  }
}
