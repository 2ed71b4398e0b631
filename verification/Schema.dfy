/**
 The schema analysis that runs before code generation.

 A schema maps struct names to the type names of their fields. Nothing in the
 input language forbids a struct from containing itself, so the generator runs a
 fixpoint over all structs, in map order, and refuses to continue when some size
 stays unknown. `Resolve` turns a struct that passes into the finite type tree
 that the codec theorems are about.
 */
module Schema {
  import opened Bytes
  import opened Codec

  type Schema = map<string, seq<string>>

  function Builtin(name: string): Option<Type> {
    match name
    case "uint8" => Some(Num(1, false))
    case "uint16" => Some(Num(2, false))
    case "uint32" => Some(Num(4, false))
    case "uint64" => Some(Num(8, false))
    case "int8" => Some(Num(1, true))
    case "int16" => Some(Num(2, true))
    case "int32" => Some(Num(4, true))
    case "int64" => Some(Num(8, true))
    case "string" => Some(Str)
    case "[]byte" => Some(Blob)
    case _ => None
  }

  function BuiltinSize(t: Type): nat {
    if t.Num? then t.width else 0
  }

  /** The nesting below `name` bottoms out in builtins after at most `depth` levels. */
  predicate GroundedAt(sc: Schema, name: string, depth: nat)
    decreases depth
  {
    name in sc && depth > 0 &&
    forall i :: 0 <= i < |sc[name]| ==> Builtin(sc[name][i]).Some? || GroundedAt(sc, sc[name][i], depth - 1)
  }

  ghost predicate Grounded(sc: Schema, name: string) {
    exists depth: nat :: GroundedAt(sc, name, depth)
  }

  function Resolve(sc: Schema, name: string, depth: nat): (t: Type)
    requires GroundedAt(sc, name, depth)
    ensures t.Struct? && |t.fields| == |sc[name]|
    decreases depth
  {
    var fs := sc[name];
    Struct(seq(|fs|, i requires 0 <= i < |fs| =>
      if Builtin(fs[i]).Some? then Builtin(fs[i]).value else Resolve(sc, fs[i], depth - 1)))
  }

  /** Total width of the fixed-size scalars of a type: the "POD size". */
  function FixedWidth(t: Type): nat
    decreases t, 0
  {
    if t.Struct? then FixedWidths(t.fields, 0) else BuiltinSize(t)
  }

  function FixedWidths(fs: seq<Type>, i: nat): nat
    requires i <= |fs|
    decreases fs, |fs| - i
  {
    if i == |fs| then 0 else FixedWidth(fs[i]) + FixedWidths(fs, i + 1)
  }

  lemma {:induction false} Deeper(sc: Schema, name: string, d: nat, d': nat)
    requires GroundedAt(sc, name, d) && d <= d'
    ensures GroundedAt(sc, name, d') && Resolve(sc, name, d) == Resolve(sc, name, d')
    decreases d
  {
    var fs := sc[name];
    forall i | 0 <= i < |fs| && Builtin(fs[i]).None?
      ensures GroundedAt(sc, fs[i], d' - 1) && Resolve(sc, fs[i], d - 1) == Resolve(sc, fs[i], d' - 1)
    {
      Deeper(sc, fs[i], d - 1, d' - 1);
    }
    assert Resolve(sc, name, d).fields == Resolve(sc, name, d').fields;
  }

  /** Every struct whose fields are all sized has been sized. */
  ghost predicate Closed(sc: Schema, pod: map<string, int>)
    requires pod.Keys == sc.Keys
  {
    forall name | name in sc :: AllSized(sc, pod, sc[name], 0) ==> pod[name] >= 0
  }

  predicate Sized(sc: Schema, pod: map<string, int>, field: string)
    requires pod.Keys == sc.Keys
  {
    Builtin(field).Some? || (field in sc && pod[field] >= 0)
  }

  predicate AllSized(sc: Schema, pod: map<string, int>, fields: seq<string>, from: nat)
    requires pod.Keys == sc.Keys
  {
    forall i :: from <= i < |fields| ==> Sized(sc, pod, fields[i])
  }

  lemma {:induction false} ClosedReachesGrounded(sc: Schema, pod: map<string, int>, name: string, depth: nat)
    requires pod.Keys == sc.Keys && Closed(sc, pod) && GroundedAt(sc, name, depth)
    ensures pod[name] >= 0
    decreases depth
  {
    var fs := sc[name];
    forall i | 0 <= i < |fs| && Builtin(fs[i]).None? ensures Sized(sc, pod, fs[i]) {
      ClosedReachesGrounded(sc, pod, fs[i], depth - 1);
    }
    assert AllSized(sc, pod, fs, 0);
  }

  function Unsized(pod: map<string, int>): set<string> {
    set name | name in pod && pod[name] < 0
  }

  class Analyzer {
    const schema: Schema
    var pod: map<string, int>
    ghost var rank: nat

    constructor (schema: Schema)
      ensures Valid() && this.schema == schema && Unsized(pod) == schema.Keys
    {
      this.schema := schema;
      pod := map name | name in schema :: -1;
      rank := 0;
    }

    /** Whatever is sized is grounded, and its size is the width of the resolved type. */
    ghost predicate Valid()
      reads this
    {
      && pod.Keys == schema.Keys
      && forall name | name in schema && pod[name] >= 0 ::
           GroundedAt(schema, name, rank) && pod[name] == FixedWidth(Resolve(schema, name, rank))
    }

    /** The inner loop of analyzeStructInfoPODSize: the size of one struct, or -1. */
    method SizeOf(name: string) returns (size: int)
      requires Valid() && name in schema
      ensures size >= 0 <==> AllSized(schema, pod, schema[name], 0)
      ensures size >= 0 ==>
                GroundedAt(schema, name, rank + 1) && size == FixedWidth(Resolve(schema, name, rank + 1))
      ensures size < 0 ==> size == -1
    {
      var fs := schema[name];
      size := 0;
      for i := 0 to |fs|
        invariant size >= 0
        invariant forall k :: 0 <= k < i ==> Sized(schema, pod, fs[k])
        invariant size == SizedPrefix(schema, pod, fs, i)
      {
        if Builtin(fs[i]).Some? {
          size := size + BuiltinSize(Builtin(fs[i]).value);
        } else if fs[i] in schema && pod[fs[i]] >= 0 {
          size := size + pod[fs[i]];
        } else {
          assert !Sized(schema, pod, fs[i]);
          return -1;
        }
      }
      assert GroundedAt(schema, name, rank + 1);
      SizesAdd(schema, pod, name, rank, |fs|);
    }

    /** One pass of analyzeStructInfoPODSize over the map in some order; `n` structs got a size. */
    method Pass() returns (n: nat)
      requires Valid()
      modifies this
      ensures Valid()
      ensures Unsized(pod) <= old(Unsized(pod)) && |Unsized(pod)| + n == |old(Unsized(pod))|
      ensures n == 0 ==> pod == old(pod) && Closed(schema, pod)
    {
      n := 0;
      var todo := schema.Keys;
      while todo != {}
        invariant Valid() && todo <= schema.Keys
        invariant Unsized(pod) <= old(Unsized(pod)) && |Unsized(pod)| + n == |old(Unsized(pod))|
        invariant n == 0 ==> pod == old(pod)
        invariant n == 0 ==> forall name | name in schema && name !in todo ::
                    AllSized(schema, pod, schema[name], 0) ==> pod[name] >= 0
        decreases todo
      {
        var name :| name in todo;
        todo := todo - {name};
        if pod[name] < 0 {
          var size := SizeOf(name);
          if size != -1 {
            var before := pod;
            pod := pod[name := size];
            n := n + 1;
            DeepenAll(schema, before, rank);
            rank := rank + 1;
            assert Unsized(pod) == Unsized(before) - {name};
          }
        }
      }
    }

    /** The driver loop: passes until nothing changes, then every size must be known. */
    method Analyze() returns (ok: bool)
      requires Valid()
      modifies this
      ensures Valid()
      ensures forall name | name in schema :: pod[name] >= 0 <==> Grounded(schema, name)
      ensures ok <==> forall name | name in schema :: Grounded(schema, name)
    {
      var n := Pass();
      while n != 0
        invariant Valid()
        invariant n == 0 ==> Closed(schema, pod)
        decreases |Unsized(pod)| + n
      {
        n := Pass();
      }
      forall name | name in schema ensures pod[name] >= 0 <==> Grounded(schema, name) {
        if Grounded(schema, name) {
          var depth: nat :| GroundedAt(schema, name, depth);
          ClosedReachesGrounded(schema, pod, name, depth);
        }
      }
      ok := forall name | name in schema :: pod[name] >= 0;
    }
  }

  /** The running total of the inner loop after `i` fields. */
  function SizedPrefix(sc: Schema, pod: map<string, int>, fs: seq<string>, i: nat): int
    requires pod.Keys == sc.Keys && i <= |fs|
    requires forall k :: 0 <= k < i ==> Sized(sc, pod, fs[k])
  {
    if i == 0 then 0
    else
      assert Sized(sc, pod, fs[i - 1]);
      SizedPrefix(sc, pod, fs, i - 1) +
         (if Builtin(fs[i - 1]).Some? then BuiltinSize(Builtin(fs[i - 1]).value) else pod[fs[i - 1]])
  }

  ghost predicate SizesCorrect(sc: Schema, pod: map<string, int>, rank: nat) {
    pod.Keys == sc.Keys &&
    forall name | name in sc && pod[name] >= 0 ::
      GroundedAt(sc, name, rank) && pod[name] == FixedWidth(Resolve(sc, name, rank))
  }

  lemma DeepenAll(sc: Schema, pod: map<string, int>, rank: nat)
    requires SizesCorrect(sc, pod, rank)
    ensures SizesCorrect(sc, pod, rank + 1)
  {
    forall name | name in sc && pod[name] >= 0
      ensures GroundedAt(sc, name, rank + 1) && pod[name] == FixedWidth(Resolve(sc, name, rank + 1))
    {
      Deeper(sc, name, rank, rank + 1);
    }
  }

  lemma {:induction false} SizesAdd(sc: Schema, pod: map<string, int>, name: string, rank: nat, i: nat)
    requires SizesCorrect(sc, pod, rank) && name in sc && GroundedAt(sc, name, rank + 1) && i <= |sc[name]|
    requires AllSized(sc, pod, sc[name], 0)
    ensures SizedPrefix(sc, pod, sc[name], i) + FixedWidths(Resolve(sc, name, rank + 1).fields, i)
         == FixedWidth(Resolve(sc, name, rank + 1))
  {
    if i > 0 {
      SizesAdd(sc, pod, name, rank, i - 1);
    }
  }

  /** Struct `a` has a field whose type is struct `b`. */
  predicate Contains(sc: Schema, a: string, b: string) {
    a in sc && b in sc[a] && Builtin(b).None?
  }

  ghost predicate IsChain(sc: Schema, path: seq<string>) {
    forall i, j :: 0 <= i < j < |path| && j == i + 1 ==> Contains(sc, path[i], path[j])
  }

  /** A struct that contains itself, through any number of structs, never gets a size. */
  lemma CyclesAreRefused(sc: Schema, path: seq<string>)
    requires |path| >= 2 && path[0] == path[|path| - 1] && IsChain(sc, path)
    ensures !Grounded(sc, path[0])
  {
    forall depth: nat ensures !GroundedAt(sc, path[0], depth) {
      CycleNotGroundedAt(sc, path, depth);
    }
  }

  lemma {:induction false} CycleNotGroundedAt(sc: Schema, path: seq<string>, depth: nat)
    requires |path| >= 2 && path[0] == path[|path| - 1] && IsChain(sc, path)
    ensures !GroundedAt(sc, path[0], depth)
    decreases depth
  {
    if GroundedAt(sc, path[0], depth) {
      FieldGrounded(sc, path[0], path[1], depth);
      var rotated := path[1..] + [path[1]];
      assert Contains(sc, path[0], path[1]);
      CycleNotGroundedAt(sc, rotated, depth - 1);
    }
  }

  lemma FieldGrounded(sc: Schema, name: string, field: string, depth: nat)
    requires GroundedAt(sc, name, depth) && Contains(sc, name, field)
    ensures depth > 0 && GroundedAt(sc, field, depth - 1)
  {
    var i :| 0 <= i < |sc[name]| && sc[name][i] == field;
  }
}
