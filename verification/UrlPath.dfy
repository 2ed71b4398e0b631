/** Which request paths are accepted, and where an accepted path leads. */
module UrlPath {
  lemma Shifted(v: string, a: nat, i: nat, j: nat)
    requires a + j <= |v| && i <= j
    ensures v[a..][i..j] == v[a + i..a + j]
  {
  }

  predicate Occurs(v: string, w: string, i: nat) { i + |w| <= |v| && v[i..i + |w|] == w }

  predicate Contains(v: string, w: string) { exists i: nat :: i <= |v| && Occurs(v, w, i) }

  predicate HasSuffix(v: string, w: string) { |w| <= |v| && v[|v| - |w|..] == w }

  /** The test as the program makes it. */
  predicate IsUrlValid(v: string) {
    && |v| != 0 && v[0] == '/'
    && !Contains(v, "/../") && !HasSuffix(v, "/..")
    && !Contains(v, "/./") && !HasSuffix(v, "/.")
  }

  // ---- Segments ----

  /** Puts one more character in front of a split string. */
  function Push(c: char, segs: seq<string>): (r: seq<string>)
    requires segs != []
    ensures r != []
  {
    if c == '/' then [""] + segs else [[c] + segs[0]] + segs[1..]
  }

  /** The pieces between slashes, empty ones included. */
  function Split(v: string): (segs: seq<string>)
    ensures segs != []
  {
    if v == "" then [""] else Push(v[0], Split(v[1..]))
  }

  lemma PushAppend(c: char, xs: seq<string>, ys: seq<string>)
    requires xs != []
    ensures Push(c, xs + ys) == Push(c, xs) + ys
  {
    assert (xs + ys)[0] == xs[0] && (xs + ys)[1..] == xs[1..] + ys;
    assert Push(c, xs + ys) == Push(c, xs) + ys;
  }

  /** `v[i..j]` stands between slashes (or the ends) and holds none. */
  predicate IsSegment(v: string, i: nat, j: nat) {
    && i <= j <= |v| && (forall k :: i <= k < j ==> v[k] != '/')
    && (i == 0 || v[i - 1] == '/') && (j == |v| || v[j] == '/')
  }

  lemma {:induction false} FirstSegment(v: string)
    ensures IsSegment(v, 0, |Split(v)[0]|) && v[..|Split(v)[0]|] == Split(v)[0]
  {
    if v != "" && v[0] != '/' {
      var f := Split(v[1..])[0];
      FirstSegment(v[1..]);
      assert v[..1 + |f|] == [v[0]] + v[1..][..|f|];
    }
  }

  /** Every piece is a segment of the string. */
  lemma {:induction false} PieceIsSegment(v: string, k: nat) returns (i: nat, j: nat)
    requires k < |Split(v)|
    ensures IsSegment(v, i, j) && v[i..j] == Split(v)[k] && (k > 0 ==> i > 0)
    decreases |v|, k
  {
    if k == 0 {
      FirstSegment(v);
      i, j := 0, |Split(v)[0]|;
      assert v[0..j] == v[..j];
    } else if v[0] == '/' {
      i, j := PieceIsSegment(v[1..], k - 1);
      Shifted(v, 1, i, j);
      i, j := i + 1, j + 1;
    } else {
      i, j := PieceIsSegment(v[1..], k);
      Shifted(v, 1, i, j);
      i, j := i + 1, j + 1;
    }
  }

  /** And every segment is one of the pieces. */
  lemma {:induction false} SegmentIsPiece(v: string, i: nat, j: nat)
    requires IsSegment(v, i, j)
    ensures v[i..j] in Split(v)
    ensures i > 0 ==> v[i..j] in Split(v)[1..]
    decreases |v|
  {
    if i == 0 {
      FirstSegment(v);
      var n := |Split(v)[0]|;
      assert j == n;
      assert v[i..j] == v[..n] == Split(v)[0];
    } else {
      var w := v[1..];
      Shifted(v, 1, i - 1, j - 1);
      SegmentIsPiece(w, i - 1, j - 1);
      if v[0] != '/' {
        assert Split(v)[1..] == Split(w)[1..];
        assert i - 1 > 0;
      } else {
        assert Split(v)[1..] == Split(w);
      }
    }
  }

  /** Absolute, and never naming the current or the parent directory. */
  predicate NoDots(segs: seq<string>) { "." !in segs && ".." !in segs }

  lemma SegmentFound(v: string, w: string, i: nat)
    requires i > 0 && IsSegment(v, i, i + |w|) && v[i..i + |w|] == w
    ensures Contains(v, "/" + w + "/") || HasSuffix(v, "/" + w)
  {
    var n := |w|;
    assert v[i - 1..i + n] == "/" + w;
    if i + n == |v| {
      assert v[|v| - (n + 1)..] == v[i - 1..i + n];
    } else {
      assert v[i - 1..i + n + 1] == "/" + w + "/";
      assert Occurs(v, "/" + w + "/", i - 1);
    }
  }

  lemma OccurrenceIsSegment(v: string, w: string, k: nat)
    requires '/' !in w && Occurs(v, "/" + w + "/", k)
    ensures IsSegment(v, k + 1, k + 1 + |w|) && v[k + 1..k + 1 + |w|] == w
  {
    var n, s := |w|, "/" + w + "/";
    assert forall x :: 0 <= x < n + 2 ==> v[k + x] == v[k..k + n + 2][x] == s[x];
    assert v[k] == s[0] && v[k + n + 1] == s[n + 1];
    assert forall x :: 0 <= x < n ==> v[k + 1 + x] == w[x];
  }

  lemma SuffixIsSegment(v: string, w: string)
    requires '/' !in w && HasSuffix(v, "/" + w)
    ensures IsSegment(v, |v| - |w|, |v|) && v[|v| - |w|..|v|] == w
  {
    var n, s := |w|, "/" + w;
    var d := |v| - (n + 1);
    assert forall x :: 0 <= x < n + 1 ==> v[d + x] == v[d..][x] == s[x];
    assert v[d] == s[0];
    assert forall x :: 0 <= x < n ==> v[d + 1 + x] == w[x];
  }

  lemma PieceFound(v: string, w: string, segs: seq<string>, k: nat)
    requires |v| != 0 && v[0] == '/' && w != "" && segs == Split(v) && k < |segs| && segs[k] == w
    ensures Contains(v, "/" + w + "/") || HasSuffix(v, "/" + w)
  {
    assert segs[0] == "";
    var i, j := PieceIsSegment(v, k);
    SegmentFound(v, w, i);
  }

  lemma FoundIsPiece(v: string, w: string)
    requires '/' !in w && (Contains(v, "/" + w + "/") || HasSuffix(v, "/" + w))
    ensures w in Split(v)
  {
    if HasSuffix(v, "/" + w) {
      SuffixIsSegment(v, w);
      SegmentIsPiece(v, |v| - |w|, |v|);
    } else {
      var k: nat :| k <= |v| && Occurs(v, "/" + w + "/", k);
      OccurrenceIsSegment(v, w, k);
      SegmentIsPiece(v, k + 1, k + 1 + |w|);
    }
  }

  /** In an absolute path a name is a segment exactly when one of the two tests finds it. */
  lemma SegmentIff(v: string, w: string)
    requires |v| != 0 && v[0] == '/' && w != "" && '/' !in w
    ensures w in Split(v) <==> Contains(v, "/" + w + "/") || HasSuffix(v, "/" + w)
  {
    var segs := Split(v);
    if w in segs {
      var k: nat :| k < |segs| && segs[k] == w;
      PieceFound(v, w, segs, k);
    } else if Contains(v, "/" + w + "/") || HasSuffix(v, "/" + w) {
      FoundIsPiece(v, w);
    }
  }

  lemma DotTests()
    ensures "/" + "." + "/" == "/./" && "/" + ".." + "/" == "/../" && "/" + "." == "/." && "/" + ".." == "/.."
  {
  }

  /** The substring tests decide exactly this. */
  lemma IsUrlValidIff(v: string)
    ensures IsUrlValid(v) <==> |v| != 0 && v[0] == '/' && NoDots(Split(v))
  {
    if |v| != 0 && v[0] == '/' {
      SegmentIff(v, ".");
      SegmentIff(v, "..");
      DotTests();
    }
  }

  // ---- Where root plus path leads ----

  /** One step of lexical normalisation of an absolute path. */
  function Enter(at: seq<string>, seg: string): seq<string> {
    if seg == "" || seg == "." then at
    else if seg == ".." then (if at == [] then [] else at[..|at| - 1])
    else at + [seg]
  }

  function Walk(at: seq<string>, segs: seq<string>): seq<string>
    decreases |segs|
  {
    if segs == [] then at else Walk(Enter(at, segs[0]), segs[1..])
  }

  function Normal(path: string): seq<string> { Walk([], Split(path)) }

  function NonEmpty(segs: seq<string>): seq<string> {
    if segs == [] then [] else (if segs[0] == "" then [] else [segs[0]]) + NonEmpty(segs[1..])
  }

  lemma {:induction false} SplitJoined(root: string, rest: string)
    ensures Split(root + "/" + rest) == Split(root) + Split(rest)
  {
    var v := root + "/" + rest;
    if root == "" {
      assert v[1..] == rest;
    } else {
      SplitJoined(root[1..], rest);
      assert v[1..] == root[1..] + "/" + rest;
      PushAppend(root[0], Split(root[1..]), Split(rest));
    }
  }

  lemma {:induction false} WalkJoined(at: seq<string>, xs: seq<string>, ys: seq<string>)
    ensures Walk(at, xs + ys) == Walk(Walk(at, xs), ys)
    decreases |xs|
  {
    if xs == [] {
      assert xs + ys == ys;
    } else {
      assert (xs + ys)[1..] == xs[1..] + ys;
      WalkJoined(Enter(at, xs[0]), xs[1..], ys);
    }
  }

  lemma {:induction false} WalkPlain(at: seq<string>, segs: seq<string>)
    requires NoDots(segs)
    ensures Walk(at, segs) == at + NonEmpty(segs)
    decreases |segs|
  {
    if segs != [] {
      assert NoDots(segs[1..]) && segs[0] in segs;
      WalkPlain(Enter(at, segs[0]), segs[1..]);
      var one := if segs[0] == "" then [] else [segs[0]];
      assert Enter(at, segs[0]) == at + one;
      assert at + one + NonEmpty(segs[1..]) == at + (one + NonEmpty(segs[1..]));
    }
  }

  /** An accepted path stays below the root and names exactly its non-empty segments there. */
  lemma AcceptedStaysBelow(root: string, path: string)
    requires IsUrlValid(path)
    ensures Normal(root + path) == Normal(root) + NonEmpty(Split(path))
  {
    var rest := path[1..];
    IsUrlValidIff(path);
    assert path == "/" + rest && root + path == root + "/" + rest;
    SplitJoined(root, rest);
    WalkJoined([], Split(root), Split(rest));
    assert NoDots(Split(rest)) by {
      assert Split(path) == [""] + Split(rest);
    }
    WalkPlain(Normal(root), Split(rest));
    assert NonEmpty(Split(path)) == NonEmpty(Split(rest)) by {
      assert Split(path)[1..] == Split(rest);
    }
  }
}
