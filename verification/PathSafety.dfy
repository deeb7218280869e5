/** Which wire names may become paths below the receive root (src/path_safety.rs). */
module PathSafety {
  import opened Options
  import opened Names
  import opened Utf8

  type Path = seq<Name>

  const SLASH: Byte := 0x2F
  const BACKSLASH: Byte := 0x5C
  const COLON: Byte := 0x3A

  /** A component that names an entry of its own directory. */
  predicate Plain(c: Name) {
    c != [] && c != [DOT] && c != [DOT, DOT] && SLASH !in c
  }

  predicate AllPlain(path: Path) {
    forall i :: 0 <= i < |path| ==> Plain(path[i])
  }

  /** The pieces of `name` between slashes; there is always one more piece than slashes. */
  function Split(name: Bytes): (pieces: seq<Bytes>)
    ensures |pieces| > 0
  {
    if name == [] then [[]]
    else
      var rest := Split(name[..|name| - 1]);
      var last := name[|name| - 1];
      if last == SLASH then rest + [[]]
      else rest[|rest| - 1 := rest[|rest| - 1] + [last]]
  }

  /** `Path::components` keeps a piece unless it is empty or `.`. */
  function Components(pieces: seq<Bytes>): Path {
    if pieces == [] then []
    else
      var last := pieces[|pieces| - 1];
      Components(pieces[..|pieces| - 1]) + if last == [] || last == [DOT] then [] else [last]
  }

  predicate SafeBytes(name: Bytes) {
    name != [] && 0 !in name && BACKSLASH !in name && COLON !in name
  }

  /** What a sender may ask for: a relative path that never climbs and names something. */
  predicate Acceptable(name: Bytes) {
    && SafeBytes(name)
    && name[0] != SLASH
    && [DOT, DOT] !in Split(name)
    && Components(Split(name)) != []
  }

  /** `safe_join`, up to the join with the receive root. */
  method SafeJoin(name: Bytes) returns (relative: Option<Path>)
    ensures relative.Some? <==> Acceptable(name)
    ensures relative.Some? ==> relative.value == Components(Split(name))
  {
    if name == [] || 0 in name || BACKSLASH in name || COLON in name {
      return None;
    }
    if name[0] == SLASH {
      return None;
    }
    var pieces := Split(name);
    var path: Path := [];
    var i := 0;
    while i < |pieces|
      invariant 0 <= i <= |pieces|
      invariant path == Components(pieces[..i])
      invariant [DOT, DOT] !in pieces[..i]
    {
      assert pieces[..i + 1][..i] == pieces[..i];
      if pieces[i] == [DOT, DOT] {
        return None;
      }
      if pieces[i] != [] && pieces[i] != [DOT] {
        path := path + [pieces[i]];
      }
      i := i + 1;
    }
    assert pieces[..i] == pieces;
    if path == [] {
      return None;
    }
    return Some(path);
  }

  // ---- what an accepted name is ----

  lemma {:induction false} SplitPieces(name: Bytes)
    ensures forall i :: 0 <= i < |Split(name)| ==> SLASH !in Split(name)[i]
  {
    if name != [] { SplitPieces(name[..|name| - 1]); }
  }

  lemma {:induction false} ComponentsPlain(pieces: seq<Bytes>)
    requires forall i :: 0 <= i < |pieces| ==> SLASH !in pieces[i]
    requires [DOT, DOT] !in pieces
    ensures AllPlain(Components(pieces))
  {
    if pieces != [] { ComponentsPlain(pieces[..|pieces| - 1]); }
  }

  /** An accepted name is a nonempty list of components, none of them empty, `.` or `..`. */
  lemma AcceptedIsPlain(name: Bytes)
    requires Acceptable(name)
    ensures Components(Split(name)) != [] && AllPlain(Components(Split(name)))
  {
    SplitPieces(name);
    ComponentsPlain(Split(name));
  }

  lemma {:induction false} DecimalPlain(n: nat)
    ensures SLASH !in Decimal(n)
  {
    if n >= 10 { DecimalPlain(n / 10); }
  }

  /** Every candidate of a plain leaf is plain, whatever the truncation cuts off. */
  lemma CandidatePlain(leaf: Name, attempt: nat)
    requires Plain(leaf) && attempt <= MAX_COLLISION_ATTEMPTS
    ensures Plain(Candidate(leaf, attempt))
  {
    if attempt > 0 {
      SuffixLength(attempt);
      DecimalPlain(attempt);
      BudgetPositive(leaf, attempt);
      var stem := Truncated(Stem(leaf, attempt), Budget(leaf, attempt));
      assert forall c :: c in stem ==> c in Stem(leaf, attempt) by {
        assert stem == Stem(leaf, attempt)[..|stem|];
      }
      assert forall c :: c in Stem(leaf, attempt) || c in Extension(leaf, attempt) ==> c in leaf;
      assert SLASH !in stem + Suffix(attempt) + Extension(leaf, attempt);
    }
  }

  function Join(path: Path): Bytes {
    if path == [] then []
    else if |path| == 1 then path[0]
    else Join(path[..|path| - 1]) + [SLASH] + path[|path| - 1]
  }

  lemma {:induction false} SplitAppend(a: Bytes, c: Bytes)
    requires SLASH !in c
    ensures var p := Split(a); Split(a + c) == p[|p| - 1 := p[|p| - 1] + c]
  {
    if c == [] {
      var p := Split(a);
      assert a + c == a;
      assert p[|p| - 1] + c == p[|p| - 1];
    } else {
      var k := |c| - 1;
      assert (a + c)[..|a| + k] == a + c[..k];
      SplitAppend(a, c[..k]);
      var p := Split(a);
      assert p[|p| - 1] + c == (p[|p| - 1] + c[..k]) + [c[k]];
      assert (a + c)[|a| + k] == c[k];
    }
  }

  lemma SplitComponent(c: Bytes)
    requires SLASH !in c
    ensures Split(c) == [c]
  {
    var nothing: Bytes := [];
    SplitAppend(nothing, c);
    assert nothing + c == c;
    assert Split(nothing) == [nothing];
  }

  lemma {:induction false} ComponentsOfPlain(path: Path)
    requires AllPlain(path)
    ensures Components(path) == path
  {
    if path != [] {
      ComponentsOfPlain(path[..|path| - 1]);
      assert path == path[..|path| - 1] + [path[|path| - 1]];
    }
  }

  lemma SplitSlash(a: Bytes, c: Bytes)
    requires SLASH !in c
    ensures Split(a + [SLASH] + c) == Split(a) + [c]
  {
    var head := a + [SLASH];
    assert head[..|head| - 1] == a;
    assert Split(head) == Split(a) + [[]];
    SplitAppend(head, c);
    assert [] + c == c;
    assert (Split(a) + [[]])[|Split(a)| := c] == Split(a) + [c];
  }

  lemma {:induction false} SplitJoin(path: Path)
    requires path != [] && AllPlain(path)
    ensures Split(Join(path)) == path && Join(path) != [] && Join(path)[0] != SLASH
  {
    var k := |path| - 1;
    assert Plain(path[k]);
    if k == 0 {
      SplitComponent(path[0]);
    } else {
      SplitJoin(path[..k]);
      SplitSlash(Join(path[..k]), path[k]);
      assert path == path[..k] + [path[k]];
    }
  }

  /** Splitting undoes joining: every plain path can be asked for and is understood exactly. */
  lemma JoinRoundTrip(path: Path)
    requires path != [] && AllPlain(path)
    ensures Split(Join(path)) == path && Components(Split(Join(path))) == path
    ensures Acceptable(Join(path)) <==> SafeBytes(Join(path))
  {
    SplitJoin(path);
    ComponentsOfPlain(path);
    assert [DOT, DOT] !in path;
  }
}
