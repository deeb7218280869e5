/** The ` (n)` series of names a colliding file can take (src/core/sink.rs:271-325). */
module Names {
  import opened Options
  import opened Utf8

  type Name = Bytes

  const MAX_COMPONENT_BYTES: nat := 255

  const MAX_COLLISION_ATTEMPTS: nat := 1024

  const USIZE_LIMIT: nat := 0x1_0000_0000_0000_0000

  const DOT: Byte := 0x2E

  // ---- decimals ----

  function Decimal(n: nat): Bytes {
    if n < 10 then [0x30 + n as Byte] else Decimal(n / 10) + [0x30 + (n % 10) as Byte]
  }

  function DecimalValue(s: Bytes): int {
    if s == [] then 0 else 10 * DecimalValue(s[..|s| - 1]) + (s[|s| - 1] as int - 0x30)
  }

  lemma {:induction false} DecimalRoundTrip(n: nat)
    ensures DecimalValue(Decimal(n)) == n
  {
    if n < 10 {
      assert Decimal(n)[..0] == [];
    } else {
      DecimalRoundTrip(n / 10);
      assert Decimal(n)[..|Decimal(n)| - 1] == Decimal(n / 10);
    }
  }

  predicate Ascii(s: Bytes) {
    forall i :: 0 <= i < |s| ==> s[i] < 0x80
  }

  lemma {:induction false} AsciiValid(s: Bytes)
    requires Ascii(s)
    ensures Valid(s)
  {
    if s != [] { AsciiValid(s[1..]); }
  }

  lemma {:induction false} DecimalAscii(n: nat)
    ensures Ascii(Decimal(n))
  {
    if n >= 10 { DecimalAscii(n / 10); }
  }

  function Pow10(k: nat): nat {
    if k == 0 then 1 else 10 * Pow10(k - 1)
  }

  lemma {:induction false} DecimalLength(n: nat, k: nat)
    requires k >= 1 && n < Pow10(k)
    ensures 1 <= |Decimal(n)| <= k
  {
    if n >= 10 {
      DecimalLength(n / 10, k - 1);
    }
  }

  // ---- candidates ----

  /** A blank and the number in parentheses. */
  function Suffix(attempt: nat): Bytes {
    [0x20, 0x28] + Decimal(attempt) + [0x29]
  }

  /** The last dot, ignoring one in front; `|s|` when there is none. */
  function ExtensionStart(s: Name): (i: nat)
    ensures 0 < i <= |s| || (i == 0 && s == [])
    ensures i < |s| ==> s[i] == DOT
  {
    LastDot(s, |s|)
  }

  function LastDot(s: Name, n: nat): (i: nat)
    requires n <= |s|
    ensures i <= |s| && (s != [] ==> i > 0) && (i < |s| ==> i < n && s[i] == DOT)
    ensures i < |s| ==> forall k :: i < k < n ==> s[k] != DOT
    ensures i == |s| ==> forall k :: 0 < k < n ==> s[k] != DOT
  {
    if n <= 1 then |s| else if s[n - 1] == DOT then n - 1 else LastDot(s, n - 1)
  }

  /** Whether the extension is too long to survive next to the suffix. */
  predicate DropsExtension(original: Name, attempt: nat) {
    |original| - ExtensionStart(original) + |Suffix(attempt)| >= MAX_COMPONENT_BYTES
  }

  function Stem(original: Name, attempt: nat): Name {
    if DropsExtension(original, attempt) then original else original[..ExtensionStart(original)]
  }

  function Extension(original: Name, attempt: nat): Name {
    if DropsExtension(original, attempt) then [] else original[ExtensionStart(original)..]
  }

  /** The subtraction behind this budget must not underflow; see `CollisionLeafWellFormed`. */
  function Budget(original: Name, attempt: nat): int {
    MAX_COMPONENT_BYTES - |Suffix(attempt)| - |Extension(original, attempt)|
  }

  function CollisionLeaf(original: Name, attempt: nat): Name
    requires Budget(original, attempt) >= 0
  {
    Truncated(Stem(original, attempt), Budget(original, attempt)) + Suffix(attempt) + Extension(original, attempt)
  }

  lemma SuffixLength(attempt: nat)
    requires attempt < USIZE_LIMIT
    ensures 4 <= |Suffix(attempt)| <= 23
    ensures attempt <= MAX_COLLISION_ATTEMPTS ==> |Suffix(attempt)| <= 7
  {
    assert Pow10(20) == 100_000_000_000_000_000_000 by {
      assert Pow10(10) == 10_000_000_000;
    }
    DecimalLength(attempt, 20);
    if attempt <= MAX_COLLISION_ATTEMPTS {
      assert Pow10(4) == 10_000;
      DecimalLength(attempt, 4);
    }
  }

  lemma BudgetPositive(original: Name, attempt: nat)
    requires attempt < USIZE_LIMIT
    ensures Budget(original, attempt) > 0
  {
    SuffixLength(attempt);
  }

  /**
   For every valid name and every attempt the budget does not underflow, and the
   candidate is valid UTF-8 of at most 255 bytes that ends in the extension.
   */
  lemma CollisionLeafWellFormed(original: Name, attempt: nat)
    requires attempt < USIZE_LIMIT
    ensures Budget(original, attempt) > 0
    ensures |CollisionLeaf(original, attempt)| <= MAX_COMPONENT_BYTES
    ensures Valid(original) ==> Valid(CollisionLeaf(original, attempt))
  {
    BudgetPositive(original, attempt);
    if Valid(original) {
      PartsValid(original, attempt);
      ThreeValid(Stem(original, attempt), Budget(original, attempt), Suffix(attempt), Extension(original, attempt));
    }
  }

  lemma PartsValid(original: Name, attempt: nat)
    requires Valid(original)
    ensures Valid(Stem(original, attempt)) && Valid(Suffix(attempt)) && Valid(Extension(original, attempt))
  {
    ValidSplit(original, ExtensionStart(original));
    DecimalAscii(attempt);
    AsciiValid(Suffix(attempt));
  }

  lemma ThreeValid(stem: Bytes, limit: nat, suffix: Bytes, ext: Bytes)
    requires Valid(stem) && Valid(suffix) && Valid(ext)
    ensures Valid(Truncated(stem, limit) + suffix + ext)
  {
    TruncatedValid(stem, limit);
    ValidConcat(Truncated(stem, limit), suffix);
    ValidConcat(Truncated(stem, limit) + suffix, ext);
  }

  /** The name tried at an attempt: the leaf itself, then its numbered variants. */
  function Candidate(leaf: Name, attempt: nat): Name
    requires attempt <= MAX_COLLISION_ATTEMPTS
  {
    BudgetPositive(leaf, attempt);
    if attempt == 0 then leaf else CollisionLeaf(leaf, attempt)
  }

  lemma DecimalInjective(m: nat, n: nat)
    requires Decimal(m) == Decimal(n)
    ensures m == n
  {
    DecimalRoundTrip(m);
    DecimalRoundTrip(n);
  }

  lemma MiddleEqual(a: Bytes, x: Bytes, y: Bytes, b: Bytes)
    requires a + x + b == a + y + b
    ensures x == y
  {
    assert |x| == |y|;
    forall k | 0 <= k < |x|
      ensures x[k] == y[k]
    {
      assert x[k] == (a + x + b)[|a| + k];
      assert y[k] == (a + y + b)[|a| + k];
    }
  }

  lemma SuffixInjective(m: nat, n: nat)
    requires Suffix(m) == Suffix(n)
    ensures m == n
  {
    MiddleEqual([0x20, 0x28], Decimal(m), Decimal(n), [0x29]);
    DecimalInjective(m, n);
  }

  /** `collision_leaf` (src/core/sink.rs:301-314) */
  method MakeCollisionLeaf(original: Name, attempt: nat) returns (r: Name)
    requires attempt < USIZE_LIMIT
    ensures Budget(original, attempt) > 0 && r == CollisionLeaf(original, attempt)
    ensures |r| <= MAX_COMPONENT_BYTES && (Valid(original) ==> Valid(r))
  {
    CollisionLeafWellFormed(original, attempt);
    var suffix := Suffix(attempt);
    var split := ExtensionStart(original);
    var stem, extension := original[..split], original[split..];
    if |extension| + |suffix| >= MAX_COMPONENT_BYTES {
      stem := original;
      extension := [];
    }
    assert stem == Stem(original, attempt) && extension == Extension(original, attempt);
    var budget: nat := MAX_COMPONENT_BYTES - |suffix| - |extension|;
    stem := TruncateUtf8(stem, budget);
    r := stem + suffix + extension;
  }

  lemma SuffixOfThousand()
    ensures Suffix(1000) == [0x20, 0x28, 0x31, 0x30, 0x30, 0x30, 0x29]
  {
    assert Decimal(10) == [0x31, 0x30];
    assert Decimal(100) == [0x31, 0x30, 0x30];
    assert Decimal(1000) == [0x31, 0x30, 0x30, 0x30];
  }

  /** A long name can be its own numbered variant: the stem is cut to make room for the suffix it already has. */
  lemma LongNameIsItsOwnVariant(stem: Name)
    requires |stem| == 248 && forall i :: 0 <= i < |stem| ==> stem[i] != DOT && stem[i] < 0x80
    ensures var leaf := stem + Suffix(1000);
            |leaf| == 255 && Candidate(leaf, 1000) == leaf == Candidate(leaf, 0)
  {
    var leaf := stem + Suffix(1000);
    SuffixOfThousand();
    BudgetPositive(leaf, 1000);
    assert forall k :: 0 <= k < |leaf| ==> leaf[k] != DOT;
    assert ExtensionStart(leaf) == |leaf|;
    assert FloorBoundary(leaf, 248) == 248;
    assert leaf[..248] == stem;
  }

  // ---- series of long names ----

  predicate Digits(s: Bytes) {
    forall i :: 0 <= i < |s| ==> 0x30 <= s[i] <= 0x39
  }

  lemma {:induction false} DecimalDigits(n: nat)
    ensures Digits(Decimal(n))
  {
    if n >= 10 { DecimalDigits(n / 10); }
  }

  lemma SuffixNotShorter(a: Bytes, b: Bytes, m: nat, n: nat)
    requires a + Suffix(m) == b + Suffix(n)
    ensures |Decimal(m)| >= |Decimal(n)|
  {
    var s, t := a + Suffix(m), b + Suffix(n);
    var j := |Decimal(n)| - |Decimal(m)|;
    DecimalDigits(n);
    assert s[|a| + 1] == Suffix(m)[1] == 0x28;
    assert forall i :: 0 <= i < |Decimal(n)| ==> t[|b| + 2 + i] == Suffix(n)[2 + i] == Decimal(n)[i];
    assert |a| + 1 == |b| + 2 + (j - 1);
  }

  /** A numbered name gives its number away, whatever precedes it. */
  lemma SuffixReadsBack(a: Bytes, b: Bytes, m: nat, n: nat)
    requires a + Suffix(m) == b + Suffix(n)
    ensures m == n
  {
    SuffixNotShorter(a, b, m, n);
    SuffixNotShorter(b, a, n, m);
    assert |a| == |b|;
    assert (a + Suffix(m))[|a|..] == Suffix(m) && (b + Suffix(n))[|b|..] == Suffix(n);
    SuffixInjective(m, n);
  }

  lemma CutRight(a: Bytes, b: Bytes, ext: Bytes)
    requires a + ext == b + ext
    ensures a == b
  {
    assert |a| == |b|;
    assert (a + ext)[..|a|] == a && (b + ext)[..|b|] == b;
  }

  /** Two attempts try the same name. */
  predicate Repeats(leaf: Name, m: nat, n: nat)
    requires m <= MAX_COLLISION_ATTEMPTS && n <= MAX_COLLISION_ATTEMPTS
  {
    Candidate(leaf, m) == Candidate(leaf, n)
  }

  lemma SameExtensionReadsBack(leaf: Name, m: nat, n: nat)
    requires 0 < m <= MAX_COLLISION_ATTEMPTS && 0 < n <= MAX_COLLISION_ATTEMPTS && Repeats(leaf, m, n)
    requires Extension(leaf, m) == Extension(leaf, n)
    ensures m == n
  {
    BudgetPositive(leaf, m);
    BudgetPositive(leaf, n);
    var a, b := Truncated(Stem(leaf, m), Budget(leaf, m)), Truncated(Stem(leaf, n), Budget(leaf, n));
    CutRight(a + Suffix(m), b + Suffix(n), Extension(leaf, m));
    SuffixReadsBack(a, b, m, n);
  }

  /** The kept extension starts where the leaf's does, so what precedes it is the leaf's own stem. */
  lemma ExtensionStays(leaf: Name, head: Bytes, k: nat, tail: Bytes)
    requires var i := ExtensionStart(leaf); i < k <= |leaf| && |head| < k && head + leaf[i..] == leaf[..k] + tail
    ensures head + leaf[ExtensionStart(leaf)..] == leaf
  {
    var i := ExtensionStart(leaf);
    var c := leaf[..k] + tail;
    assert c == head + leaf[i..];
    assert c[|head|] == leaf[i] == DOT && c[|head|] == leaf[|head|];
    assert c[i] == leaf[i];
    var ext := leaf[i..];
    assert forall j :: 0 < j < |ext| ==> ext[j] != DOT;
    assert forall x :: |head| <= x < |head| + |ext| ==> c[x] == ext[x - |head|];
    assert |head| == i;
    assert head == c[..i] == leaf[..i];
  }

  /** If one attempt keeps the extension and another one drops it, both can only have produced the leaf. */
  lemma DroppedExtensionRepeats(leaf: Name, m: nat, n: nat)
    requires Valid(leaf) && 0 < |leaf| <= MAX_COMPONENT_BYTES
    requires 0 < m <= MAX_COLLISION_ATTEMPTS && 0 < n <= MAX_COLLISION_ATTEMPTS && Repeats(leaf, m, n)
    requires !DropsExtension(leaf, m) && DropsExtension(leaf, n)
    ensures Candidate(leaf, m) == leaf
  {
    SuffixLength(m);
    SuffixLength(n);
    BudgetPositive(leaf, m);
    BudgetPositive(leaf, n);
    var head := Truncated(Stem(leaf, m), Budget(leaf, m)) + Suffix(m);
    var k := |Truncated(leaf, Budget(leaf, n))|;
    TruncatedValid(leaf, Budget(leaf, n));
    assert Truncated(leaf, Budget(leaf, n)) == leaf[..k];
    assert Candidate(leaf, n) == leaf[..k] + Suffix(n);
    ExtensionStays(leaf, head, k, Suffix(n));
  }

  lemma RepeatsOnlyTheLeaf(leaf: Name, m: nat, n: nat)
    requires Valid(leaf) && 0 < |leaf| <= MAX_COMPONENT_BYTES
    requires 0 < m < n <= MAX_COLLISION_ATTEMPTS && Repeats(leaf, m, n)
    ensures Repeats(leaf, 0, m)
  {
    if DropsExtension(leaf, m) == DropsExtension(leaf, n) {
      SameExtensionReadsBack(leaf, m, n);
    } else if DropsExtension(leaf, n) {
      DroppedExtensionRepeats(leaf, m, n);
    } else {
      DroppedExtensionRepeats(leaf, n, m);
    }
  }

  /** The name fills a component and its stem already ends in this number. */
  predicate EndsInNumber(leaf: Name, n: nat) {
    var stem := Stem(leaf, n);
    |leaf| == MAX_COMPONENT_BYTES && |Suffix(n)| <= |stem| && stem[|stem| - |Suffix(n)|..] == Suffix(n)
  }

  lemma OwnVariantEnds(leaf: Name, n: nat)
    requires 0 < n <= MAX_COLLISION_ATTEMPTS && |leaf| <= MAX_COMPONENT_BYTES && Repeats(leaf, 0, n)
    ensures EndsInNumber(leaf, n)
  {
    BudgetPositive(leaf, n);
    var stem, budget := Stem(leaf, n), Budget(leaf, n);
    var cut := Truncated(stem, budget);
    CutRight(stem, cut + Suffix(n), Extension(leaf, n));
    assert |cut| == FloorBoundary(stem, budget);
    assert stem[|cut| + 1] == Suffix(n)[1] == 0x28;
    assert Boundary(stem, |cut| + 1);
    assert stem[|cut|..] == Suffix(n);
  }

  lemma CutBefore(stem: Bytes, budget: nat, suffix: Bytes)
    requires suffix != [] && suffix[0] == 0x20
    requires |stem| == budget + |suffix| && stem[budget..] == suffix
    ensures Truncated(stem, budget) + suffix == stem
  {
    assert stem[budget] == stem[budget..][0];
    assert Boundary(stem, budget);
  }

  lemma EndedIsOwnVariant(leaf: Name, n: nat)
    requires 0 < n <= MAX_COLLISION_ATTEMPTS && EndsInNumber(leaf, n)
    ensures Repeats(leaf, 0, n)
  {
    BudgetPositive(leaf, n);
    CutBefore(Stem(leaf, n), Budget(leaf, n), Suffix(n));
  }

  /** A numbered variant is the leaf itself exactly if the leaf has 255 bytes and its stem ends in that number. */
  lemma RepeatsTheLeafIff(leaf: Name, n: nat)
    requires 0 < n <= MAX_COLLISION_ATTEMPTS && |leaf| <= MAX_COMPONENT_BYTES
    ensures Repeats(leaf, 0, n) <==> EndsInNumber(leaf, n)
  {
    if Repeats(leaf, 0, n) { OwnVariantEnds(leaf, n); }
    if EndsInNumber(leaf, n) { EndedIsOwnVariant(leaf, n); }
  }

  /** A name the series comes back to. */
  ghost predicate FullAndNumbered(leaf: Name) {
    exists n :: 0 < n <= MAX_COLLISION_ATTEMPTS && EndsInNumber(leaf, n)
  }

  /** The attempts of any other leaf that fits a component all try different names. */
  lemma CandidatesDistinct(leaf: Name, m: nat, n: nat)
    requires Valid(leaf) && 0 < |leaf| <= MAX_COMPONENT_BYTES && !FullAndNumbered(leaf)
    requires m < n <= MAX_COLLISION_ATTEMPTS
    ensures Candidate(leaf, m) != Candidate(leaf, n)
  {
    RepeatsTheLeafIff(leaf, n);
    if m > 0 {
      RepeatsTheLeafIff(leaf, m);
      if Repeats(leaf, m, n) { RepeatsOnlyTheLeaf(leaf, m, n); }
    }
  }

  /**
   The series of a leaf that fits a component repeats a name if and only if the leaf has
   255 bytes and its stem, of which the extension was cut off or not, already ends in one
   of the numbers of the series.
   */
  lemma SeriesRepeatsIff(leaf: Name)
    requires Valid(leaf) && 0 < |leaf| <= MAX_COMPONENT_BYTES
    ensures (exists m, n :: 0 <= m < n <= MAX_COLLISION_ATTEMPTS && Repeats(leaf, m, n)) <==> FullAndNumbered(leaf)
  {
    if FullAndNumbered(leaf) {
      var n :| 0 < n <= MAX_COLLISION_ATTEMPTS && EndsInNumber(leaf, n);
      EndedIsOwnVariant(leaf, n);
    } else {
      forall m, n | 0 <= m < n <= MAX_COLLISION_ATTEMPTS
        ensures !Repeats(leaf, m, n)
      {
        CandidatesDistinct(leaf, m, n);
      }
    }
  }
}
