/** Well-formed UTF-8 (RFC 3629, sections 3 and 4) and its character boundaries. */
module Utf8 {
  import opened Options

  predicate Tail(b: Byte) {
    0x80 <= b < 0xC0
  }

  predicate In(s: Bytes, i: nat, lo: Byte, hi: Byte) {
    i < |s| && lo <= s[i] <= hi
  }

  predicate Tails(s: Bytes, from: nat, to: nat) {
    to <= |s| && forall i :: from <= i < to ==> Tail(s[i])
  }

  /** The length of the well-formed character `s` begins with, or 0. */
  function FirstLen(s: Bytes): (n: nat)
    ensures n <= 4 && n <= |s| && (n > 0 ==> Tails(s, 1, n) && !Tail(s[0]))
  {
    if In(s, 0, 0x00, 0x7F) then 1
    else if In(s, 0, 0xC2, 0xDF) && Tails(s, 1, 2) then 2
    else if Tails(s, 1, 3) &&
            (|| (In(s, 0, 0xE0, 0xE0) && In(s, 1, 0xA0, 0xBF))
             || In(s, 0, 0xE1, 0xEC)
             || (In(s, 0, 0xED, 0xED) && In(s, 1, 0x80, 0x9F))
             || In(s, 0, 0xEE, 0xEF)) then 3
    else if Tails(s, 1, 4) &&
            (|| (In(s, 0, 0xF0, 0xF0) && In(s, 1, 0x90, 0xBF))
             || In(s, 0, 0xF1, 0xF3)
             || (In(s, 0, 0xF4, 0xF4) && In(s, 1, 0x80, 0x8F))) then 4
    else 0
  }

  predicate Valid(s: Bytes) {
    s == [] || (FirstLen(s) > 0 && Valid(s[FirstLen(s)..]))
  }

  /** `str::is_char_boundary` */
  predicate Boundary(s: Bytes, i: nat) {
    i == 0 || i == |s| || (i < |s| && !Tail(s[i]))
  }

  /** The first character is decided by its own bytes. */
  lemma FirstLenPrefix(s: Bytes, t: Bytes)
    requires FirstLen(s) > 0 && FirstLen(s) <= |t| && s[..FirstLen(s)] == t[..FirstLen(s)]
    ensures FirstLen(t) == FirstLen(s)
  {
    var n := FirstLen(s);
    forall i | 0 <= i < n
      ensures s[i] == t[i]
    {
      assert s[..n][i] == t[..n][i];
    }
  }

  lemma {:induction false} ValidConcat(a: Bytes, b: Bytes)
    requires Valid(a) && Valid(b)
    ensures Valid(a + b)
    decreases |a|
  {
    if a == [] {
      assert a + b == b;
    } else {
      var n := FirstLen(a);
      assert (a + b)[..n] == a[..n];
      FirstLenPrefix(a, a + b);
      assert (a + b)[n..] == a[n..] + b;
      ValidConcat(a[n..], b);
    }
  }

  /** Cutting valid text at a character boundary leaves valid text on both sides. */
  lemma {:induction false} ValidSplit(s: Bytes, i: nat)
    requires Valid(s) && i <= |s| && Boundary(s, i)
    ensures Valid(s[..i]) && Valid(s[i..])
    decreases |s|
  {
    if i == 0 {
      assert s[i..] == s;
    } else {
      var n := FirstLen(s);
      assert i >= n;
      assert s[..i][..n] == s[..n];
      FirstLenPrefix(s, s[..i]);
      assert s[n..][..i - n] == s[..i][n..];
      assert s[n..][i - n..] == s[i..];
      ValidSplit(s[n..], i - n);
    }
  }

  /** In valid text a boundary is never more than three bytes away. */
  lemma {:induction false} BoundaryNear(s: Bytes, i: nat) returns (j: nat)
    requires Valid(s) && i <= |s|
    ensures j <= i <= j + 3 && Boundary(s, j)
    decreases |s|
  {
    var n := FirstLen(s);
    if s == [] || i < n {
      j := 0;
    } else {
      var k := BoundaryNear(s[n..], i - n);
      j := k + n;
    }
  }

  /** The largest boundary at or below `i`. */
  function FloorBoundary(s: Bytes, i: nat): (j: nat)
    requires i <= |s|
    ensures j <= i && Boundary(s, j)
    ensures forall k :: j < k <= i ==> !Boundary(s, k)
  {
    if Boundary(s, i) then i else FloorBoundary(s, i - 1)
  }

  /** The longest prefix of at most `limit` bytes that ends at a character boundary. */
  function Truncated(s: Bytes, limit: nat): (r: Bytes)
    ensures r <= s && |r| <= limit
  {
    if |s| <= limit then s else s[..FloorBoundary(s, limit)]
  }

  /** Truncation keeps text valid and gives up at most three bytes of the limit. */
  lemma TruncatedValid(s: Bytes, limit: nat)
    requires Valid(s)
    ensures Valid(Truncated(s, limit))
    ensures |s| > limit ==> limit - 3 <= |Truncated(s, limit)|
    ensures forall r: Bytes :: r <= s && |r| <= limit && Boundary(s, |r|) ==> |r| <= |Truncated(s, limit)|
  {
    if |s| > limit {
      ValidSplit(s, FloorBoundary(s, limit));
      var j := BoundaryNear(s, limit);
    }
  }

  /** `truncate_utf8` (src/core/sink.rs:316-325) */
  method TruncateUtf8(value: Bytes, maxBytes: nat) returns (r: Bytes)
    ensures r == Truncated(value, maxBytes)
    ensures Valid(value) ==> Valid(r)
  {
    if |value| <= maxBytes {
      if Valid(value) { TruncatedValid(value, maxBytes); }
      return value;
    }
    var end: nat := maxBytes;
    while end > 0 && !Boundary(value, end)
      invariant end <= maxBytes
      invariant FloorBoundary(value, end) == FloorBoundary(value, maxBytes)
    {
      end := end - 1;
    }
    if Valid(value) { TruncatedValid(value, maxBytes); }
    return value[..end];
  }
}
