/**
  The .NET string operations the sign-in code relies on: IsNullOrWhiteSpace
  (the `IsMissing`/`IsPresent` extensions), Trim, StartsWith, Replace and
  Substring. A null string is identified with the empty string.
*/
module Strings {

  /** The white-space characters recognised by this model (the ASCII ones plus NEL and NBSP). */
  predicate IsWhiteSpace(c: char) {
    c == ' ' || c == '\t' || c == '\n' || c == '\r' ||
    c == '\U{0B}' || c == '\U{0C}' || c == '\U{85}' || c == '\U{A0}'
  }

  /** string.IsNullOrWhiteSpace */
  predicate IsMissing(s: string) {
    forall i :: 0 <= i < |s| ==> IsWhiteSpace(s[i])
  }

  predicate IsPresent(s: string) {
    !IsMissing(s)
  }

  predicate StartsWith(s: string, prefix: string) {
    |prefix| <= |s| && s[..|prefix|] == prefix
  }

  /** Drops leading white space: what is left is a suffix that starts with a non-space. */
  function TrimStart(s: string): (r: string)
    ensures |r| <= |s| && r == s[|s| - |r|..]
    ensures forall i :: 0 <= i < |s| - |r| ==> IsWhiteSpace(s[i])
    ensures r == [] || !IsWhiteSpace(r[0])
  {
    if |s| > 0 && IsWhiteSpace(s[0]) then TrimStart(s[1..]) else s
  }

  /** Drops trailing white space: what is left is a prefix that ends with a non-space. */
  function TrimEnd(s: string): (r: string)
    ensures |r| <= |s| && r == s[..|r|]
    ensures forall i :: |r| <= i < |s| ==> IsWhiteSpace(s[i])
    ensures r == [] || !IsWhiteSpace(r[|r| - 1])
  {
    if |s| > 0 && IsWhiteSpace(s[|s| - 1]) then TrimEnd(s[..|s| - 1]) else s
  }

  /** string.Trim */
  function Trim(s: string): string {
    TrimEnd(TrimStart(s))
  }

  /** Trim keeps the slice of `s` left between its leading and its trailing white space. */
  lemma TrimIsInnerSlice(s: string)
    ensures var start := |s| - |TrimStart(s)|;
      start + |Trim(s)| <= |s| && Trim(s) == s[start..start + |Trim(s)|] &&
      (forall i :: 0 <= i < start ==> IsWhiteSpace(s[i])) &&
      (forall i :: start + |Trim(s)| <= i < |s| ==> IsWhiteSpace(s[i]))
  {
    var t := TrimStart(s);
    var r := TrimEnd(t);
    var start := |s| - |t|;
    assert t == s[start..];
    assert r == t[..|r|];
    assert s[start..start + |r|] == t[..|r|];
    forall i | start + |r| <= i < |s| ensures IsWhiteSpace(s[i]) {
      assert s[i] == t[i - start];
    }
  }

  /** Trim yields the empty string exactly for a blank input, and otherwise starts and ends with a non-space. */
  lemma TrimEmptyIffMissing(s: string)
    ensures Trim(s) == [] <==> IsMissing(s)
    ensures Trim(s) != [] ==> !IsWhiteSpace(Trim(s)[0]) && !IsWhiteSpace(Trim(s)[|Trim(s)| - 1])
  {
    var t := TrimStart(s);
    var r := TrimEnd(t);
    assert Trim(s) == r;
    if t != [] {
      var start := |s| - |t|;
      assert s[start] == t[0] by {
        assert t == s[start..];
      }
      assert 0 < |t| && !IsWhiteSpace(t[0]);
      assert r[0] == t[0] by {
        assert r == t[..|r|];
      }
      assert !IsMissing(s) by {
        assert !IsWhiteSpace(s[start]);
      }
    }
  }

  /** Trimming twice is trimming once. */
  lemma TrimIdempotent(s: string)
    ensures Trim(Trim(s)) == Trim(s)
  {
    var r := Trim(s);
    TrimEmptyIffMissing(s);
    if r != [] {
      assert TrimStart(r) == r;
      assert TrimEnd(r) == r;
    }
  }

  /** string.Substring(0, n) applied only when the string is longer than n. */
  function Truncate(s: string, n: nat): (r: string)
    ensures |r| <= n && StartsWith(s, r)
    ensures |s| <= n ==> r == s
    ensures |s| > n ==> r == s[..n]
  {
    if |s| > n then s[..n] else s
  }

  /** string.Replace(pattern, replacement): every non-overlapping occurrence, scanning left to right. */
  function ReplaceAll(s: string, pattern: string, replacement: string): string
    requires |pattern| > 0
    decreases |s|
  {
    if |s| < |pattern| then s
    else if s[..|pattern|] == pattern then replacement + ReplaceAll(s[|pattern|..], pattern, replacement)
    else [s[0]] + ReplaceAll(s[1..], pattern, replacement)
  }

  predicate OccursAt(s: string, pattern: string, i: nat) {
    i + |pattern| <= |s| && s[i..i + |pattern|] == pattern
  }

  /** A prefix that cannot start an occurrence is copied through untouched. */
  lemma {:induction false} ReplaceAllSkipsPrefix(a: string, b: string, pattern: string, replacement: string)
    requires |pattern| > 0
    requires forall i :: 0 <= i < |a| ==> a[i] != pattern[0]
    ensures ReplaceAll(a + b, pattern, replacement) == a + ReplaceAll(b, pattern, replacement)
    decreases |a|
  {
    if a == [] {
      assert a + b == b;
    } else {
      var s := a + b;
      if |s| < |pattern| {
        ReplaceAllShort(b, pattern, replacement);
        assert |b| < |pattern|;
      } else {
        assert s[0] == a[0];
        assert s[..|pattern|] != pattern by {
          assert s[..|pattern|][0] == a[0];
        }
        assert s[1..] == a[1..] + b;
        ReplaceAllSkipsPrefix(a[1..], b, pattern, replacement);
        assert a == [a[0]] + a[1..];
      }
    }
  }

  /** A string shorter than the pattern is left as it is. */
  lemma ReplaceAllShort(s: string, pattern: string, replacement: string)
    requires |pattern| > 0 && |s| < |pattern|
    ensures ReplaceAll(s, pattern, replacement) == s
  {
  }

  /** An occurrence at the very start is replaced, and scanning resumes after it. */
  lemma ReplaceAllAtStart(b: string, pattern: string, replacement: string)
    requires |pattern| > 0
    ensures ReplaceAll(pattern + b, pattern, replacement) == replacement + ReplaceAll(b, pattern, replacement)
  {
    var s := pattern + b;
    assert s[..|pattern|] == pattern;
    assert s[|pattern|..] == b;
  }
}
