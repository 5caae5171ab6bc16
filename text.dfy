/**
 * String helpers shared by the model: the character classes of ECMAScript
 * regular expressions (`\s`, `\w`), `String.prototype.trim`, and the
 * prefix/suffix/substring relations used to state what the handlers keep.
 *
 * `\s` and `trim()` use the same white-space set in ECMAScript; here that set
 * is approximated by its ASCII members (space, tab, LF, VT, FF, CR).
 */
module Text {

  /** ASCII approximation of ECMAScript white space plus line terminators. */
  predicate IsSpace(c: char) {
    c == ' ' || c == '\t' || c == '\n' || c == '\U{000B}' || c == '\U{000C}' || c == '\r'
  }

  /** `\w` without the `u` and `i` flags: exactly `[A-Za-z0-9_]`. */
  predicate IsWordChar(c: char) {
    ('a' <= c <= 'z') || ('A' <= c <= 'Z') || ('0' <= c <= '9') || c == '_'
  }

  /** Every character of `s[i..j]` is white space. */
  predicate AllSpace(s: string, i: nat, j: nat)
    requires i <= j <= |s|
  {
    forall k :: i <= k < j ==> IsSpace(s[k])
  }

  predicate StartsWith(s: string, prefix: string) {
    |prefix| <= |s| && s[..|prefix|] == prefix
  }

  predicate EndsWith(s: string, suffix: string) {
    |suffix| <= |s| && s[|s| - |suffix|..] == suffix
  }

  /** `r` occurs in `s` at index `a`. */
  predicate OccursAt(r: string, s: string, a: nat) {
    a + |r| <= |s| && s[a..a + |r|] == r
  }

  /** `r` is a contiguous piece of `s`. */
  ghost predicate IsSliceOf(r: string, s: string) {
    exists a: nat :: OccursAt(r, s, a)
  }

  /** Length of the longest run of white space in `s` starting at `i` (a greedy `\s*`). */
  function SpaceRun(s: string, i: nat): (n: nat)
    requires i <= |s|
    ensures i + n <= |s|
    ensures AllSpace(s, i, i + n)
    ensures i + n < |s| ==> !IsSpace(s[i + n])
    decreases |s| - i
  {
    if i < |s| && IsSpace(s[i]) then 1 + SpaceRun(s, i + 1) else 0
  }

  /** Length of the longest run of `[\w\s]` in `s` starting at `i` (a greedy `[\w\s]*`). */
  function WordOrSpaceRun(s: string, i: nat): (n: nat)
    requires i <= |s|
    ensures i + n <= |s|
    ensures forall k :: i <= k < i + n ==> IsWordChar(s[k]) || IsSpace(s[k])
    ensures i + n < |s| ==> !IsWordChar(s[i + n]) && !IsSpace(s[i + n])
    decreases |s| - i
  {
    if i < |s| && (IsWordChar(s[i]) || IsSpace(s[i])) then 1 + WordOrSpaceRun(s, i + 1) else 0
  }

  /** Length of the longest run of white space that ends `s`. */
  function TrailingSpace(s: string): (n: nat)
    ensures n <= |s|
    ensures AllSpace(s, |s| - n, |s|)
    ensures n < |s| ==> !IsSpace(s[|s| - n - 1])
  {
    if |s| > 0 && IsSpace(s[|s| - 1]) then 1 + TrailingSpace(s[..|s| - 1]) else 0
  }

  /**
   * The bounds `trim()` keeps: everything outside them is white space, and
   * when something is kept it starts and ends with a non-space character.
   */
  function TrimBounds(s: string): (b: (nat, nat))
    ensures b.0 <= b.1 <= |s|
    ensures AllSpace(s, 0, b.0) && AllSpace(s, b.1, |s|)
    ensures b.0 < b.1 ==> !IsSpace(s[b.0]) && !IsSpace(s[b.1 - 1])
    ensures b.0 == b.1 ==> AllSpace(s, 0, |s|)
  {
    var lo := SpaceRun(s, 0);
    if lo == |s| then (lo, lo)
    else
      var hi := |s| - TrailingSpace(s);
      assert !IsSpace(s[lo]);
      (lo, hi)
  }

  /** No leading and no trailing white space. */
  predicate IsTrimmed(s: string) {
    s == [] || (!IsSpace(s[0]) && !IsSpace(s[|s| - 1]))
  }

  /** `String.prototype.trim`. */
  function Trim(s: string): (r: string)
    ensures |r| <= |s| && IsTrimmed(r) && IsSliceOf(r, s)
    ensures r == [] <==> AllSpace(s, 0, |s|)
    ensures exists a: nat :: OccursAt(r, s, a) && AllSpace(s, 0, a) && AllSpace(s, a + |r|, |s|)
  {
    var b := TrimBounds(s);
    var r := s[b.0..b.1];
    assert OccursAt(r, s, b.0) && AllSpace(s, 0, b.0) && AllSpace(s, b.0 + |r|, |s|);
    if b.0 == b.1 then r
    else
      assert !IsSpace(s[b.0]) && r[0] == s[b.0];
      r
  }

  /** Trimming already trimmed text changes nothing (so `trim()` is idempotent). */
  lemma TrimOfTrimmed(s: string)
    requires IsTrimmed(s)
    ensures Trim(s) == s
  {
    var b := TrimBounds(s);
    if s != [] {
      assert !IsSpace(s[0]) && !IsSpace(s[|s| - 1]);
    }
  }

  lemma TrimIdempotent(s: string)
    ensures Trim(Trim(s)) == Trim(s)
  {
    TrimOfTrimmed(Trim(s));
  }

  /**
   * Trim keeps every non-space character of `s`: a non-space character at
   * index `k` lies inside the kept bounds.
   */
  lemma TrimKeeps(s: string, k: nat)
    requires k < |s| && !IsSpace(s[k])
    ensures TrimBounds(s).0 <= k < TrimBounds(s).1
  {
  }

  /** A slice of a slice is a slice. */
  lemma SliceOfSlice(r: string, m: string, s: string)
    requires IsSliceOf(r, m) && IsSliceOf(m, s)
    ensures IsSliceOf(r, s)
  {
    var a: nat :| OccursAt(r, m, a);
    var b: nat :| OccursAt(m, s, b);
    forall k | 0 <= k < |r|
      ensures s[b + a..b + a + |r|][k] == r[k]
    {
      assert r[k] == m[a + k] == s[b + a + k];
    }
    assert OccursAt(r, s, b + a);
  }

  /** Taking `s[i..j]` produces a slice of `s`. */
  lemma SubIsSlice(s: string, i: nat, j: nat)
    requires i <= j <= |s|
    ensures IsSliceOf(s[i..j], s)
  {
    assert OccursAt(s[i..j], s, i);
  }

  /** The right operand of a concatenation occurs right after the left one. */
  lemma OccursAtEnd(a: string, r: string)
    ensures OccursAt(r, a + r, |a|)
  {
    assert (a + r)[|a|..|a| + |r|] == r;
  }

  /** Appending keeps an occurrence where it is. */
  lemma OccursExtend(r: string, s: string, a: nat, t: string)
    requires OccursAt(r, s, a)
    ensures OccursAt(r, s + t, a)
  {
    assert (s + t)[a..a + |r|] == s[a..a + |r|];
  }

  /** Two occurrences survive an append. */
  lemma Keep2(x: string, y: string, i: nat, j: nat, s: string, t: string)
    requires OccursAt(x, s, i) && OccursAt(y, s, j)
    ensures OccursAt(x, s + t, i) && OccursAt(y, s + t, j)
  {
    OccursExtend(x, s, i, t);
    OccursExtend(y, s, j, t);
  }

  /** Three occurrences survive an append. */
  lemma Keep3(x: string, y: string, z: string, i: nat, j: nat, k: nat, s: string, t: string)
    requires OccursAt(x, s, i) && OccursAt(y, s, j) && OccursAt(z, s, k)
    ensures OccursAt(x, s + t, i) && OccursAt(y, s + t, j) && OccursAt(z, s + t, k)
  {
    Keep2(x, y, i, j, s, t);
    OccursExtend(z, s, k, t);
  }

  /** Prepending shifts an occurrence by the length of what was prepended. */
  lemma OccursShift(r: string, s: string, a: nat, t: string)
    requires OccursAt(r, s, a)
    ensures OccursAt(r, t + s, |t| + a)
  {
    assert (t + s)[|t| + a..|t| + a + |r|] == s[a..a + |r|];
  }

  /** A text `p a e` names `a` at `|p|`, and with `p` and `e` fixed it determines `a`. */
  lemma NamedOnce(p: string, e: string, a: string, b: string)
    ensures OccursAt(a, p + a + e, |p|)
    ensures p + a + e == p + b + e <==> a == b
  {
    OccursAtEnd(p, a);
    OccursExtend(a, p + a, |p|, e);
    OccursAtEnd(p, b);
    OccursExtend(b, p + b, |p|, e);
  }

  /** A text `p a m a e` names `a` at `|p|`, and with `p`, `m` and `e` fixed it determines `a`. */
  lemma NamedTwice(p: string, m: string, e: string, a: string, b: string)
    ensures OccursAt(a, p + a + m + a + e, |p|)
    ensures p + a + m + a + e == p + b + m + b + e <==> a == b
  {
    OccursAtEnd(p, a);
    Keep2(a, a, |p|, |p|, p + a, m);
    Keep2(a, a, |p|, |p|, p + a + m, a);
    OccursExtend(a, p + a + m + a, |p|, e);
    OccursAtEnd(p, b);
    Keep2(b, b, |p|, |p|, p + b, m);
    Keep2(b, b, |p|, |p|, p + b + m, b);
    OccursExtend(b, p + b + m + b, |p|, e);
  }
}
