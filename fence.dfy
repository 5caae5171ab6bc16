/**
 * The code-block regular expression of the redesign handler,
 *
 *     /```(?:html|jsx|vue|svelte)?\s*\n([\s\S]*?)\n```/
 *
 * used with `String.prototype.match` (no `g` flag, so only the first match).
 *
 * A match is described by four numbers: where it starts, which alternative of
 * the optional tag group it took (the skipped group is the last alternative),
 * how much white space `\s*` consumed, and how long the lazy body is. A
 * backtracking engine returns, among all ways the pattern can match, the one
 * that comes first in its search order: leftmost start, then the tag
 * alternatives in source order, then the LONGEST white-space run (greedy `*`),
 * then the SHORTEST body (lazy `*?`). `IsFirstMatch` states that declaratively;
 * `FirstFence` is the engine's search written out, and its contract says it
 * finds exactly that match.
 */
module Fence {
  import opened Wrappers
  import opened Text

  /** Alternatives of `(?:html|jsx|vue|svelte)?` in the order they are tried; "" is the skipped group. */
  const Tags: seq<string> := ["html", "jsx", "vue", "svelte", ""]

  function TagLen(t: nat): nat {
    if t < |Tags| then |Tags[t]| else 0
  }

  datatype FenceMatch = FenceMatch(start: nat, tag: nat, ws: nat, body: nat) {
    /** Index just after the tag, where `\s*` begins. */
    function TagEnd(): nat { start + 3 + TagLen(tag) }
    /** Index of the first character of the captured body (group 1). */
    function BodyStart(): nat { TagEnd() + ws + 1 }
    /** Index of the `\n` that opens the closing fence. */
    function BodyEnd(): nat { BodyStart() + body }
    /** Index just after the whole match (`match.index + match[0].length`). */
    function End(): nat { BodyEnd() + 4 }
    /** Same start, tag and white-space run: the matches differ at most in the body. */
    predicate SameHead(other: FenceMatch) {
      start == other.start && tag == other.tag && ws == other.ws
    }
  }

  /** Three backticks at `i`. */
  predicate TicksAt(s: string, i: nat) {
    i + 3 <= |s| && s[i] == '`' && s[i + 1] == '`' && s[i + 2] == '`'
  }

  /** The closing `\n` followed by three backticks, at `k`. */
  predicate CloseAt(s: string, k: nat) {
    k < |s| && s[k] == '\n' && TicksAt(s, k + 1)
  }

  /** Alternative `t` of the tag group matches at `i`. */
  predicate TagAt(s: string, i: nat, t: nat) {
    t < |Tags| && OccursAt(Tags[t], s, i)
  }

  /** The pattern matches `s` in the way `m` describes. */
  predicate IsMatch(s: string, m: FenceMatch) {
    && TicksAt(s, m.start)
    && TagAt(s, m.start + 3, m.tag)
    && m.TagEnd() + m.ws < |s|
    && AllSpace(s, m.TagEnd(), m.TagEnd() + m.ws)
    && s[m.TagEnd() + m.ws] == '\n'
    && CloseAt(s, m.BodyEnd())
  }

  /** The backtracking order: `a` is tried before `b`. */
  predicate Before(a: FenceMatch, b: FenceMatch) {
    || a.start < b.start
    || (a.start == b.start && a.tag < b.tag)
    || (a.start == b.start && a.tag == b.tag && a.ws > b.ws)
    || (a.SameHead(b) && a.body < b.body)
  }

  /** `m` is the match the engine reports: no other match is tried before it. */
  ghost predicate IsFirstMatch(s: string, m: FenceMatch) {
    IsMatch(s, m) && forall m' :: IsMatch(s, m') ==> !Before(m', m)
  }

  /** The lazy body: the first closing fence at or after `k`. */
  function FindClose(s: string, k: nat): (r: Option<nat>)
    ensures r.Some? ==> k <= r.value && CloseAt(s, r.value)
    ensures r.Some? ==> forall j :: k <= j < r.value ==> !CloseAt(s, j)
    ensures r.None? ==> forall j :: k <= j ==> !CloseAt(s, j)
    decreases |s| - k
  {
    if k >= |s| then None
    else if CloseAt(s, k) then Some(k)
    else FindClose(s, k + 1)
  }

  /** The lazy body stops at the first closing fence, whichever way it is found. */
  lemma FindCloseIs(s: string, k: nat, c: nat)
    requires k <= c && CloseAt(s, c)
    requires forall j :: k <= j < c ==> !CloseAt(s, j)
    ensures FindClose(s, k) == Some(c)
  {
  }

  /**
   * `\s*\n` then the body, for a fixed start and tag, giving back white space
   * one character at a time from `ws` down to 0.
   */
  function TryRun(s: string, i: nat, t: nat, ws: nat): (r: Option<FenceMatch>)
    requires TicksAt(s, i) && TagAt(s, i + 3, t)
    requires i + 3 + |Tags[t]| + ws <= |s|
    requires AllSpace(s, i + 3 + |Tags[t]|, i + 3 + |Tags[t]| + ws)
    ensures r.Some? ==> IsMatch(s, r.value) && r.value.start == i && r.value.tag == t && r.value.ws <= ws
    ensures r.Some? ==> forall m' :: IsMatch(s, m') && m'.start == i && m'.tag == t && m'.ws <= ws ==> !Before(m', r.value)
    ensures r.None? ==> forall m' :: IsMatch(s, m') && m'.start == i && m'.tag == t ==> m'.ws > ws
    decreases ws
  {
    var e := i + 3 + |Tags[t]|;
    var close := if e + ws < |s| && s[e + ws] == '\n' then FindClose(s, e + ws + 1) else None;
    if close.Some? then
      RunFound(s, i, t, ws, close.value);
      Some(FenceMatch(i, t, ws, close.value - (e + ws + 1)))
    else
      NoMatchAtRun(s, i, t, ws);
      if ws == 0 then None
      else TryRun(s, i, t, ws - 1)
  }

  /** Without a line feed after the run `ws`, or a closing fence after it, no match takes that run. */
  lemma NoMatchAtRun(s: string, i: nat, t: nat, ws: nat)
    requires t < |Tags|
    requires var e := i + 3 + |Tags[t]|;
      !(e + ws < |s| && s[e + ws] == '\n' && FindClose(s, e + ws + 1).Some?)
    ensures forall m' :: IsMatch(s, m') && m'.start == i && m'.tag == t ==> m'.ws != ws
  {
  }

  /** With the run `ws` followed by a line feed, the first closing fence gives the first match of that run or a shorter one. */
  lemma RunFound(s: string, i: nat, t: nat, ws: nat, c: nat)
    requires TicksAt(s, i) && TagAt(s, i + 3, t)
    requires i + 3 + |Tags[t]| + ws < |s| && s[i + 3 + |Tags[t]| + ws] == '\n'
    requires AllSpace(s, i + 3 + |Tags[t]|, i + 3 + |Tags[t]| + ws)
    requires FindClose(s, i + 3 + |Tags[t]| + ws + 1) == Some(c)
    ensures var r := FenceMatch(i, t, ws, c - (i + 3 + |Tags[t]| + ws + 1));
      && IsMatch(s, r)
      && forall m' :: IsMatch(s, m') && m'.start == i && m'.tag == t && m'.ws <= ws ==> !Before(m', r)
  {
  }

  /** A match's white-space run never exceeds the greedy run. */
  lemma RunBounded(s: string, m: FenceMatch)
    requires IsMatch(s, m)
    ensures m.ws <= SpaceRun(s, m.TagEnd())
  {
  }

  lemma RunsBounded(s: string, i: nat, t: nat)
    requires t < |Tags|
    ensures forall m' :: IsMatch(s, m') && m'.start == i && m'.tag == t ==> m'.ws <= SpaceRun(s, i + 3 + |Tags[t]|)
  {
    forall m' | IsMatch(s, m') && m'.start == i && m'.tag == t {
      RunBounded(s, m');
    }
  }

  /** The tag alternatives from `t` on, at start `i`. */
  function TryTags(s: string, i: nat, t: nat): (r: Option<FenceMatch>)
    requires TicksAt(s, i) && t <= |Tags|
    ensures r.Some? ==> IsMatch(s, r.value) && r.value.start == i && t <= r.value.tag
    ensures r.Some? ==> forall m' :: IsMatch(s, m') && m'.start == i && t <= m'.tag ==> !Before(m', r.value)
    ensures r.None? ==> forall m' :: IsMatch(s, m') && m'.start == i ==> m'.tag < t
    decreases |Tags| - t
  {
    if t == |Tags| then None
    else
      RunsBounded(s, i, t);
      var here := if TagAt(s, i + 3, t) then TryRun(s, i, t, SpaceRun(s, i + 3 + |Tags[t]|)) else None;
      assert here.None? ==> forall m' :: IsMatch(s, m') && m'.start == i ==> m'.tag != t;
      if here.Some? then here else TryTags(s, i, t + 1)
  }

  /** The start positions from `i` on. */
  function SearchFrom(s: string, i: nat): (r: Option<FenceMatch>)
    ensures r.Some? ==> IsMatch(s, r.value) && i <= r.value.start
    ensures r.Some? ==> forall m' :: IsMatch(s, m') && i <= m'.start ==> !Before(m', r.value)
    ensures r.None? ==> forall m' :: IsMatch(s, m') ==> m'.start < i
    decreases |s| - i
  {
    if i >= |s| then None
    else
      var here := if TicksAt(s, i) then TryTags(s, i, 0) else None;
      if here.Some? then here else SearchFrom(s, i + 1)
  }

  /** `raw.match(codeBlockRegex)`: the first match, or none. */
  function FirstFence(s: string): (r: Option<FenceMatch>)
    ensures r.Some? ==> IsFirstMatch(s, r.value)
    ensures r.None? <==> forall m :: !IsMatch(s, m)
  {
    SearchFrom(s, 0)
  }

  /** The search order is a strict total order, so the first match is unique. */
  lemma BeforeTotal(a: FenceMatch, b: FenceMatch)
    ensures Before(a, b) ==> !Before(b, a)
    ensures a != b ==> Before(a, b) || Before(b, a)
  {
  }

  /** The engine's answer is exactly the first match in search order. */
  lemma FirstFenceIsFirstMatch(s: string, m: FenceMatch)
    ensures FirstFence(s) == Some(m) <==> IsFirstMatch(s, m)
  {
    if IsFirstMatch(s, m) {
      var r := FirstFence(s);
      assert r.Some?;
      assert !Before(r.value, m) && !Before(m, r.value);
      BeforeTotal(r.value, m);
    }
  }

  /** A match lying inside a prefix `u` of `s` is a match of `u` and of `s` alike. */
  lemma MatchInPrefix(u: string, s: string, m: FenceMatch)
    requires |u| <= |s| && u == s[..|u|] && m.End() <= |u|
    ensures IsMatch(u, m) <==> IsMatch(s, m)
  {
    if m.tag < |Tags| {
      var a := m.start + 3;
      assert u[a..a + |Tags[m.tag]|] == s[a..a + |Tags[m.tag]|];
    }
  }

  /** The characters between the opening backticks and the body are never backticks. */
  lemma HeadHasNoTicks(s: string, m: FenceMatch)
    requires IsMatch(s, m)
    ensures forall j :: m.start + 3 <= j < m.BodyStart() ==> s[j] != '`'
  {
    var w := Tags[m.tag];
    forall j | m.start + 3 <= j < m.TagEnd()
      ensures s[j] != '`'
    {
      assert s[m.start + 3..m.start + 3 + |w|][j - (m.start + 3)] == w[j - (m.start + 3)];
    }
  }

  /** A named tag starts with its own letter, and the four letters differ. */
  lemma TagFirstChar(s: string, i: nat, t: nat)
    requires TagAt(s, i, t) && t < 4
    ensures i < |s| && s[i] == Tags[t][0]
  {
    var w := Tags[t];
    assert s[i..i + |w|][0] == w[0];
  }

  /** What follows the opening backticks: the tag's first letter, or white space. */
  lemma HeadFirstChar(s: string, m: FenceMatch)
    requires IsMatch(s, m)
    ensures m.tag < 4 ==> s[m.start + 3] == Tags[m.tag][0]
    ensures m.tag == 4 ==> IsSpace(s[m.start + 3])
  {
    if m.tag < 4 {
      var w := Tags[m.tag];
      assert s[m.start + 3..m.start + 3 + |w|][0] == w[0];
    }
  }

  /**
   * The closing fence of a match whose body is not blank lies at or after the
   * body start of every match tried before it.
   */
  lemma EarlierReachesClose(s: string, a: FenceMatch, m: FenceMatch, j: nat)
    requires IsMatch(s, a) && IsMatch(s, m) && Before(a, m)
    requires m.BodyStart() <= j < m.BodyEnd() && !IsSpace(s[j])
    ensures a.BodyStart() <= m.BodyEnd()
  {
    HeadFirstChar(s, a);
    HeadFirstChar(s, m);
    HeadHasNoTicks(s, a);
    assert s[m.start] == '`' && s[m.BodyEnd() + 1] == '`';
  }

  /** A match stays a match when its body is stretched or shrunk to another closing fence. */
  lemma MoveClose(s: string, a: FenceMatch, k: nat)
    requires IsMatch(s, a) && a.BodyStart() <= k && CloseAt(s, k)
    ensures IsMatch(s, a.(body := k - a.BodyStart()))
  {
  }

  /**
   * Appending text after a first match whose body is not blank leaves it the
   * first match: later fenced blocks, and anything else that follows, are
   * ignored.
   */
  lemma FirstBlockWins(p: string, t: string, m: FenceMatch)
    requires FirstFence(p) == Some(m)
    requires !AllSpace(p, m.BodyStart(), m.BodyEnd())
    ensures FirstFence(p + t) == Some(m)
  {
    var s := p + t;
    assert p == s[..|p|];
    var j :| m.BodyStart() <= j < m.BodyEnd() && !IsSpace(p[j]);
    MatchInPrefix(p, s, m);
    forall a | IsMatch(s, a)
      ensures !Before(a, m)
    {
      if Before(a, m) {
        var b := EarlierEndsWithin(s, a, m, j);
        MatchInPrefix(p, s, b);
        assert false;
      }
    }
    FirstFenceIsFirstMatch(s, m);
  }

  /**
   * A match that comes before a match `m` with a non-blank body can be
   * closed at `m`'s close (or already closes earlier), giving a match before
   * `m` that ends no later than `m`.
   */
  lemma EarlierEndsWithin(s: string, a: FenceMatch, m: FenceMatch, j: nat) returns (b: FenceMatch)
    requires IsMatch(s, m) && IsMatch(s, a) && Before(a, m)
    requires m.BodyStart() <= j < m.BodyEnd() && !IsSpace(s[j])
    ensures IsMatch(s, b) && Before(b, m) && b.End() <= m.End()
  {
    EarlierReachesClose(s, a, m, j);
    if a.SameHead(m) {
      b := a;
      assert a.body < m.body;
    } else {
      var k := m.BodyEnd();
      MoveClose(s, a, k);
      b := a.(body := k - a.BodyStart());
      assert b.start == a.start && b.tag == a.tag && b.ws == a.ws;
      assert b.BodyEnd() == k;
    }
  }

  /** Cutting the text right after the first match keeps it the first match. */
  lemma FirstBlockSelfContained(s: string, m: FenceMatch)
    requires FirstFence(s) == Some(m)
    ensures m.End() <= |s| && FirstFence(s[..m.End()]) == Some(m)
  {
    var u := s[..m.End()];
    MatchInPrefix(u, s, m);
    forall a | IsMatch(u, a)
      ensures !Before(a, m)
    {
      MatchInPrefix(u, s, a);
    }
    FirstFenceIsFirstMatch(u, m);
  }

  /** A match inside a slice `s[a..b]` is, shifted by `a`, a match of `s`. */
  lemma MatchInSlice(s: string, a: nat, b: nat, m: FenceMatch)
    requires a <= b <= |s| && IsMatch(s[a..b], m)
    ensures IsMatch(s, m.(start := m.start + a))
  {
    var u := s[a..b];
    var w := Tags[m.tag];
    var i := m.start + 3;
    forall k | 0 <= k < |w|
      ensures s[a + i..a + i + |w|][k] == w[k]
    {
      assert u[i..i + |w|][k] == w[k];
    }
  }

  /** No match in `s` means no match in any slice of it. */
  lemma NoFenceInSlice(s: string, a: nat, b: nat)
    requires a <= b <= |s| && FirstFence(s) == None
    ensures FirstFence(s[a..b]) == None
  {
    forall m | IsMatch(s[a..b], m)
      ensures false
    {
      MatchInSlice(s, a, b, m);
    }
  }

  /** A match of `s` lying inside `s[a..b]` is, shifted back by `a`, a match of that slice. */
  lemma MatchIntoSlice(s: string, a: nat, b: nat, m: FenceMatch)
    requires a <= m.start && m.End() <= b <= |s| && IsMatch(s, m)
    ensures IsMatch(s[a..b], m.(start := m.start - a))
  {
    var u := s[a..b];
    var w := Tags[m.tag];
    var i := m.start - a + 3;
    assert u[i..i + |w|] == s[m.start + 3..m.start + 3 + |w|];
  }

  /** The first match of `s`, when it lies inside `s[a..b]`, is (shifted by `a`) the first match of that slice. */
  lemma FirstMatchInSlice(s: string, a: nat, b: nat, m: FenceMatch)
    requires FirstFence(s) == Some(m) && a <= m.start && m.End() <= b <= |s|
    ensures FirstFence(s[a..b]) == Some(m.(start := m.start - a))
  {
    var n := m.(start := m.start - a);
    MatchIntoSlice(s, a, b, m);
    forall c | IsMatch(s[a..b], c)
      ensures !Before(c, n)
    {
      MatchInSlice(s, a, b, c);
      assert !Before(c.(start := c.start + a), m);
    }
    FirstFenceIsFirstMatch(s[a..b], n);
  }

  /** Every match needs a line feed, so text without one has no code block. */
  lemma NoNewlineNoFence(s: string)
    requires forall k :: 0 <= k < |s| ==> s[k] != '\n'
    ensures FirstFence(s) == None
  {
  }

  /** The first match of "```\n\n```", for any text with these eight characters. */
  lemma BlankBodyFirst(s: string)
    requires |s| == 8 && TicksAt(s, 0) && s[3] == '\n' && s[4] == '\n' && TicksAt(s, 5)
    ensures FirstFence(s) == Some(FenceMatch(0, 4, 0, 0))
  {
    var m := FenceMatch(0, 4, 0, 0);
    assert OccursAt(Tags[4], s, 3);
    assert IsMatch(s, m);
    forall a | IsMatch(s, a)
      ensures !Before(a, m)
    {
      HeadFirstChar(s, a);
      assert a.start == 0 && a.tag == 4;
      assert s[a.BodyEnd()] == '\n';
    }
    FirstFenceIsFirstMatch(s, m);
  }

  /** The first match of "```\n\n```\n```", for any text with these twelve characters. */
  lemma BlankBodyExtendedFirst(s: string)
    requires |s| == 12 && TicksAt(s, 0) && s[3] == '\n' && s[4] == '\n' && TicksAt(s, 5)
    requires s[8] == '\n' && TicksAt(s, 9)
    ensures FirstFence(s) == Some(FenceMatch(0, 4, 1, 3))
  {
    var m := FenceMatch(0, 4, 1, 3);
    assert OccursAt(Tags[4], s, 3);
    assert IsMatch(s, m);
    forall a | IsMatch(s, a)
      ensures !Before(a, m)
    {
      HeadFirstChar(s, a);
      assert a.start == 0 && a.tag == 4;
      assert s[a.TagEnd() + a.ws] == '\n';
      assert s[a.BodyEnd()] == '\n';
    }
    FirstFenceIsFirstMatch(s, m);
  }

  /** A block whose body is empty. */
  const BlankBlock: string := "```\n\n```"

  /** A line holding a closing fence. */
  const ClosingLine: string := "\n```"

  /**
   * The prefix-extension property needs its non-blank body: the first match of
   * "```\n\n```" has an empty body, and appending "\n```" lets the greedy
   * white-space run keep one more line feed, so a different match is found.
   */
  lemma BlankFirstBlockNotStable()
    ensures FirstFence(BlankBlock) == Some(FenceMatch(0, 4, 0, 0))
    ensures FirstFence(BlankBlock + ClosingLine) == Some(FenceMatch(0, 4, 1, 3))
  {
    BlankBlockFirst();
    ExtendedBlankBlockFirst();
  }

  lemma BlankBlockFirst()
    ensures FirstFence(BlankBlock) == Some(FenceMatch(0, 4, 0, 0))
  {
    BlankBodyFirst(BlankBlock);
  }

  lemma ExtendedBlankBlockFirst()
    ensures FirstFence(BlankBlock + ClosingLine) == Some(FenceMatch(0, 4, 1, 3))
  {
    var s := BlankBlock + ClosingLine;
    assert s == "```\n\n```\n```";
    BlankBodyExtendedFirst(s);
  }
}
