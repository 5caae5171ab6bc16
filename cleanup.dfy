/**
 * The clean-up applied to validated code in the redesign handler:
 *
 *     code.replace(/^```[\w\s]*\n?/g, '').replace(/\n?```$/g, '').trim()
 *
 * Without the `m` flag, `^` and `$` only match at the ends of the whole
 * string, so each `replace` removes at most one piece even with `g`.
 */
module Cleanup {
  import opened Text
  import opened Fence

  /**
   * `/^```[\w\s]*\n?/`: three leading backticks, the greedy run of word and
   * space characters after them, then an optional line feed.
   */
  function StripOpeningFence(code: string): (r: string)
    ensures EndsWith(code, r)
    ensures !TicksAt(code, 0) ==> r == code
    ensures TicksAt(code, 0) ==> |r| <= |code| - 3
    ensures TicksAt(code, 0) && r != [] ==> !IsWordChar(r[0]) && !IsSpace(r[0])
    ensures TicksAt(code, 0) ==>
      forall k :: 3 <= k < |code| - |r| ==> IsWordChar(code[k]) || IsSpace(code[k])
  {
    if TicksAt(code, 0) then
      var n := 3 + WordOrSpaceRun(code, 3);
      var cut := if n < |code| && code[n] == '\n' then n + 1 else n;
      code[cut..]
    else code
  }

  /**
   * The optional `\n?` after `[\w\s]*` never consumes anything: the greedy
   * run has already taken every line feed, so what is removed is exactly the
   * backticks and the run.
   */
  lemma OpeningNewlineNeverTaken(code: string)
    requires TicksAt(code, 0)
    ensures StripOpeningFence(code) == code[3 + WordOrSpaceRun(code, 3)..]
  {
  }

  /**
   * `/\n?```$/`, searched from the left: a trailing "```" is removed, together
   * with the line feed before it when there is one.
   */
  function StripClosingFence(code: string): (r: string)
    ensures StartsWith(code, r)
    ensures !EndsWith(code, "```") ==> r == code
    ensures EndsWith(code, "```") ==>
      code == r + "\n```" || (code == r + "```" && !EndsWith(r, "\n"))
  {
    if EndsWith(code, "```") then
      if |code| >= 4 && code[|code| - 4] == '\n' then code[..|code| - 4] else code[..|code| - 3]
    else code
  }

  /** The whole clean-up: both fences removed, then trimmed. */
  function CleanCode(code: string): (r: string)
    ensures |r| <= |code| && IsSliceOf(r, code)
  {
    var unopened := StripOpeningFence(code);
    var unclosed := StripClosingFence(unopened);
    var a := |code| - |unopened|;
    assert code[a..|code|] == unopened;
    SubIsSlice(code, a, |code|);
    assert unopened[0..|unclosed|] == unclosed;
    SubIsSlice(unopened, 0, |unclosed|);
    SliceOfSlice(unclosed, unopened, code);
    SliceOfSlice(Trim(unclosed), unclosed, code);
    Trim(unclosed)
  }

  /** Code that is trimmed and neither starts nor ends with three backticks is left as it is. */
  lemma CleanCodeKeepsUnfenced(code: string)
    requires IsTrimmed(code)
    requires !StartsWith(code, "```") && !EndsWith(code, "```")
    ensures CleanCode(code) == code
  {
    if |code| >= 3 {
      assert code[..3] == "```" <==> TicksAt(code, 0);
    }
    assert StripOpeningFence(code) == code;
    assert StripClosingFence(code) == code;
    TrimOfTrimmed(code);
  }

  /**
   * Clean-up removes only the fences: what it keeps is the trimmed middle
   * `code[a..b]`, where `code[..a]` is empty or three backticks and a run of
   * word and space characters, and `code[b..]` is empty, "```" or "\n```".
   */
  lemma CleanCodeRemovesOnlyFences(code: string)
    ensures exists a: nat, b: nat ::
      && a <= b <= |code|
      && CleanCode(code) == Trim(code[a..b])
      && (a == 0 || (TicksAt(code, 0) && forall k :: 3 <= k < a ==> IsWordChar(code[k]) || IsSpace(code[k])))
      && (code[b..] == [] || code[b..] == "```" || code[b..] == "\n```")
  {
    var unopened := StripOpeningFence(code);
    var unclosed := StripClosingFence(unopened);
    var a := |code| - |unopened|;
    var b := a + |unclosed|;
    assert code[a..] == unopened;
    assert unopened[..|unclosed|] == unclosed;
    assert code[a..b] == unclosed;
    assert code[b..] == unopened[|unclosed|..];
  }
}
