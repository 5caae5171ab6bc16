/**
 * Turning the model's raw reply into candidate code and an explanation
 * (src/index.js, `handleRedesign`, the block after the blank-output check).
 *
 * The first code-block match is used only when its captured body is
 * non-empty (`match && match[1]`); then the code is the trimmed body and the
 * explanation is taken from the trimmed text before the block, else from the
 * trimmed text after it, each only when its length lies strictly between 10
 * and 500, else a default sentence naming the style. Without a usable block
 * the whole trimmed reply is the code and the default sentence is kept.
 */
module Extraction {
  import opened Wrappers
  import opened Text
  import opened Fence

  datatype Extracted = Extracted(code: string, explanation: string)

  /** The explanation used when no text around the block qualifies. */
  function DefaultExplanation(style: string): string {
    "Website diredesign dengan style " + style + " menggunakan Tailwind CSS."
  }

  /** `text.length > 10 && text.length < 500`. */
  predicate FitsExplanation(text: string) {
    10 < |text| < 500
  }

  /** Capture group 1 of a match. */
  function Body(s: string, m: FenceMatch): (b: string)
    requires IsMatch(s, m)
    ensures |b| == m.body
  {
    s[m.BodyStart()..m.BodyEnd()]
  }

  /** `match && match[1]`: the first match, when its captured body is non-empty. */
  function UsableBlock(raw: string): (r: Option<FenceMatch>)
    ensures r.Some? ==> IsFirstMatch(raw, r.value) && r.value.body > 0
    ensures r.None? <==> FirstFence(raw).None? || FirstFence(raw).value.body == 0
  {
    var found := FirstFence(raw);
    if found.Some? && found.value.body > 0 then found else None
  }

  /** The code and explanation the handler derives from a reply. */
  function Extract(raw: string, style: string): (x: Extracted)
    ensures IsTrimmed(x.code) && IsSliceOf(x.code, raw)
    ensures x.explanation == DefaultExplanation(style) || FitsExplanation(x.explanation)
  {
    match UsableBlock(raw)
    case None => Extracted(Trim(raw), DefaultExplanation(style))
    case Some(m) =>
      var body := Body(raw, m);
      var before := Trim(raw[..m.start]);
      var after := Trim(raw[m.End()..]);
      SubIsSlice(raw, m.BodyStart(), m.BodyEnd());
      SliceOfSlice(Trim(body), body, raw);
      Extracted(
        Trim(body),
        if FitsExplanation(before) then before
        else if FitsExplanation(after) then after
        else DefaultExplanation(style))
  }

  /**
   * The whole trimmed reply becomes the code exactly when there is no usable
   * block; then the explanation is the default sentence.
   */
  lemma WholeOutputIff(raw: string, style: string)
    ensures Extract(raw, style).code == Trim(raw) <==> UsableBlock(raw).None?
    ensures UsableBlock(raw).None? ==> Extract(raw, style).explanation == DefaultExplanation(style)
  {
    if UsableBlock(raw).Some? {
      var m := UsableBlock(raw).value;
      assert raw[m.start] == '`' && raw[m.End() - 1] == '`';
      TrimKeeps(raw, m.start);
      TrimKeeps(raw, m.End() - 1);
      assert |Trim(raw)| >= m.End() - m.start > m.body;
    }
  }

  /**
   * The explanation never comes from the block: it is the default sentence,
   * or a qualifying trimmed piece of the text before the block or after it,
   * and the text before wins when both qualify.
   */
  lemma ExplanationOutsideBlock(raw: string, style: string)
    ensures var e := Extract(raw, style).explanation;
      e == DefaultExplanation(style) ||
      (UsableBlock(raw).Some? && FitsExplanation(e) &&
       (IsSliceOf(e, raw[..UsableBlock(raw).value.start]) ||
        IsSliceOf(e, raw[UsableBlock(raw).value.End()..])))
    ensures UsableBlock(raw).Some? ==>
      var m := UsableBlock(raw).value;
      var before, after := Trim(raw[..m.start]), Trim(raw[m.End()..]);
      && (FitsExplanation(before) ==> Extract(raw, style).explanation == before)
      && (!FitsExplanation(before) && FitsExplanation(after) ==> Extract(raw, style).explanation == after)
      && (!FitsExplanation(before) && !FitsExplanation(after) ==>
            Extract(raw, style).explanation == DefaultExplanation(style))
  {
  }

  /**
   * Only the first block matters: once a reply holds a block whose code is
   * not blank, appending anything (further blocks included) keeps the code.
   */
  lemma FirstBlockCodeWins(p: string, t: string, style: string)
    requires UsableBlock(p).Some?
    requires Trim(Body(p, UsableBlock(p).value)) != []
    ensures Extract(p + t, style).code == Extract(p, style).code
  {
    UsableBlockKept(p, t);
    BlockCode(p, style);
    BlockCode(p + t, style);
  }

  /** A usable block whose body is not blank stays the usable block, with the same body, after an append. */
  lemma UsableBlockKept(p: string, t: string)
    requires UsableBlock(p).Some?
    requires Trim(Body(p, UsableBlock(p).value)) != []
    ensures UsableBlock(p + t) == UsableBlock(p)
    ensures Body(p + t, UsableBlock(p).value) == Body(p, UsableBlock(p).value)
  {
    var m := UsableBlock(p).value;
    var body := Body(p, m);
    var j: nat :| j < |body| && !IsSpace(body[j]);
    assert !IsSpace(p[m.BodyStart() + j]);
    FirstBlockWins(p, t, m);
    assert (p + t)[m.BodyStart()..m.BodyEnd()] == body;
  }

  /** With a usable block, the code is its body, trimmed. */
  lemma BlockCode(raw: string, style: string)
    requires UsableBlock(raw).Some?
    ensures Extract(raw, style).code == Trim(Body(raw, UsableBlock(raw).value))
  {
  }

  /**
   * Text without a usable code block is its own extraction: the code is the
   * trimmed text, and extracting again from that code gives it back
   * unchanged, since trimming keeps the first match (it starts and ends with
   * a backtick) and so keeps its empty body.
   */
  lemma ExtractWithoutBlockIsStable(raw: string, style: string)
    requires UsableBlock(raw).None?
    ensures Extract(raw, style).code == Trim(raw)
    ensures Extract(Extract(raw, style).code, style).code == Trim(raw)
  {
    TrimKeepsNoUsableBlock(raw);
    TrimIdempotent(raw);
  }

  /** Trimming a text without a usable block leaves none: its first match, if any, keeps its empty body. */
  lemma TrimKeepsNoUsableBlock(raw: string)
    requires UsableBlock(raw).None?
    ensures UsableBlock(Trim(raw)).None?
  {
    var b := TrimBounds(raw);
    assert Trim(raw) == raw[b.0..b.1];
    var found := FirstFence(raw);
    if found.None? {
      NoFenceInSlice(raw, b.0, b.1);
    } else {
      var m := found.value;
      TrimKeeps(raw, m.start);
      TrimKeeps(raw, m.End() - 1);
      FirstMatchInSlice(raw, b.0, b.1, m);
    }
  }

  /** The reply "```" + tag + LF + body + LF + "```". */
  function SingleBlock(t: nat, body: string): (s: string)
    requires t < |Tags|
    ensures |s| == 3 + |Tags[t]| + |body| + 5
  {
    "```" + Tags[t] + "\n" + body + "\n```"
  }

  /** Where the pieces of a single block lie. */
  lemma SingleBlockShape(t: nat, body: string)
    requires t < |Tags|
    ensures var s, e := SingleBlock(t, body), 3 + |Tags[t]|;
      && TicksAt(s, 0) && OccursAt(Tags[t], s, 3) && s[e] == '\n'
      && (forall j :: 0 <= j < |body| ==> s[e + 1 + j] == body[j])
      && s[e + 1 + |body|] == '\n'
      && (forall j :: e + 2 + |body| <= j < |s| ==> s[j] == '`')
  {
    var s := SingleBlock(t, body);
    var e := 3 + |Tags[t]|;
    assert s[..3] == "```" && s[3..e] == Tags[t];
    assert s[0] == '`' && s[1] == '`' && s[2] == '`';
  }

  /** No match of a single block comes before the one around its body. */
  lemma SingleBlockNoEarlier(t: nat, body: string, a: FenceMatch)
    requires t < |Tags|
    requires forall j :: 0 <= j < |body| ==> body[j] != '\n'
    requires IsMatch(SingleBlock(t, body), a)
    ensures !Before(a, FenceMatch(0, t, 0, |body|))
  {
    var s := SingleBlock(t, body);
    SingleBlockShape(t, body);
    HeadFirstChar(s, a);
    if t < 4 {
      TagFirstChar(s, 3, t);
    }
    assert s[a.TagEnd() + a.ws] == '\n';
    assert s[a.BodyEnd()] == '\n';
  }

  /** The first match of a single block whose body holds no line feed. */
  lemma SingleBlockMatch(t: nat, body: string)
    requires t < |Tags|
    requires forall j :: 0 <= j < |body| ==> body[j] != '\n'
    ensures FirstFence(SingleBlock(t, body)) == Some(FenceMatch(0, t, 0, |body|))
  {
    var s := SingleBlock(t, body);
    var m := FenceMatch(0, t, 0, |body|);
    SingleBlockShape(t, body);
    assert IsMatch(s, m);
    forall a | IsMatch(s, a)
      ensures !Before(a, m)
    {
      SingleBlockNoEarlier(t, body, a);
    }
    FirstFenceIsFirstMatch(s, m);
  }

  /**
   * A reply that is exactly one fenced block, under any of the tags, around a
   * non-blank body without line feeds yields that body, trimmed, as the code.
   */
  lemma SingleBlockExtract(t: nat, body: string, style: string)
    requires t < |Tags|
    requires forall j :: 0 <= j < |body| ==> body[j] != '\n'
    requires !AllSpace(body, 0, |body|)
    ensures Extract(SingleBlock(t, body), style).code == Trim(body)
  {
    var s := SingleBlock(t, body);
    SingleBlockMatch(t, body);
    var m := FenceMatch(0, t, 0, |body|);
    assert s[m.BodyStart()..m.BodyEnd()] == body;
  }

  /** The single block around `<div>Hi</div>` yields exactly `<div>Hi</div>`. */
  lemma DivExample(style: string)
    ensures Extract(SingleBlock(0, "<div>Hi</div>"), style).code == "<div>Hi</div>"
  {
    var b := "<div>Hi</div>";
    assert !IsSpace(b[0]) && !IsSpace(b[|b| - 1]);
    TrimOfTrimmed(b);
    SingleBlockExtract(0, b, style);
  }
}
