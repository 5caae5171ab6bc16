/**
 * The redesign and scrape handlers (src/index.js:246-485): the `url` check,
 * the page read through the reader service, the prompt, the model's reply,
 * the extraction, the two validation checks, the clean-up, and the
 * response. The reader service and the model are inputs: a `ReaderReply`
 * and a function from the messages sent to the model's reply, where
 * `TimedOut` stands for the 30-second race being lost.
 */
module Pipeline {
  import opened Wrappers
  import opened Text
  import opened Json
  import opened Fence
  import opened Extraction
  import opened Cleanup
  import opened Prompts

  /** Code shorter than this is refused. */
  const MinCodeLength: nat := 100

  /** Why a reply was refused; each becomes the message of a thrown error. */
  datatype Rejection = NoOutput | CodeTooShort | NoHtmlTags
  {
    function Message(): string {
      match this
      case NoOutput => "AI tidak menghasilkan output"
      case CodeTooShort => "Generated code terlalu pendek, kemungkinan error dari AI"
      case NoHtmlTags => "Generated code tidak mengandung HTML tags yang valid"
    }
  }

  /** `!rawOutput || rawOutput.trim() === ''`. */
  predicate Blank(raw: Option<string>) {
    raw.None? || AllSpace(raw.value, 0, |raw.value|)
  }

  /**
   * From the model's reply to the final code and explanation: the blank
   * check, extraction, the length check and (for `html` only) the tag check
   * on the extracted code, and then the clean-up.
   */
  function ProcessOutput(raw: Option<string>, style: string, framework: string): (r: Result<Extracted, Rejection>)
    ensures r == Err(NoOutput) <==> Blank(raw)
    ensures r.Ok? ==> IsTrimmed(r.value.code) && |r.value.code| <= |raw.value|
  {
    if Blank(raw) then Err(NoOutput)
    else
      var x := Extract(raw.value, style);
      if |x.code| < MinCodeLength then Err(CodeTooShort)
      else if framework == "html" && '<' !in x.code then Err(NoHtmlTags)
      else Ok(Extracted(CleanCode(x.code), x.explanation))
  }

  /**
   * Acceptance, both ways: a reply is accepted exactly when it is not
   * blank, its extracted code has at least 100 characters, and, for `html`,
   * that code holds a `<`. The refusals are tried in that order, and outside
   * `html` the tag refusal never happens.
   */
  lemma ProcessOutputAccepts(raw: Option<string>, style: string, framework: string)
    ensures ProcessOutput(raw, style, framework) == Err(NoOutput) <==> Blank(raw)
    ensures ProcessOutput(raw, style, framework).Ok? <==>
      && !Blank(raw)
      && |Extract(raw.value, style).code| >= MinCodeLength
      && (framework == "html" ==> '<' in Extract(raw.value, style).code)
    ensures !Blank(raw) && |Extract(raw.value, style).code| < MinCodeLength ==>
      ProcessOutput(raw, style, framework) == Err(CodeTooShort)
    ensures framework != "html" ==> ProcessOutput(raw, style, framework) != Err(NoHtmlTags)
  {
  }

  /**
   * What an accepted reply yields: trimmed code cut from the reply, the
   * explanation found by extraction, and, for `html`, code that still holds
   * the `<` the tag check saw.
   */
  lemma AcceptedOutput(raw: Option<string>, style: string, framework: string)
    requires ProcessOutput(raw, style, framework).Ok?
    ensures var x := ProcessOutput(raw, style, framework).value;
      && IsTrimmed(x.code) && IsSliceOf(x.code, raw.value)
      && x.explanation == Extract(raw.value, style).explanation
      && (framework == "html" ==> '<' in x.code)
  {
    var code := Extract(raw.value, style).code;
    SliceOfSlice(CleanCode(code), code, raw.value);
    if framework == "html" {
      CleanKeepsTag(code);
    }
  }

  /** Outside `html` the framework plays no part in what is accepted or produced. */
  lemma FrameworkOnlyGuardsHtml(raw: Option<string>, style: string, f: string, g: string)
    requires f != "html" && g != "html"
    ensures ProcessOutput(raw, style, f) == ProcessOutput(raw, style, g)
  {
  }

  /** Clean-up only removes backticks, word characters and white space, so a `<` survives it. */
  lemma CleanKeepsTag(code: string)
    requires '<' in code
    ensures '<' in CleanCode(code)
  {
    OpeningKeepsTag(code);
    ClosingKeepsTag(StripOpeningFence(code));
    TrimKeepsTag(StripClosingFence(StripOpeningFence(code)));
  }

  lemma OpeningKeepsTag(code: string)
    requires '<' in code
    ensures '<' in StripOpeningFence(code)
  {
    var r := StripOpeningFence(code);
    var k :| 0 <= k < |code| && code[k] == '<';
    if TicksAt(code, 0) {
      var d := |code| - |r|;
      assert code[0] == '`' && code[1] == '`' && code[2] == '`';
      assert !IsWordChar(code[k]) && !IsSpace(code[k]);
      assert d <= k;
      assert r[k - d] == code[d..][k - d];
    }
  }

  lemma ClosingKeepsTag(code: string)
    requires '<' in code
    ensures '<' in StripClosingFence(code)
  {
    var r := StripClosingFence(code);
    var k :| 0 <= k < |code| && code[k] == '<';
    assert code[..|r|] == r;
    if EndsWith(code, "```") {
      if code == r + "\n```" {
        assert forall j :: |r| <= j < |code| ==> code[j] == "\n```"[j - |r|];
      } else {
        assert forall j :: |r| <= j < |code| ==> code[j] == "```"[j - |r|];
      }
    }
    assert k < |r|;
    assert r[k] == '<';
  }

  lemma TrimKeepsTag(s: string)
    requires '<' in s
    ensures '<' in Trim(s)
  {
    var k :| 0 <= k < |s| && s[k] == '<';
    TrimKeeps(s, k);
    var b := TrimBounds(s);
    assert Trim(s) == s[b.0..b.1];
    assert Trim(s)[k - b.0] == '<';
  }

  /**
   * The checks run before the clean-up, so accepted code can be far shorter
   * than 100 characters: three backticks, at least 97 word characters and a
   * `<` pass both checks and come out as the single character `<`.
   */
  lemma ShortCodeAccepted(w: string, style: string)
    requires |w| >= 97 && forall k :: 0 <= k < |w| ==> IsWordChar(w[k])
    ensures ProcessOutput(Some("```" + w + "<"), style, "html") == Ok(Extracted("<", DefaultExplanation(style)))
  {
    var s := "```" + w + "<";
    WholeReplyIsCode(w, style);
    assert s[|s| - 1] == '<';
    assert !Blank(Some(s)) by { assert s[0] == '`'; }
    CleanedToTag(w);
  }

  lemma WholeReplyIsCode(w: string, style: string)
    requires forall k :: 0 <= k < |w| ==> IsWordChar(w[k])
    ensures Extract("```" + w + "<", style) == Extracted("```" + w + "<", DefaultExplanation(style))
  {
    var s := "```" + w + "<";
    forall j | 0 <= j < |s| ensures s[j] != '\n' {
      if j < 3 { } else if j < 3 + |w| { assert s[j] == w[j - 3]; } else { }
    }
    NoNewlineNoFence(s);
    WholeOutputIff(s, style);
    assert s[0] == '`' && s[|s| - 1] == '<';
    TrimOfTrimmed(s);
  }

  lemma CleanedToTag(w: string)
    requires forall k :: 0 <= k < |w| ==> IsWordChar(w[k])
    ensures CleanCode("```" + w + "<") == "<"
  {
    var s := "```" + w + "<";
    assert TicksAt(s, 0) by { assert s[0] == '`' && s[1] == '`' && s[2] == '`'; }
    forall k | 3 <= k < 3 + |w| ensures IsWordChar(s[k]) { assert s[k] == w[k - 3]; }
    RunOfWordChars(s, 3, 3 + |w|);
    assert s[3 + |w|..] == "<";
    OpeningNewlineNeverTaken(s);
    assert StripClosingFence("<") == "<";
    TrimOfTrimmed("<");
  }

  /** A run of word characters ending at a character that is neither word nor space is taken whole. */
  lemma {:induction false} RunOfWordChars(s: string, i: nat, j: nat)
    requires i <= j < |s|
    requires forall k :: i <= k < j ==> IsWordChar(s[k])
    requires !IsWordChar(s[j]) && !IsSpace(s[j])
    ensures WordOrSpaceRun(s, i) == j - i
    decreases j - i
  {
    if i < j {
      RunOfWordChars(s, i + 1, j);
    }
  }

  /** One such reply: 101 characters, accepted, and one character of code left. */
  lemma AcceptedCodeCanBeShort(style: string)
    ensures var reply := "```" + seq(97, _ => 'a') + "<";
      |reply| == 101 && ProcessOutput(Some(reply), style, "html") == Ok(Extracted("<", DefaultExplanation(style)))
  {
    ShortCodeAccepted(seq(97, _ => 'a'), style);
  }

  // The handlers.

  /** The fields of a redesign request, with `style` and `framework` absent or strings. */
  datatype RedesignRequest = RedesignRequest(
    url: JsValue, style: Option<string>, framework: Option<string>, includeJS: JsValue)

  /** What the reader service gave for the page. */
  datatype ReaderReply = ReaderFailed(statusText: string) | ReaderOk(text: string)

  /** What the model run gave: it lost the race with the timeout, threw, or returned a `response` field. */
  datatype ModelReply = TimedOut | RunFailed(message: string) | Completed(response: Option<string>)

  datatype RedesignResponse =
    | RedesignBadRequest(error: string)
    | RedesignFailed(error: string, url: JsValue, style: string, framework: string)
    | Redesigned(url: JsValue, style: string, framework: string, code: string, explanation: string,
                 codeLength: nat, scrapedLength: nat, usedLength: nat)
  {
    /** The HTTP status of the response. */
    function Status(): int {
      match this
      case RedesignBadRequest(_) => 400
      case RedesignFailed(_, _, _, _) => 500
      case Redesigned(_, _, _, _, _, _, _, _) => 200
    }
  }

  const ScrapeFailedPrefix: string := "Failed to scrape: "
  const TimeoutMessage: string := "AI request timeout"
  const RedesignFailedPrefix: string := "Gagal redesign website: "
  const ScrapeFailedLead: string := "Gagal scrape website: "
  const UrlRequired: string := "URL wajib diisi"

  /** `style` and `framework` with their destructuring defaults. */
  function Style(req: RedesignRequest): string { req.style.GetOr("modern") }

  function Framework(req: RedesignRequest): string { req.framework.GetOr("html") }

  /** The messages the model is asked with: the request's choices and the page as read. */
  function Ask(req: RedesignRequest, text: string): seq<Message> {
    Messages(Style(req), Framework(req), Truthy(req.includeJS), text)
  }

  /** The 500 answer: the cause behind the handler's own prefix, with the request's choices. */
  function Failure(req: RedesignRequest, cause: string): RedesignResponse {
    RedesignFailed(RedesignFailedPrefix + cause, req.url, Style(req), Framework(req))
  }

  /** From the model's reply on the page `text` to the response. */
  function Outcome(req: RedesignRequest, text: string, reply: ModelReply): (r: RedesignResponse)
    ensures r.Redesigned? || r.RedesignFailed?
    ensures r.Redesigned? ==> reply.Completed? && r.codeLength == |r.code| && r.scrapedLength == |text|
    ensures r.Redesigned? ==> r.usedLength == Min(|text|, ContentLimit)
  {
    match reply
    case TimedOut => Failure(req, TimeoutMessage)
    case RunFailed(msg) => Failure(req, msg)
    case Completed(raw) =>
      var processed := ProcessOutput(raw, Style(req), Framework(req));
      if processed.Err? then Failure(req, processed.error.Message())
      else
        var x := processed.value;
        Redesigned(req.url, Style(req), Framework(req), x.code, x.explanation,
                   |x.code|, |text|, |Truncate(text)|)
  }

  /** The handler from the request to its response; every failure after the `url` check is a 500. */
  function HandleRedesign(req: RedesignRequest, reader: ReaderReply, model: seq<Message> -> ModelReply)
    : (r: RedesignResponse)
    ensures r.RedesignBadRequest? <==> !Truthy(req.url)
    ensures r.Redesigned? ==> reader.ReaderOk? && r.scrapedLength == |reader.text|
  {
    if !Truthy(req.url) then RedesignBadRequest(UrlRequired)
    else
      match reader
      case ReaderFailed(st) => Failure(req, ScrapeFailedPrefix + st)
      case ReaderOk(text) => Outcome(req, text, model(Ask(req, text)))
  }

  /** 400, with the handler's message, exactly when `url` is falsy; the page is then never read. */
  lemma RedesignBadRequestIff(req: RedesignRequest, reader: ReaderReply, model: seq<Message> -> ModelReply)
    ensures HandleRedesign(req, reader, model).Status() == 400 <==> !Truthy(req.url)
    ensures !Truthy(req.url) ==> HandleRedesign(req, reader, model) == RedesignBadRequest(UrlRequired)
  {
  }

  /** A page that cannot be read is a 500 naming the reader's status text. */
  lemma RedesignScrapeFailure(req: RedesignRequest, st: string, model: seq<Message> -> ModelReply)
    requires Truthy(req.url)
    ensures HandleRedesign(req, ReaderFailed(st), model) ==
      RedesignFailed(RedesignFailedPrefix + ScrapeFailedPrefix + st, req.url, Style(req), Framework(req))
  {
  }

  /**
   * Success exactly when the model completed and its reply was accepted;
   * then the response carries the processed reply and the page's length
   * before and after the 3000-character cut. A lost race, a thrown error
   * and a refused reply are each a 500 naming the cause; there is no
   * fallback page.
   */
  lemma OutcomeOfReply(req: RedesignRequest, text: string, reply: ModelReply)
    ensures var r := Outcome(req, text, reply);
      && (r.Redesigned? <==> reply.Completed? && ProcessOutput(reply.response, Style(req), Framework(req)).Ok?)
      && (r.Redesigned? ==>
            && Extracted(r.code, r.explanation) == ProcessOutput(reply.response, Style(req), Framework(req)).value
            && r.codeLength == |r.code| && r.scrapedLength == |text| && r.usedLength == Min(|text|, ContentLimit))
      && (reply.TimedOut? ==> r.Status() == 500 && r.error == RedesignFailedPrefix + TimeoutMessage)
      && (reply.RunFailed? ==> r.Status() == 500 && r.error == RedesignFailedPrefix + reply.message)
      && (!r.Redesigned? ==> r.Status() == 500 && StartsWith(r.error, RedesignFailedPrefix))
  {
    var r := Outcome(req, text, reply);
    if r.RedesignFailed? {
      assert StartsWith(r.error, RedesignFailedPrefix);
    }
  }

  /** Once the page is read, the handler's answer is the outcome of the model's reply to `Ask`. */
  lemma RedesignOutcome(req: RedesignRequest, text: string, model: seq<Message> -> ModelReply)
    requires Truthy(req.url)
    ensures HandleRedesign(req, ReaderOk(text), model) == Outcome(req, text, model(Ask(req, text)))
  {
  }

  /**
   * The model sees only the first 3000 characters of the page: two pages
   * that agree on them get the same answer, apart from the reported length
   * of the page as read.
   */
  lemma PageBeyondLimitUnseen(req: RedesignRequest, t1: string, t2: string, model: seq<Message> -> ModelReply)
    requires Truthy(req.url) && Truncate(t1) == Truncate(t2)
    ensures var r1, r2 := HandleRedesign(req, ReaderOk(t1), model), HandleRedesign(req, ReaderOk(t2), model);
      && (r1.Redesigned? <==> r2.Redesigned?)
      && (r1.Redesigned? ==> r1.(scrapedLength := |t2|) == r2)
      && (!r1.Redesigned? ==> r1 == r2)
  {
    RedesignOutcome(req, t1, model);
    RedesignOutcome(req, t2, model);
    AskSeesOnlyCut(req, t1, t2);
    OutcomeSeesOnlyCut(req, t1, t2, model(Ask(req, t1)));
  }

  /** The messages depend on the page only through its first 3000 characters. */
  lemma AskSeesOnlyCut(req: RedesignRequest, t1: string, t2: string)
    requires Truncate(t1) == Truncate(t2)
    ensures Ask(req, t1) == Ask(req, t2)
  {
    PromptDeterminesTruncatedContent(Style(req), Framework(req), Truthy(req.includeJS), t1, t2);
  }

  /** One reply on two pages with the same cut: the same outcome but for the reported page length. */
  lemma OutcomeSeesOnlyCut(req: RedesignRequest, t1: string, t2: string, reply: ModelReply)
    requires Truncate(t1) == Truncate(t2)
    ensures var r1, r2 := Outcome(req, t1, reply), Outcome(req, t2, reply);
      && (r1.Redesigned? <==> r2.Redesigned?)
      && (r1.Redesigned? ==> r1.(scrapedLength := |t2|) == r2)
      && (!r1.Redesigned? ==> r1 == r2)
  {
  }

  datatype ScrapeResponse =
    | ScrapeBadRequest(error: string)
    | ScrapeFailed(error: string)
    | Scraped(url: JsValue, content: string, length: nat)

  /** The scrape handler: the page as the reader service gave it, or a 500 naming the status text. */
  function HandleScrape(url: JsValue, reader: ReaderReply): (r: ScrapeResponse)
    ensures r.ScrapeBadRequest? <==> !Truthy(url)
    ensures r.Scraped? <==> Truthy(url) && reader.ReaderOk?
    ensures r.Scraped? ==> r.content == reader.text && r.length == |reader.text|
    ensures r.ScrapeFailed? ==> r.error == ScrapeFailedLead + ScrapeFailedPrefix + reader.statusText
  {
    if !Truthy(url) then ScrapeBadRequest(UrlRequired)
    else
      match reader
      case ReaderFailed(st) => ScrapeFailed(ScrapeFailedLead + ScrapeFailedPrefix + st)
      case ReaderOk(text) => Scraped(url, text, |text|)
  }
}
