/**
 * The handlers that relay a request to the model after one check
 * (src/index.js:85-243): the required field each one reads from the body,
 * the 400 answer when that field is missing, and the system prompts the
 * analysis, summary and code handlers build from their lookup tables.
 */
module Relay {
  import opened Wrappers
  import opened Text
  import opened Json
  import opened Router
  import Prompts

  /** The body field a handler cannot do without. */
  function RequiredField(route: Route): (f: Option<string>)
    ensures f.Some? <==> route.IsHandler()
  {
    match route
    case Chat => Some("messages")
    case Stream => Some("messages")
    case Code => Some("prompt")
    case Analyze => Some("text")
    case Summarize => Some("text")
    case Redesign => Some("url")
    case Scrape => Some("url")
    case _ => None
  }

  /** The message of the 400 answer for a missing or unusable required field. */
  function MissingFieldMessage(route: Route): string
    requires route.IsHandler()
  {
    match route
    case Chat => "Format messages salah. Harus array of objects."
    case Stream => "Format messages salah"
    case Code => "Prompt wajib diisi"
    case Analyze => "Text wajib diisi"
    case Summarize => "Text wajib diisi"
    case Redesign => "URL wajib diisi"
    case Scrape => "URL wajib diisi"
  }

  /**
   * The check each handler makes first: `!messages || !Array.isArray(messages)`
   * for the two chat handlers, plain falsiness for the others.
   */
  function RequiredFieldError(route: Route, body: map<string, JsValue>): (e: Option<string>)
    ensures e.Some? ==> route.IsHandler() && e.value == MissingFieldMessage(route)
    ensures !route.IsHandler() ==> e.None?
  {
    match route
    case Chat =>
      var m := Field(body, "messages");
      if !Truthy(m) || !IsArray(m) then Some(MissingFieldMessage(route)) else None
    case Stream =>
      var m := Field(body, "messages");
      if !Truthy(m) || !IsArray(m) then Some(MissingFieldMessage(route)) else None
    case Code => if !Truthy(Field(body, "prompt")) then Some(MissingFieldMessage(route)) else None
    case Analyze => if !Truthy(Field(body, "text")) then Some(MissingFieldMessage(route)) else None
    case Summarize => if !Truthy(Field(body, "text")) then Some(MissingFieldMessage(route)) else None
    case Redesign => if !Truthy(Field(body, "url")) then Some(MissingFieldMessage(route)) else None
    case Scrape => if !Truthy(Field(body, "url")) then Some(MissingFieldMessage(route)) else None
    case _ => None
  }

  /**
   * Only the required field decides: a handler answers 400 exactly when that
   * field is unusable (for the chat handlers, not an array, since every array
   * is truthy; for the others, falsy), and always with its own message.
   */
  lemma RequiredFieldDecides(route: Route, body: map<string, JsValue>)
    requires route.IsHandler()
    ensures var v := Field(body, RequiredField(route).value);
      RequiredFieldError(route, body) ==
        if (if route == Chat || route == Stream then IsArray(v) else Truthy(v)) then None
        else Some(MissingFieldMessage(route))
  {
    var v := Field(body, RequiredField(route).value);
    if route == Chat || route == Stream {
      assert IsArray(v) ==> Truthy(v);
    }
  }

  /** A body without the required field is always turned away, before any model call. */
  lemma MissingFieldRejected(route: Route, body: map<string, JsValue>)
    requires route.IsHandler() && RequiredField(route).value !in body
    ensures RequiredFieldError(route, body) == Some(MissingFieldMessage(route))
  {
    RequiredFieldDecides(route, body);
  }

  /** Two bodies that agree on the required field get the same verdict. */
  lemma OtherFieldsIrrelevant(route: Route, b1: map<string, JsValue>, b2: map<string, JsValue>)
    requires route.IsHandler()
    requires Field(b1, RequiredField(route).value) == Field(b2, RequiredField(route).value)
    ensures RequiredFieldError(route, b1) == RequiredFieldError(route, b2)
  {
    RequiredFieldDecides(route, b1);
    RequiredFieldDecides(route, b2);
  }

  const SentimentPrompt: string :=
    "Analisis sentimen dari teks berikut. Tentukan apakah positif, negatif, atau netral, dan berikan alasannya."
  const CodeReviewPrompt: string :=
    "Review kode berikut. Cari bug, masalah performa, security issues, dan berikan saran improvement."
  const SeoPrompt: string :=
    "Analisis teks dari perspektif SEO. Berikan saran untuk keyword, readability, dan optimization."
  const GeneralAnalysisPrompt: string :=
    "Analisis teks berikut secara mendalam dan berikan insight yang berguna."

  /** The `switch (type)` of the analysis handler; it compares with `===`, so only strings match a case. */
  function AnalysisPrompt(kind: JsValue): (p: string)
    ensures !kind.Str? ==> p == GeneralAnalysisPrompt
  {
    match kind
    case Str(s) =>
      if s == "sentiment" then SentimentPrompt
      else if s == "code-review" then CodeReviewPrompt
      else if s == "seo" then SeoPrompt
      else GeneralAnalysisPrompt
    case _ => GeneralAnalysisPrompt
  }

  /**
   * The three named analyses get three different prompts, and every other
   * `type` (the default `general`, a missing one, a non-string) gets the
   * general prompt.
   */
  lemma AnalysisPromptResolution(kind: JsValue)
    ensures AnalysisPrompt(kind) == GeneralAnalysisPrompt <==>
      kind !in {Str("sentiment"), Str("code-review"), Str("seo")}
    ensures AnalysisPrompt(Str("sentiment")) != AnalysisPrompt(Str("code-review"))
    ensures AnalysisPrompt(Str("sentiment")) != AnalysisPrompt(Str("seo"))
    ensures AnalysisPrompt(Str("code-review")) != AnalysisPrompt(Str("seo"))
  {
    assert |SentimentPrompt| == 106 && |CodeReviewPrompt| == 96;
    assert |SeoPrompt| == 94 && |GeneralAnalysisPrompt| == 71;
  }

  /** The analysis request sent to the model: the chosen prompt, then the text as it came. */
  function AnalysisMessages(kind: JsValue, text: string): (ms: seq<Prompts.Message>)
    ensures |ms| == 2 && ms[0].content == AnalysisPrompt(kind) && ms[1] == Prompts.Message("user", text)
  {
    [Prompts.Message("system", AnalysisPrompt(kind)), Prompts.Message("user", text)]
  }

  const ShortSummary: string := "dalam 2-3 kalimat singkat"
  const MediumSummary: string := "dalam 1 paragraf (5-7 kalimat)"
  const LongSummary: string := "dalam beberapa paragraf dengan detail penting"

  /** The summary length table; `medium` is both the destructuring default and the fallback. */
  const LengthGuides: map<string, string> := map[
    "short" := ShortSummary,
    "medium" := MediumSummary,
    "long" := LongSummary
  ]

  /**
   * The key `lengthGuide[length]` looks up: `length` defaults to `medium`
   * when missing, and any other value is turned into its property key.
   */
  function LengthKey(length: JsValue): (k: Option<string>)
    ensures length.Undefined? ==> k == Some("medium")
    ensures length.Str? ==> k == Some(length.s)
  {
    if length.Undefined? then Some("medium") else PropertyKey(length)
  }

  /**
   * `lengthGuide[length] || lengthGuide.medium`. A number's key is never one
   * of the table's words, so it falls back to `medium` too.
   */
  function LengthGuide(length: JsValue): (g: string)
    ensures g in LengthGuides.Values
  {
    var k := LengthKey(length);
    if k.Some? then Prompts.Lookup(LengthGuides, k.value, "medium") else LengthGuides["medium"]
  }

  const SummaryLead: string := "Ringkas teks berikut "

  /** The rest of the summary instruction; the template leaves a space before its first line break. */
  const SummaryRest: string :=
    ". \nFokus pada poin-poin paling penting dan relevan.\nGunakan bahasa yang jelas dan mudah dipahami."

  /** The summary instruction, naming the chosen guide right after its opening words. */
  function SummaryPrompt(length: JsValue): (p: string)
    ensures OccursAt(LengthGuide(length), p, |SummaryLead|)
  {
    NamedOnce(SummaryLead, SummaryRest, LengthGuide(length), LengthGuide(length));
    SummaryLead + LengthGuide(length) + SummaryRest
  }

  /**
   * The keys `short` and `long` select their own guides; every other key,
   * a missing `length` included, selects the `medium` guide.
   */
  lemma LengthGuideResolution(length: JsValue)
    ensures LengthGuide(length) == ShortSummary <==> LengthKey(length) == Some("short")
    ensures LengthGuide(length) == LongSummary <==> LengthKey(length) == Some("long")
    ensures LengthGuide(length) == MediumSummary <==>
      LengthKey(length) != Some("short") && LengthKey(length) != Some("long")
  {
    assert |ShortSummary| == 25 && |MediumSummary| == 30 && |LongSummary| == 45;
  }

  /**
   * A one-element array selects as its element does, so `["short"]` picks the
   * short guide, while an array of two or more elements always gets `medium`.
   */
  lemma ArrayLengthGuide(items: seq<JsValue>)
    ensures |items| == 1 ==> LengthGuide(Array(items)) == LengthGuide(items[0])
    ensures |items| >= 2 ==> LengthGuide(Array(items)) == MediumSummary
    ensures LengthGuide(Array([Str("short")])) == ShortSummary
  {
    LengthGuideResolution(Array(items));
    if |items| == 1 {
      var e := items[0];
      assert items == [e];
      SingletonKey(e);
      LengthGuideResolution(e);
      if e.Undefined? || e.Null? {
        assert LengthKey(Array(items)) == Some("");
        assert LengthKey(e) == Some("medium") || LengthKey(e) == Some("null");
      }
    }
    SingletonKey(Str("short"));
    LengthGuideResolution(Array([Str("short")]));
    if |items| >= 2 && PropertyKey(Array(items)).Some? {
      LongArrayKey(items);
      assert ',' !in "short" && ',' !in "long";
    }
  }

  /** The summary prompt names the chosen guide right after its opening words, and determines it. */
  lemma SummaryPromptNamesGuide(a: JsValue, b: JsValue)
    ensures OccursAt(LengthGuide(a), SummaryPrompt(a), |SummaryLead|)
    ensures SummaryPrompt(a) == SummaryPrompt(b) <==> LengthGuide(a) == LengthGuide(b)
  {
    NamedOnce(SummaryLead, SummaryRest, LengthGuide(a), LengthGuide(b));
  }

  const CodeLead: string :=
    "Kamu adalah expert programmer yang sangat pintar. \nTugas kamu adalah generate kode "

  const CodeMiddle: string :=
    " yang clean, efisien, dan well-documented.\n"
    + "Selalu tambahkan comment untuk menjelaskan logika kompleks di dalam kode.\n"
    + "Ikuti best practices dan modern coding standards.\n"
    + "HANYA JAWAB DENGAN BLOK KODE MARKDOWN (contoh: ```"

  const CodeEnd: string := "...```). JANGAN ada teks atau penjelasan lain di luar blok kode!"

  /** The code handler's instruction, naming the language twice; `language` defaults to `javascript`. */
  function CodePrompt(language: Option<string>): (p: string)
    ensures OccursAt(language.GetOr("javascript"), p, |CodeLead|)
  {
    var lang := language.GetOr("javascript");
    NamedTwice(CodeLead, CodeMiddle, CodeEnd, lang, lang);
    CodeLead + lang + CodeMiddle + lang + CodeEnd
  }

  /** The code prompt names the requested language, and different languages give different prompts. */
  lemma CodePromptNamesLanguage(a: string, b: string)
    ensures OccursAt(a, CodePrompt(Some(a)), |CodeLead|)
    ensures CodePrompt(Some(a)) == CodePrompt(Some(b)) <==> a == b
    ensures CodePrompt(None) == CodePrompt(Some("javascript"))
  {
    NamedTwice(CodeLead, CodeMiddle, CodeEnd, a, b);
  }
}
