/**
 * The prompt the redesign handler sends to the model (src/index.js:332-386):
 * a system message built from the style and framework tables, the
 * requirements list, the scraped page cut to 3000 characters and the output
 * instructions, and a user message naming the style.
 */
module Prompts {
  import opened Text

  datatype Message = Message(role: string, content: string)

  const ModernGuide: string := "desain modern dengan gradient, shadow, rounded corners, dan animasi smooth"
  const MinimalistGuide: string := "desain minimalis clean dengan whitespace banyak, typography fokus, warna netral"
  const GlassmorphismGuide: string := "desain glassmorphism dengan backdrop-blur, transparency, dan efek glass"
  const NeumorphismGuide: string := "desain neumorphic dengan soft shadows dan 3D effect subtle"
  const CyberpunkGuide: string := "desain cyberpunk dengan neon colors, glitch effects, dan futuristic vibes"
  const CorporateGuide: string := "desain corporate professional dengan warna solid dan layout terstruktur"

  /** The style table; `modern` is the fallback. */
  const StyleGuides: map<string, string> := map[
    "modern" := ModernGuide,
    "minimalist" := MinimalistGuide,
    "glassmorphism" := GlassmorphismGuide,
    "neumorphism" := NeumorphismGuide,
    "cyberpunk" := CyberpunkGuide,
    "corporate" := CorporateGuide
  ]

  const HtmlGuide: string := "Pure HTML dengan Tailwind CSS inline classes"

  /** The framework table; `html` is the fallback. */
  const FrameworkGuides: map<string, string> := map[
    "html" := HtmlGuide,
    "react" := "React component dengan Tailwind CSS",
    "vue" := "Vue 3 component dengan Tailwind CSS",
    "svelte" := "Svelte component dengan Tailwind CSS"
  ]

  /** How much of the scraped page reaches the prompt. */
  const ContentLimit: nat := 3000

  /** `table[key] || table[fallback]`: an empty entry would fall through too. */
  function Lookup(table: map<string, string>, key: string, fallback: string): string
    requires fallback in table
  {
    if key in table && table[key] != [] then table[key] else table[fallback]
  }

  /** `styleGuides[style] || styleGuides.modern`: a listed style's own guide, else the `modern` one. */
  function StyleGuide(style: string): (g: string)
    ensures style in StyleGuides ==> g == StyleGuides[style]
    ensures style !in StyleGuides ==> g == StyleGuides["modern"]
  {
    Lookup(StyleGuides, style, "modern")
  }

  /** `frameworkGuides[framework] || frameworkGuides.html`, the same way. */
  function FrameworkGuide(framework: string): (g: string)
    ensures framework in FrameworkGuides ==> g == FrameworkGuides[framework]
    ensures framework !in FrameworkGuides ==> g == FrameworkGuides["html"]
  {
    Lookup(FrameworkGuides, framework, "html")
  }

  function Min(a: nat, b: nat): nat {
    if a <= b then a else b
  }

  /** `content.slice(0, 3000)`. */
  function Truncate(content: string): (r: string)
    ensures |r| == Min(|content|, ContentLimit)
    ensures r == content[..|r|]
  {
    if |content| <= ContentLimit then content else content[..ContentLimit]
  }

  /** Cutting twice is cutting once. */
  lemma TruncateIdempotent(content: string)
    ensures content[..Min(|content|, ContentLimit)] == Truncate(content)
    ensures Truncate(Truncate(content)) == Truncate(content)
  {
  }

  /** Requirement 7, chosen by the truthiness of `includeJS`; it carries its own line feed. */
  function Clause7(includeJS: bool): (c: string)
    ensures |c| > 3 && c[0] == '7' && c[1] == '.' && c[2] == ' ' && c[|c| - 1] == '\n'
  {
    if includeJS then "7. Tambahkan JavaScript untuk interactivity\n"
    else "7. No JavaScript, pure CSS animations\n"
  }

  /** The fixed text of the system prompt, piece by piece around its placeholders. */
  datatype Template = Template(
    opening: string,
    afterStyle: string,
    afterFramework: string,
    afterStyleGuide: string,
    afterGuides: string,
    afterClause7: string,
    afterContent: string,
    ending: string)

  /**
   * The redesign prompt's fixed text. Clause 7 carries its own line feed and
   * the template adds another after it, so a blank line precedes clause 8.
   */
  const Redesign: Template := Template(
    "Kamu adalah expert UI/UX designer dan frontend developer.\n\nTUGAS:\nRedesign website berikut dengan style ",
    " menggunakan ",
    ".\n\nSTYLE GUIDE:\n",
    "\n\nFRAMEWORK:\n",
    "\n\nREQUIREMENTS:\n"
    + "1. Gunakan HANYA Tailwind CSS utility classes (no custom CSS)\n"
    + "2. Buat design yang responsive (mobile-first)\n"
    + "3. Implementasi dark mode support\n"
    + "4. Gunakan color palette yang cohesive\n"
    + "5. Tambahkan micro-interactions dan hover effects\n"
    + "6. Optimasi untuk performance dan accessibility\n",
    "\n8. Buat code yang production-ready dan clean\n\nKONTEN WEBSITE ORIGINAL:\n",
    "\n\nOUTPUT FORMAT:\nBerikan HANYA full working ",
    " code dengan Tailwind CSS.\n"
    + "Mulai langsung dengan kode, tidak perlu penjelasan atau teks tambahan.\n"
    + "Gunakan format markdown code block: ```html atau ```jsx sesuai framework.")

  /** The prompt up to the end of the requirements 1-6, with the guides as placeholders. */
  function Preamble(t: Template, style: string, framework: string, styleGuide: string, frameworkGuide: string): string {
    t.opening + style + t.afterStyle + framework + t.afterFramework
    + styleGuide + t.afterStyleGuide + frameworkGuide + t.afterGuides
  }

  /** The prompt from clause 7 on; the framework is named again in the output instructions. */
  function Closing(t: Template, clause7: string, content: string, framework: string): string {
    clause7 + t.afterClause7 + content + t.afterContent + framework + t.ending
  }

  /** A template filled in. */
  function Render(t: Template, style: string, framework: string, styleGuide: string, frameworkGuide: string,
                  clause7: string, content: string): string
  {
    Preamble(t, style, framework, styleGuide, frameworkGuide) + Closing(t, clause7, content, framework)
  }

  /** The system message: the raw style and framework, their guides, clause 7 and the cut page. */
  function SystemPrompt(style: string, framework: string, includeJS: bool, content: string): (p: string)
    ensures IsSliceOf(style, p) && IsSliceOf(Truncate(content), p)
  {
    var p := Render(Redesign, style, framework, StyleGuide(style), FrameworkGuide(framework), Clause7(includeJS), Truncate(content));
    RenderLayout(Redesign, style, framework, StyleGuide(style), FrameworkGuide(framework), Clause7(includeJS), Truncate(content));
    p
  }

  const UserTurnLead: string := "Redesign website ini dengan style "
  const UserTurnEnd: string := ". Buat semenarik dan secanggih mungkin!"

  /** The user message, naming the raw style right after its opening words. */
  function UserTurn(style: string): (u: string)
    ensures OccursAt(style, u, |UserTurnLead|) && |u| == |UserTurnLead| + |style| + |UserTurnEnd|
  {
    UserTurnLead + style + UserTurnEnd
  }

  /** The two messages sent to the model: the system message with the cut page, then the user turn naming the style. */
  function Messages(style: string, framework: string, includeJS: bool, content: string): (ms: seq<Message>)
    ensures |ms| == 2 && ms[0].role == "system" && ms[1].role == "user"
    ensures IsSliceOf(Truncate(content), ms[0].content) && IsSliceOf(style, ms[1].content)
  {
    [Message("system", SystemPrompt(style, framework, includeJS, content)), Message("user", UserTurn(style))]
  }

  // Layout of a filled-in template, for any fixed text.

  /** Where the four placeholders of a text `a w b x c y d z e` land. */
  lemma FourSlots(a: string, w: string, b: string, x: string, c: string, y: string, d: string, z: string, e: string)
    ensures var s := a + w + b + x + c + y + d + z + e;
      var i := |a| + |w| + |b|;
      var j := i + |x| + |c|;
      var k := j + |y| + |d|;
      && |s| == k + |z| + |e|
      && OccursAt(w, s, |a|) && OccursAt(x, s, i) && OccursAt(y, s, j) && OccursAt(z, s, k)
  {
    var i := |a| + |w| + |b|;
    var j := i + |x| + |c|;
    var k := j + |y| + |d|;
    OccursAtEnd(a, w);
    OccursAtEnd(a + w + b, x);
    OccursAtEnd(a + w + b + x + c, y);
    OccursAtEnd(a + w + b + x + c + y + d, z);
    OccursExtend(w, a + w, |a|, b);
    OccursExtend(w, a + w + b, |a|, x);
    Keep2(w, x, |a|, i, a + w + b + x, c);
    Keep2(w, x, |a|, i, a + w + b + x + c, y);
    Keep3(w, x, y, |a|, i, j, a + w + b + x + c + y, d);
    Keep3(w, x, y, |a|, i, j, a + w + b + x + c + y + d, z);
    Keep3(w, x, y, |a|, i, j, a + w + b + x + c + y + d + z, e);
    OccursExtend(z, a + w + b + x + c + y + d + z, k, e);
  }

  /** Where the three placeholders of a text `w b x c y e` land. */
  lemma ThreeSlots(w: string, b: string, x: string, c: string, y: string, e: string)
    ensures var s := w + b + x + c + y + e;
      && |s| == |w| + |b| + |x| + |c| + |y| + |e|
      && OccursAt(w, s, 0) && OccursAt(x, s, |w| + |b|) && OccursAt(y, s, |w| + |b| + |x| + |c|)
  {
    var i := |w| + |b|;
    var j := i + |x| + |c|;
    assert (w + b)[..|w|] == w;
    assert OccursAt(w, w + b, 0);
    OccursAtEnd(w + b, x);
    OccursExtend(w, w + b, 0, x);
    Keep2(w, x, 0, i, w + b + x, c);
    OccursAtEnd(w + b + x + c, y);
    Keep2(w, x, 0, i, w + b + x + c, y);
    Keep3(w, x, y, 0, i, j, w + b + x + c + y, e);
  }

  /** Where each placeholder of a filled-in template lands, and how long it is. */
  lemma RenderLayout(t: Template, style: string, framework: string, styleGuide: string, frameworkGuide: string,
                     clause7: string, content: string)
    ensures var p := Render(t, style, framework, styleGuide, frameworkGuide, clause7, content);
      var f := |t.opening| + |style| + |t.afterStyle|;
      var g := f + |framework| + |t.afterFramework|;
      var h := g + |styleGuide| + |t.afterStyleGuide|;
      var q := h + |frameworkGuide| + |t.afterGuides|;
      var n := q + |clause7| + |t.afterClause7|;
      var r := n + |content| + |t.afterContent|;
      && |Preamble(t, style, framework, styleGuide, frameworkGuide)| == q
      && |p| == r + |framework| + |t.ending|
      && OccursAt(style, p, |t.opening|)
      && OccursAt(framework, p, f)
      && OccursAt(styleGuide, p, g)
      && OccursAt(frameworkGuide, p, h)
      && OccursAt(clause7, p, q)
      && OccursAt(content, p, n)
      && OccursAt(framework, p, r)
  {
    var pre := Preamble(t, style, framework, styleGuide, frameworkGuide);
    var cl := Closing(t, clause7, content, framework);
    FourSlots(t.opening, style, t.afterStyle, framework, t.afterFramework, styleGuide, t.afterStyleGuide,
              frameworkGuide, t.afterGuides);
    ThreeSlots(clause7, t.afterClause7, content, t.afterContent, framework, t.ending);
    var f := |t.opening| + |style| + |t.afterStyle|;
    var g := f + |framework| + |t.afterFramework|;
    var h := g + |styleGuide| + |t.afterStyleGuide|;
    Keep2(style, framework, |t.opening|, f, pre, cl);
    Keep2(styleGuide, frameworkGuide, g, h, pre, cl);
    OccursShift(clause7, cl, 0, pre);
    OccursShift(content, cl, |clause7| + |t.afterClause7|, pre);
    OccursShift(framework, cl, |clause7| + |t.afterClause7| + |content| + |t.afterContent|, pre);
  }

  /** A filled-in template determines its content placeholder. */
  lemma RenderContentDetermined(t: Template, style: string, framework: string, styleGuide: string,
                                frameworkGuide: string, clause7: string, c1: string, c2: string)
    requires Render(t, style, framework, styleGuide, frameworkGuide, clause7, c1)
          == Render(t, style, framework, styleGuide, frameworkGuide, clause7, c2)
    ensures c1 == c2
  {
    RenderLayout(t, style, framework, styleGuide, frameworkGuide, clause7, c1);
    RenderLayout(t, style, framework, styleGuide, frameworkGuide, clause7, c2);
  }

  /** Two clauses that differ at a common index give different prompts. */
  lemma RenderClauseMatters(t: Template, style: string, framework: string, styleGuide: string,
                            frameworkGuide: string, x: string, y: string, content: string, k: nat)
    requires k < |x| && k < |y| && x[k] != y[k]
    ensures Render(t, style, framework, styleGuide, frameworkGuide, x, content)
         != Render(t, style, framework, styleGuide, frameworkGuide, y, content)
  {
    RenderLayout(t, style, framework, styleGuide, frameworkGuide, x, content);
    RenderLayout(t, style, framework, styleGuide, frameworkGuide, y, content);
    var q := |Preamble(t, style, framework, styleGuide, frameworkGuide)|;
    var px := Render(t, style, framework, styleGuide, frameworkGuide, x, content);
    var py := Render(t, style, framework, styleGuide, frameworkGuide, y, content);
    assert px[q + k] == px[q..q + |x|][k] == x[k];
    assert py[q + k] == py[q..q + |y|][k] == y[k];
  }

  /** With the same guides, a filled-in template determines the style it names. */
  lemma RenderStyleDetermined(t: Template, a: string, b: string, framework: string, styleGuide: string,
                              frameworkGuide: string, clause7: string, content: string)
    requires Render(t, a, framework, styleGuide, frameworkGuide, clause7, content)
          == Render(t, b, framework, styleGuide, frameworkGuide, clause7, content)
    ensures a == b
  {
    RenderLayout(t, a, framework, styleGuide, frameworkGuide, clause7, content);
    RenderLayout(t, b, framework, styleGuide, frameworkGuide, clause7, content);
  }

  /** With the same guides, a filled-in template determines the framework it names. */
  lemma RenderFrameworkDetermined(t: Template, style: string, f: string, g: string, styleGuide: string,
                                  frameworkGuide: string, clause7: string, content: string)
    requires Render(t, style, f, styleGuide, frameworkGuide, clause7, content)
          == Render(t, style, g, styleGuide, frameworkGuide, clause7, content)
    ensures f == g
  {
    RenderLayout(t, style, f, styleGuide, frameworkGuide, clause7, content);
    RenderLayout(t, style, g, styleGuide, frameworkGuide, clause7, content);
  }

  // The redesign prompt.

  /**
   * Every listed style gets its own guide, and the `modern` guide is used
   * exactly for `modern` and for every style the table does not list.
   */
  lemma StyleGuideResolution(style: string)
    ensures style in StyleGuides ==> StyleGuide(style) == StyleGuides[style]
    ensures style !in StyleGuides ==> StyleGuide(style) == ModernGuide
    ensures StyleGuide(style) == ModernGuide <==> style == "modern" || style !in StyleGuides
  {
    assert |ModernGuide| == 74;
    assert |MinimalistGuide| == 79 && |GlassmorphismGuide| == 71 && |NeumorphismGuide| == 58;
    assert |CyberpunkGuide| == 73 && |CorporateGuide| == 71;
  }

  /**
   * Every listed framework gets its own guide, and the `html` guide is used
   * exactly for `html` and for every framework the table does not list.
   */
  lemma FrameworkGuideResolution(framework: string)
    ensures framework in FrameworkGuides ==> FrameworkGuide(framework) == FrameworkGuides[framework]
    ensures framework !in FrameworkGuides ==> FrameworkGuide(framework) == HtmlGuide
    ensures FrameworkGuide(framework) == HtmlGuide <==> framework == "html" || framework !in FrameworkGuides
  {
    assert |HtmlGuide| == 44;
  }

  /**
   * The system prompt names the raw style (right after the opening sentence)
   * and the raw framework, and carries their guides and the chosen clause 7.
   */
  lemma PromptCarriesRequest(style: string, framework: string, includeJS: bool, content: string)
    ensures var p := SystemPrompt(style, framework, includeJS, content);
      && OccursAt(style, p, |Redesign.opening|)
      && IsSliceOf(framework, p)
      && IsSliceOf(StyleGuide(style), p)
      && IsSliceOf(FrameworkGuide(framework), p)
      && IsSliceOf(Clause7(includeJS), p)
  {
    RenderLayout(Redesign, style, framework, StyleGuide(style), FrameworkGuide(framework), Clause7(includeJS), Truncate(content));
  }

  /**
   * The page reaches the model as its first 3000 characters, in one piece,
   * and nothing after that limit reaches it.
   */
  lemma PromptCarriesTruncatedContent(style: string, framework: string, includeJS: bool, content: string)
    ensures IsSliceOf(content[..Min(|content|, ContentLimit)], SystemPrompt(style, framework, includeJS, content))
    ensures SystemPrompt(style, framework, includeJS, content)
      == SystemPrompt(style, framework, includeJS, content[..Min(|content|, ContentLimit)])
  {
    RenderLayout(Redesign, style, framework, StyleGuide(style), FrameworkGuide(framework), Clause7(includeJS), Truncate(content));
    TruncateIdempotent(content);
  }

  /** Two pages give the same system prompt exactly when their first 3000 characters agree. */
  lemma PromptDeterminesTruncatedContent(style: string, framework: string, includeJS: bool, c1: string, c2: string)
    ensures SystemPrompt(style, framework, includeJS, c1) == SystemPrompt(style, framework, includeJS, c2)
      <==> Truncate(c1) == Truncate(c2)
  {
    if SystemPrompt(style, framework, includeJS, c1) == SystemPrompt(style, framework, includeJS, c2) {
      RenderContentDetermined(Redesign, style, framework, StyleGuide(style), FrameworkGuide(framework),
                              Clause7(includeJS), Truncate(c1), Truncate(c2));
    }
  }

  /** `includeJS` always changes the system prompt: the two clauses differ at their fourth character. */
  lemma IncludeJSChangesPrompt(style: string, framework: string, content: string)
    ensures SystemPrompt(style, framework, true, content) != SystemPrompt(style, framework, false, content)
  {
    assert Clause7(true)[3] == 'T' && Clause7(false)[3] == 'N';
    RenderClauseMatters(Redesign, style, framework, StyleGuide(style), FrameworkGuide(framework),
                        Clause7(true), Clause7(false), Truncate(content), 3);
  }

  /** The user turn determines the style it names. */
  lemma UserTurnNamesStyle(a: string, b: string)
    ensures UserTurn(a) == UserTurn(b) <==> a == b
  {
    if UserTurn(a) == UserTurn(b) {
      assert |a| == |b|;
    }
  }

  /**
   * Styles the table does not list share the `modern` guide, yet the model
   * still sees the raw style: distinct unlisted styles give distinct system
   * prompts and distinct user turns.
   */
  lemma UnlistedStylesStayDistinct(a: string, b: string, framework: string, includeJS: bool, content: string)
    requires a !in StyleGuides && b !in StyleGuides && a != b
    ensures StyleGuide(a) == StyleGuide(b)
    ensures SystemPrompt(a, framework, includeJS, content) != SystemPrompt(b, framework, includeJS, content)
    ensures UserTurn(a) != UserTurn(b)
  {
    StyleGuideResolution(a);
    StyleGuideResolution(b);
    if SystemPrompt(a, framework, includeJS, content) == SystemPrompt(b, framework, includeJS, content) {
      RenderStyleDetermined(Redesign, a, b, framework, StyleGuide(a), FrameworkGuide(framework),
                            Clause7(includeJS), Truncate(content));
    }
    UserTurnNamesStyle(a, b);
  }

  /**
   * Frameworks the table does not list share the `html` guide, yet the raw
   * framework is named in the system prompt, which keeps distinct unlisted
   * frameworks apart.
   */
  lemma UnlistedFrameworksStayDistinct(style: string, f: string, g: string, includeJS: bool, content: string)
    requires f !in FrameworkGuides && g !in FrameworkGuides && f != g
    ensures FrameworkGuide(f) == FrameworkGuide(g)
    ensures SystemPrompt(style, f, includeJS, content) != SystemPrompt(style, g, includeJS, content)
  {
    FrameworkGuideResolution(f);
    FrameworkGuideResolution(g);
    if SystemPrompt(style, f, includeJS, content) == SystemPrompt(style, g, includeJS, content) {
      RenderFrameworkDetermined(Redesign, style, f, g, StyleGuide(style), FrameworkGuide(f),
                                Clause7(includeJS), Truncate(content));
    }
  }
}
