# Smart AI Backend: a Dafny model of the request logic

The Worker in `src/index.js` answers seven POST endpoints, a preflight and
a service directory. Most handlers check one required field of the JSON
body, relay a prompt to a Workers AI model, and return its reply. The
`/redesign` handler does real text processing:

1. It reads the page through a reader service.
2. It builds a system prompt from a style table, a framework table, a
   clause chosen by `includeJS`, and the first 3000 characters of the page.
3. It asks the model, racing the call against a 30-second timeout.
4. It extracts a fenced code block and an explanation from the reply.
5. It refuses blank, short, or tag-less output.
6. It strips leftover fences and answers with the code and some metadata.
   Every failure after the `url` check is a 500 that names its cause.

The model is written as pure functions and lemmas, one module per concern:

- `Text`: the ECMAScript `\s` and `\w` classes, `trim()`, and the slice relations used in contracts.
- `Fence`: the code-block regular expression. A backtracking search is proved to return the declaratively first match in the engine's order: leftmost start, then tags in order, then the longest white-space run, then the shortest body.
- `Extraction`: code and explanation from a reply.
- `Cleanup`: the two fence-stripping `replace` calls and the final `trim()`.
- `Json`: body fields and JavaScript truthiness.
- `Router`: the dispatch in `fetch`.
- `Prompts`: the redesign prompt, from its lookup tables, the cut and the template.
- `Relay`: the required-field checks of every handler, and the analysis, summary and code prompts.
- `Pipeline`: validation, and the redesign and scrape handlers.

The reader service and the model are inputs. The page is a `ReaderReply`. The model is a
function from the messages it is sent to a `ModelReply`, where `TimedOut` stands for a lost race.

The content limit is 3000 characters. Every failure after the `url` check is a 500; there is no
fallback page and no `<!DOCTYPE>` extraction. All of these failures end in the 500 answer of
`src/index.js:467-484`.

Two behaviours of the code are worth knowing and are proved here:

- **The first block needs a non-blank body.** A first code block whose body is blank does not
  survive an appended text: `Fence.BlankFirstBlockNotStable` gives the concrete pair. The
  "first block wins" property therefore assumes a non-blank body.
- **Validation looks at the code before clean-up.** Accepted code can therefore be much shorter
  than 100 characters: `Pipeline.AcceptedCodeCanBeShort` shows a 101-character reply that is
  accepted and comes out as the single character `<`.

## Model

| member | source | states |
|---|---|---|
| Text.Trim | src/index.js:433 | `trim()` yields the piece of its input left after removing the leading and the trailing white space: what is removed on either side is all white space and what is kept starts and ends with a non-space character; the result is empty exactly when the input is all white space |
| Text.TrimIdempotent | src/index.js:450 | trimming twice is trimming once |
| Fence.FirstFence | src/index.js:415-416 | the search returns a match that no other match precedes in backtracking order, and returns none exactly when the pattern cannot match |
| Fence.FirstFenceIsFirstMatch | src/index.js:415-416 | the search's answer is exactly the declaratively first match, which is unique |
| Fence.BeforeTotal | src/index.js:415 | the engine's search order is a strict total order on matches |
| Fence.FirstBlockWins | src/index.js:415-420 | appending any text after a first match with a non-blank body keeps that match first |
| Fence.FirstBlockSelfContained | src/index.js:415-416 | cutting the text right after the first match keeps it the first match |
| Fence.NoFenceInSlice | src/index.js:415-416 | a text without a code block has none in any slice |
| Fence.NoNewlineNoFence | src/index.js:415 | text without a line feed has no code block |
| Fence.BlankFirstBlockNotStable | src/index.js:415-418 | "```\n\n```" has an empty-bodied first match, and appending "\n```" changes the first match |
| Extraction.UsableBlock | src/index.js:416-418 | a block is used only when the first match exists and its captured body is non-empty (the falsy `match[1]` test) |
| Extraction.Extract | src/index.js:410-434 | the code is trimmed and cut from the reply; the explanation is the default sentence or has 11 to 499 characters |
| Extraction.WholeOutputIff | src/index.js:418-434 | the code is the whole trimmed reply exactly when no usable block exists, and then the explanation is the default sentence |
| Extraction.ExplanationOutsideBlock | src/index.js:423-430 | the explanation is the trimmed text before the block if its length is in (10, 500), else the text after it under the same bound, else the default; it never comes from the block |
| Extraction.FirstBlockCodeWins | src/index.js:415-420 | once a reply holds a usable block with non-blank code, appending anything, further blocks included, leaves the code unchanged |
| Extraction.ExtractWithoutBlockIsStable | src/index.js:431-434 | without a usable block (no match, or a first match with an empty body) the code is the trimmed reply, and extracting from that code gives it back |
| Extraction.TrimKeepsNoUsableBlock | src/index.js:415-418 | trimming a reply without a usable block leaves none, because the first match starts and ends with a backtick and so survives the trim with its empty body |
| Extraction.BlockCode | src/index.js:418-420 | when a usable block exists, the code is exactly the trimmed body of the first block |
| Fence.FirstMatchInSlice | src/index.js:415-416 | the first match of a text, when it lies inside a slice, is (shifted) the first match of that slice |
| Extraction.SingleBlockMatch | src/index.js:415-416 | a reply that is one block under any tag, with a body free of line feeds, matches with white-space run 0 around exactly that body |
| Extraction.SingleBlockExtract | src/index.js:418-420 | such a reply with a non-blank body yields the trimmed body as code |
| Extraction.DivExample | src/index.js:415-420 | the block around `<div>Hi</div>` yields exactly `<div>Hi</div>` |
| Cleanup.StripOpeningFence | src/index.js:448 | only a leading three backticks and the following run of word and space characters are removed, and the result is a suffix of the input |
| Cleanup.OpeningNewlineNeverTaken | src/index.js:448 | the optional `\n` of the opening pattern never consumes anything, because the greedy run already took it |
| Cleanup.StripClosingFence | src/index.js:449 | a trailing "```" is removed together with a preceding line feed when there is one, and the result is a prefix of the input |
| Cleanup.CleanCode | src/index.js:447-450 | the cleaned code is a contiguous piece of the validated code and no longer than it |
| Cleanup.CleanCodeRemovesOnlyFences | src/index.js:447-450 | the cleaned code is the trimmed middle of the input: the head removed is empty or backticks plus word and space characters, and the tail removed is empty, "```" or "\n```" |
| Cleanup.CleanCodeKeepsUnfenced | src/index.js:447-450 | trimmed code that neither starts nor ends with three backticks is returned unchanged |
| Router.Dispatch | src/index.js:14-74 | every `OPTIONS` request, and only those, is the preflight; a handler is reached only by a POST to a path of the endpoint table that names it; the directory is reached exactly by `GET /` |
| Router.PathOf | src/index.js:20-46 | each POST handler is mounted on one path of the endpoint table |
| Router.DispatchByTable | src/index.js:14-74 | `OPTIONS` on any path is the preflight, a POST to a listed path goes to its handler, `GET /` is the directory, and everything else is 404 |
| Router.HandlerReachedOnlyAtItsPath | src/index.js:20-46 | each handler is reached by a POST to its own path and by no other request |
| Router.NotFoundIff | src/index.js:71-74 | 404 is answered exactly for the requests no rule matches |
| Prompts.StyleGuide | src/index.js:333-361 | a listed style selects its own guide and any other style the `modern` guide |
| Prompts.FrameworkGuide | src/index.js:343-364 | a listed framework selects its own guide and any other framework the `html` guide |
| Prompts.Clause7 | src/index.js:373 | either choice of requirement 7 is a line numbered `7. ` that ends with its own line feed |
| Prompts.SystemPrompt | src/index.js:355-382 | the system prompt contains the raw style and the page cut to 3000 characters |
| Prompts.UserTurn | src/index.js:386-389 | the user turn names the raw style right after its opening words, and its length is fixed by the style's |
| Prompts.Messages | src/index.js:384-390 | exactly two messages go to the model: a system message containing the cut page, then a user message naming the style |
| Prompts.Truncate | src/index.js:351-352 | the content used is the prefix of the page of length min(length, 3000), and cutting never fails |
| Prompts.TruncateIdempotent | src/index.js:351-352 | cutting an already cut page changes nothing |
| Prompts.StyleGuideResolution | src/index.js:333-361 | a listed style selects its own guide, and any other style selects the `modern` guide, which no other listed style shares |
| Prompts.FrameworkGuideResolution | src/index.js:343-364 | a listed framework selects its own guide, and any other framework selects the `html` guide, which no other listed framework shares |
| Prompts.PromptCarriesRequest | src/index.js:355-373 | the system prompt names the raw style at the TUGAS line, and contains the raw framework, both resolved guides and the chosen clause 7 |
| Prompts.PromptCarriesTruncatedContent | src/index.js:376-377 | the system prompt contains the cut page, and depends on the page only through it |
| Prompts.PromptDeterminesTruncatedContent | src/index.js:351-377 | two pages give the same system prompt exactly when their cut prefixes agree |
| Prompts.IncludeJSChangesPrompt | src/index.js:373 | `includeJS` true and false give different system prompts |
| Prompts.UserTurnNamesStyle | src/index.js:386-389 | the user turn determines the raw style, and the style determines it |
| Prompts.UnlistedStylesStayDistinct | src/index.js:358-361 | two different unlisted styles share the `modern` guide but still give different prompts and user turns |
| Prompts.UnlistedFrameworksStayDistinct | src/index.js:358-364 | two different unlisted frameworks share the `html` guide but still give different prompts |
| Relay.RequiredField | src/index.js:87-307 | exactly the seven POST handlers have a required field |
| Relay.RequiredFieldError | src/index.js:86-314 | only the seven handlers ever refuse a body, and each refuses with its own message |
| Relay.RequiredFieldDecides | src/index.js:86-314 | a handler answers 400 with its own message exactly when its required field is unusable: not an array for the chat handlers, falsy for the others |
| Relay.MissingFieldRejected | src/index.js:86-314 | a body without the required field is always refused |
| Relay.OtherFieldsIrrelevant | src/index.js:86-314 | bodies that agree on the required field get the same verdict |
| Relay.AnalysisPrompt | src/index.js:160-172 | a `type` that is not a string, a missing one included, gets the general prompt |
| Relay.AnalysisPromptResolution | src/index.js:160-172 | the general prompt is chosen exactly when `type` is not one of the strings `sentiment`, `code-review` and `seo`, whose three prompts differ |
| Json.PropertyKey | src/index.js:209 | the property key of a value used as an object index: a string is its own key |
| Json.SingletonKey | src/index.js:209 | a one-element array has its element's key, and `[null]` or `[undefined]` the empty key |
| Json.LongArrayKey | src/index.js:209 | the key of an array of two or more elements contains a comma |
| Relay.LengthKey | src/index.js:194-209 | the key `lengthGuide[length]` looks up is `medium` when `length` is missing and the string itself when it is a string |
| Relay.LengthGuide | src/index.js:203-209 | the chosen guide is always one of the table's three guides |
| Relay.LengthGuideResolution | src/index.js:203-209 | the keys `short` and `long` select their guides, each exactly for that key, and every other key, a missing `length` included, selects `medium` |
| Relay.ArrayLengthGuide | src/index.js:203-209 | a one-element array selects as its element does (so `["short"]` selects the short guide), and an array of two or more elements selects `medium` |
| Relay.SummaryPrompt | src/index.js:209-211 | the summary prompt names the chosen guide right after its opening words |
| Relay.SummaryPromptNamesGuide | src/index.js:209-211 | the summary prompt names the chosen guide after its opening words, and two prompts agree exactly when their guides do |
| Relay.CodePrompt | src/index.js:111-124 | the code prompt names the requested language, `javascript` when none is given, right after its opening words |
| Relay.CodePromptNamesLanguage | src/index.js:111-124 | the code prompt names the language, different languages give different prompts, and a missing language means `javascript` |
| Pipeline.ProcessOutput | src/index.js:404-450 | the reply is refused as empty exactly when it is missing or blank, and accepted code is trimmed and no longer than the reply |
| Pipeline.ProcessOutputAccepts | src/index.js:404-444 | blank output is refused first, then code under 100 characters, then, for `html` only, code without `<`; a reply is accepted exactly when it passes all three |
| Pipeline.AcceptedOutput | src/index.js:437-450 | accepted code is trimmed, cut from the reply, and for `html` still contains a `<`; the explanation is the extracted one |
| Pipeline.FrameworkOnlyGuardsHtml | src/index.js:442 | any two frameworks other than `html` give the same processing of a reply |
| Pipeline.CleanKeepsTag | src/index.js:442-450 | clean-up never removes a `<` |
| Pipeline.ShortCodeAccepted | src/index.js:437-450 | three backticks, 97 or more word characters and `<` are accepted and cleaned down to `<` |
| Pipeline.AcceptedCodeCanBeShort | src/index.js:437-450 | a 101-character reply is accepted and leaves one character of code |
| Pipeline.RedesignBadRequestIff | src/index.js:309-314 | the answer is 400 with `URL wajib diisi` exactly when `url` is falsy |
| Pipeline.RedesignScrapeFailure | src/index.js:326-328 | an unreadable page is a 500 whose error is `Gagal redesign website: Failed to scrape: ` and the status text |
| Pipeline.Outcome | src/index.js:384-483 | after the `url` check the answer is never a 400; a success needs a completed reply and reports the code length, the page length and the cut length min(page, 3000) |
| Pipeline.OutcomeOfReply | src/index.js:404-483 | success exactly when the model completed and the reply was accepted, carrying the processed code and explanation, the code length, the page length and the cut length; a timeout or a thrown error is a 500 naming it, and every failure is a 500 under the handler's prefix |
| Pipeline.HandleRedesign | src/index.js:301-485 | 400 exactly when `url` is falsy; a success needs a page that was read and reports that page's length |
| Pipeline.PageBeyondLimitUnseen | src/index.js:351-402 | pages that agree on their first 3000 characters get the same answer, apart from the reported page length |
| Pipeline.HandleScrape | src/index.js:258-298 | 400 exactly when `url` is falsy; success exactly when the page is read, returning it unchanged with its length; otherwise a 500 naming the status text |

## Left out

- The network and the model: the reader-service `fetch` and every `env.AI.run` call are inputs. The page is a `ReaderReply`, and the model is a function of the messages it is sent.
- The 30-second `Promise.race` timer: losing the race is the `TimedOut` reply.
- Request parsing: only a body that is not valid JSON, or the JSON `null`, makes `request.json()` or the destructuring throw before the handler's own checks. That path reaches the outer 500 of `fetch` and is not part of this model. A string, number, boolean or array body destructures to `undefined` fields; the model treats such a body as the empty body map, which the handlers refuse with their 400.
- The temperature, token limits and model names of each call, the chat, code, analysis and summary handlers beyond their required-field checks and prompts, and the stream relay of `/stream`.
- Response plumbing: `Response.json` envelopes, CORS headers, the directory's JSON body, `success` flags, `error_type`, timestamps and `console.error`.
- White space: `\s` and `trim()` use ECMAScript's Unicode white-space set. The model uses its ASCII members.
- String length: lengths are counted in characters, not UTF-16 code units.
- Lookup keys: tables are maps over their listed keys. Inherited object properties such as `constructor` are ignored.
- Non-string `style` and `framework` values: these two fields are absent or strings. A non-string would be converted to a key and to text.
- Relay.CodePrompt: `language` is absent or a string. A JSON `null` or another non-string would be printed into the prompt as its text (`null`, `true`, …), which the model does not spell out.
- Json.PropertyKey: the key of a number, or of an array holding one, is `None`: the number-to-text conversion is not modelled. Such a text is made of digits, a sign, a point, an exponent or `Infinity`, so it is never a key of the length table and `Relay.LengthGuide` gives `medium` for it, as the code does.
- `encodeURIComponent(url)`: not modelled. The page is given directly as the reader's reply.
