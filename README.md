# Page summarizer: a Dafny model of the extension's core

The extension summarizes the page in the active browser tab with the OpenAI chat
completions API. This project models its core in Dafny and proves properties of the model:

- **The popup** (`popup.js`):
  - the click on "summarize", with its API-key guard and empty-content guard;
  - the text the injected extractor returns, cleaned up and capped at 15000 characters;
  - the retrying message to the content script;
  - the system prompt, assembled from optional blocks and an optional translation
    instruction;
  - the request with its model default and its fixed 1500 response tokens;
  - the plain newline-to-`<br>` formatter used when the summary stays in the popup.
- **The summary page** (`summary.js`):
  - the consume-once `chrome.storage.local` store: a summary is stored under
    `summary_<time>`, shown once, then removed;
  - the header defaults;
  - the markdown-like `formatSummary` rule chain. Each regular expression is written out
    as an explicit scanning function with the JavaScript meaning of `^`, `$`, `.`, lazy
    `.*?` and greedy `.*`.
- **The options page** (`options.js`):
  - the load defaults;
  - `parseInt` of the maximum-tokens field;
  - the validation chain of the save button;
  - the write to `chrome.storage.sync`.
- **The content script** (`content.js`): the candidate selection, with its fallbacks to
  the body clone and the live body, and the whitespace cleanup.

Files and modules:

| file | module | what it holds |
|---|---|---|
| `wrappers.dfy` | `Wrappers` | `Option` and `Result` |
| `jstext.dfy` | `JsText` | the JavaScript string operations the core uses: the `\s` whitespace set, line terminators, `trim`, `startsWith`, `includes`, `replace(/\s+/g, ' ')` and `replace(/\n/g, '<br>')` |
| `settings.dfy` | `Settings` | the keys of `chrome.storage.sync` and the JavaScript truthiness tests on them |
| `page_text.dfy` | `PageText` | the ten content selectors and the first-match loop shared by both extractors |
| `summary_format.dfy`, `summary_markup.dfy`, `summary_proofs.dfy` | `SummaryFormat`, `SummaryMarkup`, `SummaryProofs` | `formatSummary` of the summary page and what is proved about it |
| `summary_store.dfy` | `SummaryStore` | the summary page's load and remove flow, and the store as a class |
| `options.dfy` | `Options` | the options page, as a class over its form fields and the store |
| `prompt.dfy` | `Prompt` | the system prompt and the API request |
| `popup.dfy` | `Popup` | the popup's click, extractor, retry loop and formatter |
| `content.dfy` | `Content` | the content script's extractor |

Conventions of the model:

- Strings are sequences of Unicode characters.
- A JavaScript value that the source only tests for truthiness is modelled with `""` or
  `None` standing for `undefined` and `null`.
- A number read back from storage is `Num`, which is `NaN` or an integer.
- The prompt texts reach the prompt builder as a `Texts` record. `Prompt.PopupTexts`
  holds the exact template texts of popup.js:153-200, and the popup passes it in.
  - The lemmas therefore hold for any texts, and for these in particular.

## Model

| member | source | states |
|---|---|---|
| SummaryFormat.FormatSummary | summary.js:83-119 | `formatSummary` with its rules in the order summary.js runs them: headers, bold, italic, line breaks, lists, then the paragraph and list wrapping. What it promises is stated by `FormatSummaryAddsOnlyTags`, `FormatSummaryHasNoNewline`, `FormatSummaryOneItem`, `ItemsBecomeOneList`, `OneBulletIsList`, `TwoBulletsAsWritten` and `PlainLineIsParagraph` |
| SummaryFormat.FormatSummaryListsFirst | summary.js:83-119 | the same rules with the three list passes moved ahead of the two line-break passes; `BulletedBecomesOneList` states what this order achieves |
| SummaryFormat.Headers | summary.js:87-89 | the three `^#… (.*$)` passes with the `m` flag; `HeaderRulesOnLine`, `HeadersByLine` and `UnmatchedHeadersStayLiteral` state what they do |
| SummaryFormat.RewriteSpans | summary.js:92-97 | one lazy `D(.*?)D` pass; `FindCloseIsFirst`, `PairedBoldIsStrong` and `EmphasisFree` state what it does |
| SummaryFormat.Emphasis | summary.js:92-97 | the four span passes `**`, `__`, `*`, `_` in that order; `PairedBoldIsStrong`, `PairedUnderscoreBoldIsStrong` and `EmphasisFree` state what they do |
| SummaryFormat.BreakParagraphs | summary.js:100 | the `\n\n` to `</p><p>` pass; `BreaksAtBlankLine` and `BreaksFree` state what it does |
| SummaryFormat.Breaks | summary.js:100-101 | the two line-break passes; `BreaksAtNewline`, `BreaksAtBlankLine`, `BreaksFree` and `FormatSummaryHasNoNewline` state what they do |
| SummaryFormat.Lists | summary.js:104-106 | the three `^… (.*$)` list passes with the `m` flag; `ListRulesOnLine` and `ListsByLine` state what they do |
| SummaryFormat.WrapListRuns | summary.js:114-116 | the `<ul>` wrapping of runs of items; `FindLastIsLast`, `ItemsBecomeOneList` and `BulletedBecomesOneList` state what it does |
| SummaryFormat.FindCloseIsFirst | summary.js:92-97 | the lazy `(.*?)D` closes at the first occurrence of the delimiter on the same line; without one on the line nothing matches |
| SummaryFormat.FindLastIsLast | summary.js:114 | the greedy `.*<\/li>` closes at the last `</li>` on the same line |
| SummaryFormat.WrapParagraph | summary.js:108-111 | the text is wrapped in `<p>`…`</p>` exactly when it contains none of `<p>`, `<h1>`, `<h2>`, `<h3>`; the result always contains one of them |
| SummaryFormat.ApplyRulesByLine | summary.js:87-89 | a chain of `^…(.*$)` rules with the `m` flag rewrites each line on its own and keeps the line terminators |
| SummaryFormat.HeaderRulesOnLine | summary.js:87-89 | on one line the three header passes act as `HeaderOf`: `### ` before `## ` before `# `, and the rest of the line goes inside the tag |
| SummaryFormat.HeadersByLine | summary.js:87-89 | the header passes rewrite the first line as `HeaderOf` says and continue on the rest of the text |
| SummaryFormat.UnmatchedHeadersStayLiteral | summary.js:87-89 | a `####` line, and a `#` not followed by a space, stay as they are |
| SummaryFormat.ListRulesOnLine | summary.js:104-106 | on one line the three list passes act as `ListItemOf`: `- `, `* ` or digits with `. ` make an `<li>` of the rest of the line |
| SummaryFormat.ListsByLine | summary.js:104-106 | the list passes act line by line |
| SummaryMarkup.FormatSummaryAddsOnlyTags | summary.js:83-119 | a character that is in neither the summary nor a tag name is not in the result; nothing is escaped |
| SummaryMarkup.FormatSummaryHasNoNewline | summary.js:100-101 | no `\n` is left in the formatted summary, under either order of the rules |
| SummaryMarkup.ListsAfterBreaksSeeOneLine | summary.js:100-106 | after the line-break rules, a text without `\r`, U+2028 and U+2029 is one line, so the list rules act only at its start |
| SummaryMarkup.FormatSummaryOneItem | summary.js:85-116 | in the order summary.js runs its rules, at most the first line can become a list item |
| SummaryProofs.PairedBoldIsStrong | summary.js:92 | `**x**` becomes `<strong>x</strong>` |
| SummaryProofs.PairedUnderscoreBoldIsStrong | summary.js:92-97 | `__x__` becomes `<strong>x</strong>`: the `**` pass leaves it alone and the two italic passes find nothing afterwards |
| SummaryProofs.EmphasisFree | summary.js:92-97 | text without `*` and `_` passes the emphasis rules unchanged |
| SummaryProofs.BreaksAtNewline | summary.js:101 | a single newline becomes `<br>` |
| SummaryProofs.BreaksAtBlankLine | summary.js:100 | two newlines in a row become `</p><p>` |
| SummaryProofs.BreaksFree | summary.js:100-101 | text without a newline passes the line-break rules unchanged |
| SummaryProofs.WrapParagraphOfTagless | summary.js:109-111 | text in which no `<` opens a `p` or `h` element is wrapped in a paragraph |
| SummaryProofs.ItemsBecomeOneList | summary.js:100-116 | a text that the header and emphasis rules keep, and that the line-break and list rules turn into a single line of items, becomes one `<ul>` inside one paragraph; stated for `FormatSummary` (line breaks first, as summary.js runs them) and for `FormatSummaryListsFirst` |
| SummaryProofs.OneBulletIsList | summary.js:83-119 | one bulleted line `- a` becomes `<p><ul><li>a</li></ul></p>`, in either order of the rules |
| SummaryProofs.BulletedBecomesOneList | summary.js:104-116 | with the list rules ahead of the line-break rules, every bulleted line becomes its own `<li>`, and the run becomes one `<ul>` |
| SummaryProofs.TwoBulletsAsWritten | summary.js:100-106 | as written, `- a` newline `- b` gives one `<li>` that holds `a<br>- b` |
| SummaryProofs.TwoBulletsCorrected | summary.js:104-116 | with the list rules first, the same text gives two items in one list |
| SummaryProofs.PlainLineIsParagraph | summary.js:83-119 | a plain line that is neither a header nor an item becomes `<p>line</p>` under either order |
| SummaryStore.SummaryKey | popup.js:104 | the key made of the click's time is neither empty nor `latest_summary` |
| SummaryStore.Display | summary.js:54-75 | the title falls back to `Unknown Page` and the url to `''`; there is a back link exactly when the url is non-empty; the body is `formatSummary` of the summary with the rules in the order summary.js runs them, and holds no newline |
| SummaryStore.Store.Save | popup.js:103-116 | the store gains the record under `summary_<now>` and `latest_summary` pointing at that key; nothing else changes |
| SummaryStore.Store.Open | summary.js:16-52 | the page outcome and the new store are those of `Load` on the old store |
| SummaryStore.Load | summary.js:16-52 | a `key` parameter selects loading by key, its absence the fallback through `latest_summary`; `Store.Open` and the lemmas below state what each does |
| SummaryStore.LoadByKey | summary.js:20-31 | loading by key; `LoadByKeyRemovesOnlyKey`, `LoadByKeyMissing` and `SaveThenOpenByKey` state what it does |
| SummaryStore.LoadLatest | summary.js:32-50 | the fallback through `latest_summary`; `LoadLatestRemovesBoth` and `SaveThenOpenLatest` state what it does |
| SummaryStore.LoadByKeyRemovesOnlyKey | summary.js:20-31 | loading by key removes that key and nothing else, and only when a summary was shown |
| SummaryStore.LoadByKeyMissing | summary.js:29-31 | a missing or falsy entry gives the expiry message and leaves the store as it was |
| SummaryStore.LoadLatestRemovesBoth | summary.js:34-51 | the fallback removes the summary it shows and `latest_summary`, and nothing else |
| SummaryStore.SaveThenOpenByKey | summary.js:20-28 | a summary just saved is shown by its key; afterwards only that key is gone, and `latest_summary` still names it |
| SummaryStore.SaveThenOpenLatest | summary.js:34-43 | without a key parameter the same summary is shown through `latest_summary`, and both entries are removed |
| SummaryStore.OpenTwice | summary.js:22-30 | a summary is shown at most once: opening the same key again fails with the expiry message |
| Settings.StringOr | popup.js:240 | `stored \|\| fallback`: the stored string when non-empty, the fallback otherwise |
| PageText.TextOf | popup.js:306 | `innerText \|\| textContent` is empty exactly when both are |
| PageText.FirstSelectedIsFirst | content.js:63-70 | the element found is that of the earliest selector that matches; there is none exactly when no selector matches |
| PageText.FindMainContent | popup.js:300-309 | the loop with its `break` returns the text of the first selector's element, or `''` |
| JsText.CleanupJoinsTokens | popup.js:317 | `replace(/\s+/g, ' ').trim()` is the words of the text (its maximal runs of non-whitespace) joined by single spaces; cleaning keeps the same words |
| JsText.Trim | content.js:26 | `.trim()`; `TrimSlice` states it is a middle slice of the text with only whitespace cut from its ends and none left at them |
| JsText.CollapseWhitespace | popup.js:317 | `replace(/\s+/g, ' ')`: every whitespace run becomes one space and no two whitespace characters are left adjacent; `CollapseKeepsTokens` states that it keeps the words |
| JsText.Cleanup | popup.js:317 | `replace(/\s+/g, ' ').trim()`: the result has no newline and is clean; `CleanupJoinsTokens` states it is the text's words joined by single spaces |
| JsText.CleanupKeepsBoundary | popup.js:317 | two words separated by any non-empty whitespace come out as the two words with one space between them |
| JsText.CleanupIdempotent | popup.js:317 | cleaning a cleaned text changes nothing |
| JsText.TrimOfWhitespace | popup.js:95 | a text of whitespace only trims to the empty string |
| Popup.FormatSummary | popup.js:271-274 | no newline is left, and each newline lengthens the text by three |
| Popup.FormatSummaryRoundTrip | popup.js:271-274 | for a summary without `<`, turning each `<br>` back into a newline restores the summary |
| Popup.Truncate | popup.js:320-322 | a text within 15000 characters is kept; a longer one becomes its first 15000 characters followed by `...` |
| Popup.TruncateIdempotent | popup.js:320-322 | capping twice equals capping once |
| Popup.PopupPageText | popup.js:300-322 | the first content element's text, or the body clone's, cleaned and capped; `PopupPageTextShape` states what it is |
| Popup.ExtractPageContent | popup.js:278-325 | the selector loop, the body fallback, the cleanup and the cap give `PopupPageText` |
| Popup.PopupPageTextShape | popup.js:312-322 | the cleaned text is the source text's words joined by single spaces; the result is that text when it fits in 15000 characters, and otherwise its first 15000 characters followed by `...` |
| Popup.Attempt | popup.js:331-336 | an attempt succeeds exactly when the reply has non-empty content; a rejection carries its error |
| Popup.Retry | popup.js:328-342 | how the retry loop settles, with its attempt and wait counts; `RetryPromises` states what that is |
| Popup.FirstAnswered | popup.js:329-340 | the first successful attempt among the first `n`, with every earlier attempt failed |
| Popup.SendMessageWithRetry | popup.js:328-342 | the loop settles as `Retry` says: how it ends, how many attempts it makes and how many 500 ms waits it takes |
| Popup.FirstAnsweredExtends | popup.js:329-340 | allowing more attempts does not change the first success |
| Popup.RetryPromises | popup.js:328-342 | at most `retries` attempts, one wait fewer than attempts; the content of the first success; otherwise, after all `retries` attempts, the error of the last one; `undefined` when `retries` is not positive |
| Popup.Click | popup.js:24-137 | the click's outcome; `MissingKeyStopsFirst`, `BlankContentNotSent`, `ClickAsksOnce` and `ClickStoresUnderFreshKey` state what it is |
| Popup.ApiKey | popup.js:36 | `settings.openaiApiKey?.trim()`; `MissingKeyStopsFirst` states that a missing or blank key stops the click |
| Popup.MissingKeyStopsFirst | popup.js:36-44 | a missing or blank key asks for the key, whatever the page and the API would do |
| Popup.BlankContentNotSent | popup.js:95-97 | a blank page text gives `Error: No content found on this page`, and the API is not consulted |
| Popup.ClickAsksOnce | popup.js:99-100 | the outcome depends on the API only through its answer to the one summary request |
| Popup.OnSummarizeClick | popup.js:24-137 | the outcome is `Click`'s; with auto-open on, the summary is saved under `summary_<now>`; otherwise the store is unchanged |
| Popup.ClickStoresUnderFreshKey | popup.js:102-116 | a stored summary means auto-open was on, the key is `summary_<now>` and the record holds the tab's title, its url and the time stamp |
| Popup.StoredSummaryIsShown | popup.js:113-116 | what the popup stores is what the summary page shows by its key |
| Prompt.LanguageName | popup.js:229 | a known code gives its language name; an unknown code is used as it is |
| Prompt.LanguageNameExamples | popup.js:204-229 | `es` is Spanish and `uk` is Ukrainian; the map is case-sensitive, so `ES` stays `ES` |
| Prompt.PromptBlocks | popup.js:153-231 | the blocks of the system prompt; `PromptBlocksShape` states which and in what order |
| Prompt.PromptBlocksShape | popup.js:153-231 | the prompt starts with the base text and holds the quality block. The detail and formatting blocks are present exactly when their flags are not `false`. The translation instruction comes last exactly when a language is set. Blocks keep their fixed order |
| Prompt.RenderAppend | popup.js:153-231 | the prompt of joined block lists is the join of their prompts |
| Prompt.BuildSystemPrompt | popup.js:153-231 | the string built by appending is the rendering of `PromptBlocks` |
| Prompt.SystemPromptEnds | popup.js:153-231 | the prompt begins with the base text and ends with the translation instruction or, without one, with the quality text |
| Prompt.SummaryRequest | popup.js:233-260 | model: the stored one, or `gpt-4o-mini`; `max_tokens` 1500 and temperature 0.7; `Bearer` authorization; a system message with the prompt and a user message that ends with the page text |
| Prompt.RequestIgnoresMaxTokens | popup.js:257 | the stored maximum-tokens setting has no effect on the request |
| Options.ParseInt | options.js:33 | `parseInt` of the field: leading whitespace, an optional sign, then the digit run; `ParseIntOfString` and `ParseIntWithoutDigit` state what it reads |
| Options.DigitRun | options.js:33 | the longest run of digits at the start, as `parseInt` reads it |
| Options.IntToString | options.js:23 | the decimal form of an integer starts with a digit or `-` |
| Options.ParseIntOfString | options.js:23-33 | `parseInt` reads back the decimal form of any integer, followed by any text that does not extend the number (exact on the model's unbounded integers; see Left out) |
| Options.ParseIntWithoutDigit | options.js:33 | a text without a digit parses to `NaN` |
| Options.Validate | options.js:39-54 | the settings pass exactly when the key is non-empty and starts with `sk-` and the number is not outside 500..4000; a failure names one of the three messages |
| Options.FirstFailureDecides | options.js:39-54 | the checks run in order: missing key, then prefix, then range |
| Options.UnparsedMaxTokensPasses | options.js:33-54 | a maximum-tokens field without digits parses to `NaN`, which passes the range check |
| Options.RangeIsInclusive | options.js:51 | 500 and 4000 pass; 499 and 4001 fail with the range message |
| Options.Loaded | options.js:18-27 | the key field is filled only from a stored non-empty key; each checkbox is ticked unless stored as `false` |
| Options.MaxTokensText | options.js:23 | `result.maxTokens \|\| 2000` as the field's text; `MaxTokensDefault` states what it parses back to |
| Options.MaxTokensDefault | options.js:23 | the field's text parses back to the stored number when that is truthy, and to 2000 otherwise (on the model's unbounded integers; see Left out) |
| Options.Collect | options.js:31-37 | the key is trimmed |
| Options.Merge | options.js:57 | the write leaves the model and the translation setting as they were |
| Options.Saved | options.js:39-63 | the store and the status after a click on save; `SaveWritesOnlyValid`, `SaveThenLoad` and `SaveLoadSave` state what they are |
| Options.SaveWritesOnlyValid | options.js:39-63 | the store changes only when validation passes; a failure leaves it and shows the message; success shows the saved message |
| Options.SaveThenLoad | options.js:12-37 | after a save, reloading shows the saved key and flags, and the number field parses back to the saved number, or to 2000 when it was `NaN` |
| Options.SaveLoadSave | options.js:12-63 | saving again after a reload gives the saved message and changes at most the maximum-tokens entry, to what the reloaded field parses to |
| Options.OptionsPage.constructor | options.js:1-9 | the page starts with empty fields over the given store |
| Options.OptionsPage.LoadSettings | options.js:11-27 | the form becomes `Loaded` of the store; the store and the status are unchanged |
| Options.OptionsPage.SaveSettings | options.js:30-64 | the store and the status become `Saved` of the old store and form; the form is unchanged |
| Content.CollapseNewlineRuns | content.js:86 | no two newlines are adjacent afterwards, and the first character is kept |
| Content.CollapseOneRun | content.js:86 | text before the first newline is kept as it is, and a run of one or more newlines becomes exactly one |
| Content.ContentClean | content.js:84-87 | the content script's three-step cleanup; `ContentCleanIsCleanup` and `ContentCleanProperties` state what it is |
| Content.ContentCleanIsCleanup | content.js:84-87 | the content script's three-step cleanup equals the popup's cleanup: the newline step never changes anything |
| Content.ContentCleanProperties | content.js:84-87 | the cleaned text has no newline, no two adjacent whitespace characters and no whitespace at either end, and is its own cleanup |
| Content.Candidate | content.js:74-81 | the chosen text is one of the three candidates, and unless it is the live body's text it is non-empty with a trimmed length of at least 20 |
| Content.CandidateOrder | content.js:74-81 | the main text wins when its trimmed length is at least 50; otherwise the clone's text when it reaches 20; otherwise the live body's text |
| Content.MainText | content.js:63-70 | the text of the element found by the first selector that finds one, `''` when none does; `FirstSelectedIsFirst` states which element that is |
| Content.ContentText | content.js:23-90 | what the extractor returns; `ContentTextKeepsWords` and `NoBodyOnlyTrims` state what it is |
| Content.ExtractPageContent | content.js:23-90 | the content script's extractor returns `ContentText` |
| Content.ContentTextKeepsWords | content.js:74-89 | with a body, the result is the chosen candidate's words joined by single spaces, with no cap on its length |
| Content.NoBodyOnlyTrims | content.js:25-27 | without a body the result, for every document text, is a slice of that text with only whitespace cut from its ends and none left at them; a text with no whitespace at its ends comes back whole, whatever its length; a missing document element gives `''` |
| Content.NoBodyKeepsBlankLine | content.js:25-27 | without a body a blank line inside the text survives |

## Left out

- String lengths: JavaScript counts UTF-16 code units, and the model counts characters. This affects the 15000 cap and the 50/20 minimum lengths for text outside the Basic Multilingual Plane.
- The DOM: cloning the body, removing `script`, `style`, `nav` and similar elements, and `querySelector`. The model takes as given the texts the selectors find in the cleaned clone.
- `fetch`, JSON encoding and decoding, HTTP status handling and the shape of the API's answer (popup.js:262-268). The API is a parameter that answers a request with the summary or with an error message.
- The choice between message passing and script injection by browser (popup.js:56-93). The click takes what the two routes gave as `extracted`, with `None` when both failed.
- `cross-browser.js`, `background.js`, the build scripts and the `chrome.runtime.onMessage` listener of the content script. These only route calls.
- Timers, `showStatus` styling, `window.close`, opening the options and summary tabs, and the copy, print and back-button handlers of the summary page. They only touch the browser UI.
- `chrome.runtime.lastError` on save (options.js:58-59). The model treats every write as successful.
- The clock: `Date.now()` and `new Date().toISOString()` are the parameters `now` and `stamp`, and the summary page's date formatting is left out.
- `Prompt.LanguageName`: the map of popup.js:204-227 is an object literal, so inherited property names such as `constructor` would also be found in it. The model looks codes up in the 22 listed entries only.
- `Popup.SendMessageWithRetry`: requires at least `retries` modelled replies (`retries <= |replies|`). This precondition belongs to the model, which lists the outcome of each attempt up front.
- `Options.ParseInt`, `Options.IntToString`, `Options.ParseIntOfString`, `Options.MaxTokensDefault`: JavaScript numbers are doubles, and the model's numbers are unbounded integers. Two things are not modelled: rounding past 2^53 (`parseInt("9007199254740993")` is 9007199254740992), and the exponent form that `input.value = n` writes from 1e21 on (which `parseInt` reads back as 1). Neither can change a validation outcome or a stored value: every such number fails the 500..4000 check both ways, and options.js stores only numbers in 500..4000 or `NaN`.
- `Options.SaveThenLoad`: `NaN` is stored by `chrome.storage` as `null`. The model keeps it as `NaN`, which is falsy in the same way, so a reload shows `2000`.
- `SummaryStore.Store.Save`: writes the two keys in one step. The asynchronous write and its failure are not modelled.
- The summary page's HTML is produced without escaping. The model states that no characters are added other than those of tag names (`SummaryMarkup.FormatSummaryAddsOnlyTags`), and does not model sanitizing, which the source does not do.
- `ItemsBecomeOneList`: in the order summary.js runs its rules, the line-break rules run first, so for several bulleted lines `r` is a single `<li>` that swallows the later bullets (`TwoBulletsAsWritten`); a run with one `<li>` per bullet is reached only under `FormatSummaryListsFirst` (see Findings).
- Regular expressions in general: each `replace` call of the core is written out as the scanning function it amounts to, and no regex engine is modelled.

## Findings

| source | as written | input that shows it | evidently intended | confidence | as-written member | corrected member |
|---|---|---|---|---|---|---|
| summary.js:100-106 | the list rules run after every `\n` has become `<br>` or `</p><p>`, so their `^` anchors only at the start of the text and only the first bulleted line becomes an `<li>`, which swallows the rest | `"- a\n- b"` gives one item holding `a<br>- b` | each bulleted line becomes its own `<li>` inside one `<ul>` | not executed | SummaryProofs.TwoBulletsAsWritten | SummaryProofs.TwoBulletsCorrected |

`SummaryFormat.FormatSummary` keeps the order of summary.js, and `SummaryStore.Display` uses it, so the summary page is modelled as it behaves. `SummaryFormat.FormatSummaryListsFirst` runs the three list rules before the two line-break rules, and `SummaryProofs.BulletedBecomesOneList` proves the intended behaviour for any number of bulleted lines under that order.
