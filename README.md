# Article draft workflow: quote checking and its helpers, in Dafny

This project models the logic of the article-draft workflow.
- A transcript's key points are extracted by a language model. The user reviews and reorders them.
- A draft is generated in a chosen tone, and its quotations are checked against the source materials.
- The draft is exported together with a provenance record.

Each piece of logic is a Dafny module:

- `CheckQuotes` is the `check-quotes` edge function:
  - the `/["'](.*?)["']/g` extraction loop, with trimming and the longer-than-10 filter;
  - the assembly of the source materials from the transcript and the supporting sources;
  - the per-quotation verdict, with the case-insensitive text search as the fallback;
  - the handler's answers.
- `ReviewExport` is the review-and-export page:
  - the `/"([^"]+)"/g` detection loop with its simulated check;
  - the word count of `split(/\s+/)`;
  - the provenance record;
  - the page state, a class whose draft the user edits.
- `KeyPointReview` is the key-point review page. The list operations are functions on sequences. The page is a class whose handlers replace its `keyPoints` field.
- `GenerateDraft` is the `generate-draft` edge function:
  - request validation;
  - the tone instruction with its fallback;
  - the system prompt and the numbered key points;
  - the checks on the model's reply.
- `ExtractKeyPoints` is the `extract-key-points` edge function:
  - request validation;
  - the numbered sources context;
  - the relay of the streamed reply, which carries the partial line after each chunk over to the next chunk and turns each complete line into at most one event; a read that rejects mid-stream ends the stream with an error after the events already sent.
- `DraftGeneration` is the draft-generation page:
  - tone titles and the tone menu;
  - the simulated draft template;
  - the page state, a class, with the generate handler and its timer callback.
- `JsText`, `JsRegex` and `Numbering` hold the JavaScript string and regular-expression semantics that these modules share, and the `${k}. ${item}` numbered lists:
  - `trim`, `toLowerCase`, `includes`, `split`, `join`;
  - `exec` with `lastIndex` for the two quotation patterns.
- `Sources` holds the supporting-source record.

The language-model and fact-checking services are parameters: functions from the prompt text to an outcome datatype. Storage reads are `Option` parameters. `JSON.parse` is a parameter that returns `None` where it would throw.

Some behaviours of the code are easy to misread:
- the quotation delimiters of `check-quotes` are `'` and `"`, in any pairing; curly quotation marks are ordinary characters;
- the length filter counts UTF-16 code units, so a quotation of exactly 10 units after trimming is dropped, and one of six emoji is kept;
- in `check-quotes` the transcript and the supporting sources are joined into one text, transcript first, and the fallback search looks through that whole text, so no source takes precedence; the only snippet is the one the fact-checking reply carries, and an unverified quotation has source `""` (`check-quotes/index.ts:135`);
- the review page's simulated check labels a quotation outside the phrase list "Not Found" (`ReviewExport.tsx:34`);
- the tone lookup also finds the members every object inherits (`toString`, `__proto__`, ...), whose text then stands in the prompt in place of a tone instruction.

## Model

| member | source | states |
|---|---|---|
| CheckQuotes.ExtractQuotes | supabase/functions/check-quotes/index.ts:37-46 | The `exec` loop returns exactly `ExtractedQuotes(draft)`: the kept quotations, in draft order. |
| CheckQuotes.ExtractStep | supabase/functions/check-quotes/index.ts:41-46 | One round of the loop (trim, keep if its UTF-16 length exceeds 10, resume after the closing delimiter) preserves "kept so far + kept from lastIndex = all kept". |
| CheckQuotes.KeptFrom | supabase/functions/check-quotes/index.ts:37-46 | The quotations the loop keeps from a given `lastIndex`; its contract is stated by `KeptFromFilters`. |
| CheckQuotes.KeptFromFilters | supabase/functions/check-quotes/index.ts:41-46 | From any `lastIndex`, the loop keeps the trimmed captures of the later matches whose UTF-16 length exceeds 10, in order. |
| CheckQuotes.ExtractedQuotes | supabase/functions/check-quotes/index.ts:37-46 | The quotations of a draft; its contract is stated by `ExtractedQuotesExactly` and `ExtractQuotes`. |
| CheckQuotes.ExtractedQuotesExactly | supabase/functions/check-quotes/index.ts:41-45 | The extracted list is the filtered list of trimmed captures. A text is extracted iff it is a trimmed capture whose UTF-16 length exceeds 10. |
| CheckQuotes.LongEnoughMembers | supabase/functions/check-quotes/index.ts:43-44 | The filter keeps a quotation iff its `length` (UTF-16 code units) is strictly greater than 10; one of exactly 10 units is dropped. |
| CheckQuotes.SingleQuotation | supabase/functions/check-quotes/index.ts:37-46 | A draft that is one `"`-quoted text with no delimiter or line terminator inside yields that text trimmed, iff its UTF-16 length exceeds 10. |
| CheckQuotes.AstralQuotationKept | supabase/functions/check-quotes/index.ts:43 | A quotation of six or more characters outside the Basic Multilingual Plane (emoji, say) is kept: it has at least 12 UTF-16 units. |
| CheckQuotes.TenUnitQuotationDropped | supabase/functions/check-quotes/index.ts:43 | A quotation of exactly ten Basic-Multilingual-Plane characters, not padded with white space, is dropped. |
| CheckQuotes.CapturesAreMatches | supabase/functions/check-quotes/index.ts:37-42 | Capture `i` is the trimmed text between the two delimiters of match `i`, and every match lies inside the draft. |
| CheckQuotes.NoDelimiterNoQuotes | supabase/functions/check-quotes/index.ts:37-46 | A draft without `'` or `"` yields no quotation. |
| CheckQuotes.BuildSourceMaterials | supabase/functions/check-quotes/index.ts:57-66 | The `+=` accumulation builds exactly `SourceMaterials`: the transcript block, when there is a transcript, then one numbered entry per source. |
| CheckQuotes.EntriesStep | supabase/functions/check-quotes/index.ts:63-65 | Each `forEach` round appends the entry of source `index + 1` to the entries before it. |
| CheckQuotes.MaterialsEmptyIff | supabase/functions/check-quotes/index.ts:57-66 | The materials are `""` iff there is no transcript and no source. |
| CheckQuotes.MaterialsStartWithTranscript | supabase/functions/check-quotes/index.ts:58-60 | A non-empty transcript opens the materials as `TRANSCRIPT:\n` + transcript + `\n\n`. |
| CheckQuotes.SourceEntry | supabase/functions/check-quotes/index.ts:63-64 | The text of one supporting source; its contract is stated by `EntriesInOrder`. |
| CheckQuotes.SourceMaterials | supabase/functions/check-quotes/index.ts:57-66 | The materials text; its contract is stated by `MaterialsEmptyIff`, `MaterialsStartWithTranscript`, `EntriesInOrder` and `BuildSourceMaterials`. |
| CheckQuotes.UserMessage | supabase/functions/check-quotes/index.ts:93-98 | The fact-checking request for one quotation; its contract is stated by `UserMessageLayout`. |
| CheckQuotes.UserMessageLayout | supabase/functions/check-quotes/index.ts:93-98 | The message starts with the request heading, carries the quotation right after `QUOTE TO VERIFY: "` and closed by `"`, and ends with the whole materials text. |
| CheckQuotes.FoundByTextSearch | supabase/functions/check-quotes/index.ts:120 | The case-insensitive fallback search (also at line 127); its contract is stated by `Verdict`. |
| CheckQuotes.EntriesInOrder | supabase/functions/check-quotes/index.ts:62-65 | The entry of source `k` (numbered `k + 1`) directly follows the entries of the sources before it, in input order. |
| CheckQuotes.Verdict | supabase/functions/check-quotes/index.ts:71-137 | Without materials, or after a non-OK reply, the quotation is unverified. A parsed reply sets `verified := found`, with source `"Unknown"` when it has none. A parse error or a throw gives `verified` iff the lower-cased quotation occurs in the lower-cased materials, with source `"Source Material"`. An unverified entry has source `""` and no snippet. |
| CheckQuotes.VerifyQuote | supabase/functions/check-quotes/index.ts:72-137 | The body of the per-quotation loop computes exactly `Verdict` of the service's reply to the user message. |
| CheckQuotes.Verdicts | supabase/functions/check-quotes/index.ts:71-138 | One entry per quotation, in order. Entry `i` is the verdict for quotation `i`. |
| CheckQuotes.VerifyQuotes | supabase/functions/check-quotes/index.ts:69-138 | The `for` loop pushes exactly the `Verdicts` list. |
| CheckQuotes.Response | supabase/functions/check-quotes/index.ts:27-54 | The answer is 400 iff the draft is empty. Otherwise there is one entry per extracted quotation, in order, with `text` equal to it. |
| CheckQuotes.CheckQuotes | supabase/functions/check-quotes/index.ts:25-144 | The handler body, including the early return with no quotations, answers exactly `Response`. |
| JsRegex.Exec | supabase/functions/check-quotes/index.ts:41 | A match found from `lastIndex` opens at or after it and closes inside the text. |
| JsRegex.ExecSound | supabase/functions/check-quotes/index.ts:37 | What `exec` reports is a match: an opening delimiter, body characters with no line terminator, then the nearest closing delimiter. |
| JsRegex.ExecLeftmost | supabase/functions/check-quotes/index.ts:41 | No match starts between `lastIndex` and the reported one, and there is none at all when `exec` fails. |
| JsRegex.ExecFindsFirst | supabase/functions/check-quotes/index.ts:41 | A match with no delimiter before it (from `lastIndex`) is the one `exec` reports. |
| JsRegex.MatchAtSound | supabase/functions/check-quotes/index.ts:37 | A match reported at a position satisfies the pattern. |
| JsRegex.MatchAtComplete | supabase/functions/check-quotes/index.ts:37 | Every match of the pattern at a position is reported, closing at the nearest delimiter (lazy `.*?`). |
| JsRegex.SpansOrdered | supabase/functions/check-quotes/index.ts:41-46 | The matches of the loop are matches of the pattern, in order and non-overlapping. |
| JsRegex.SpansLeftmost | supabase/functions/check-quotes/index.ts:41-46 | The loop misses no match: none starts before the first, between neighbours, or after the last. |
| JsRegex.SpansInText | supabase/functions/check-quotes/index.ts:41 | Every match's delimiters lie inside the text, in order. |
| JsRegex.MapCapturesSpans | src/pages/ReviewExport.tsx:28-37 | A loop that pushes `f(capture)` yields one element per match, in order: element `i` is `f` of capture `i`. |
| JsRegex.MapInvariantStep | src/pages/ReviewExport.tsx:28-36 | One push of such a loop preserves "pushed so far + still to come = all". |
| JsRegex.FirstDoubleQuoted | src/pages/ReviewExport.tsx:24-29 | In `a "b" c` with no `"` in `a` or `b` and `b` non-empty, the first match of `/"([^"]+)"/` captures `b`. |
| JsText.IsWhiteSpace | supabase/functions/check-quotes/index.ts:42 | The white space `trim()` and `\s` remove: the ECMAScript WhiteSpace and LineTerminator code points; its contract is stated by `TrimStrips`. |
| JsText.Trim | supabase/functions/check-quotes/index.ts:42 | `trim()` never lengthens a text. |
| JsText.TrimUnchanged | supabase/functions/check-quotes/index.ts:42 | A non-empty text that neither starts nor ends with white space is its own `trim()`. |
| JsText.Utf16Length | supabase/functions/check-quotes/index.ts:43 | `length` counts UTF-16 code units: one per character below U+10000, two above, so it lies between the number of characters and twice that. |
| JsText.Utf16LengthAppend | supabase/functions/check-quotes/index.ts:43 | The UTF-16 length of a concatenation is the sum of the lengths. |
| JsText.Utf16LengthBmp | supabase/functions/check-quotes/index.ts:43 | The UTF-16 length equals the number of characters iff every character is below U+10000. |
| JsText.Utf16LengthAstral | supabase/functions/check-quotes/index.ts:43 | A text of characters at or above U+10000 has twice as many UTF-16 units as characters. |
| JsText.TrimStrips | supabase/functions/check-quotes/index.ts:42 | `trim()` removes exactly the leading and trailing white space: the text is white space, the result, then white space, and the result neither starts nor ends with white space. |
| JsText.ToLower | supabase/functions/check-quotes/index.ts:120 | `toLowerCase()` maps each character to its lower case and keeps the length. |
| JsText.Includes | supabase/functions/check-quotes/index.ts:120 | `includes` is true iff the needle occurs at some offset. |
| JsText.SplitWhiteSpace | src/pages/ReviewExport.tsx:67 | `split(/\s+/)` gives at least one piece, and no piece holds white space. |
| JsText.SplitWhiteSpaceCount | src/pages/ReviewExport.tsx:67 | `split(/\s+/)` gives one piece more than there are maximal white-space runs. |
| JsText.SplitLines | supabase/functions/extract-key-points/index.ts:99-101 | The complete lines, each followed by `\n`, plus the rest, equal the text. Neither the rest nor any line holds `\n`. |
| JsText.JsSplitLines | supabase/functions/extract-key-points/index.ts:100 | `split('\n')` gives at least one piece. |
| JsText.SplitLinesAppend | supabase/functions/extract-key-points/index.ts:99-101 | Splitting the carried buffer plus a new chunk equals splitting everything received so far, continuing the previous lines. |
| JsText.SplitJoinRoundTrip | supabase/functions/generate-draft/index.ts:53 | `join('\n')` followed by `split('\n')` gives back the lines when none holds `\n`. |
| JsText.NatToString | supabase/functions/generate-draft/index.ts:53 | `${n}` is a non-empty text. |
| JsText.NatToStringDigits | supabase/functions/generate-draft/index.ts:53 | `${n}` consists of decimal digits and has no leading zero. |
| JsText.NatToStringValue | supabase/functions/generate-draft/index.ts:53 | Reading `${n}` back as decimal digits gives `n`. |
| JsText.NatToStringInjective | supabase/functions/check-quotes/index.ts:64 | Distinct source numbers are written differently. |
| Numbering.NumberedLines | supabase/functions/generate-draft/index.ts:53 | Line `k` of the list is `${k + 1}. ` followed by item `k`, one line per item. |
| Numbering.NumberedLineRoundTrip | supabase/functions/generate-draft/index.ts:53 | Reading a numbered line back (digits, `. `, item) gives the item, whatever it holds. |
| Numbering.NumberedListRoundTrip | supabase/functions/generate-draft/index.ts:53 | Splitting a non-empty numbered list at `\n` and reading each line gives back the items, in order, when no item holds `\n`. |
| Numbering.NumberedListEmpty | supabase/functions/generate-draft/index.ts:53 | The numbered list is `""` iff there are no items. |
| ReviewExport.SimulatedCheck | src/pages/ReviewExport.tsx:29-36 | `found` iff the quotation contains "users should never have to think". The source is "Interview Transcript" when found, else "Not Found". |
| ReviewExport.DetectQuotes | src/pages/ReviewExport.tsx:24-37 | The `exec` loop pushes exactly `Detected(savedDraft)`. |
| ReviewExport.Detected | src/pages/ReviewExport.tsx:24-37 | The quotations the page detects; its contract is stated by `DetectedMatches`, `DetectedShape` and `DetectQuotes`. |
| ReviewExport.DetectedMatches | src/pages/ReviewExport.tsx:24-37 | One detected quotation per match, in draft order. Element `k` is the simulated check of the text between match `k`'s quotes. |
| ReviewExport.DetectedShape | src/pages/ReviewExport.tsx:24-29 | Every detected quotation is non-empty and holds no `"`. It is not trimmed and not filtered by length. |
| ReviewExport.OrDefault | src/pages/ReviewExport.tsx:58-61 | `getItem(key) \|\| fallback`: a missing or empty stored value gives the fallback, anything else is kept. |
| ReviewExport.WordCount | src/pages/ReviewExport.tsx:67 | The word count is 1 plus the number of maximal white-space runs, so it is at least 1. |
| ReviewExport.QuoteRecords | src/pages/ReviewExport.tsx:80-84 | One record per detected quotation, in order, with `text = quote`, `verified = found` and the same source. |
| ReviewExport.ProvenanceRecord | src/pages/ReviewExport.tsx:57-89 | Nothing is exported iff the stored key points are non-default and do not parse. Otherwise the record has: word count 1 plus the runs; the tone, transcript and date as given; `supportingSource` null iff the stored URL is empty, else `{url, "external_link"}`; `keyPoints` the stored list (`[]` by default); `characterCount` the draft's UTF-16 length; `quotes = QuoteRecords(quotes)`, the quotations mapped in order. |
| ReviewExport.ReviewExportPage.constructor | src/pages/ReviewExport.tsx:19-40 | The page holds the stored draft (or `""`) and its detected quotations. |
| ReviewExport.ReviewExportPage.EditDraft | src/pages/ReviewExport.tsx:118 | Editing replaces the draft and leaves the detected quotations as they were. |
| ReviewExport.ReviewExportPage.ExportMarkdown | src/pages/ReviewExport.tsx:42-43 | The downloaded Markdown is the current draft. |
| ReviewExport.ReviewExportPage.ExportProvenance | src/pages/ReviewExport.tsx:57-89 | The downloaded record is `ProvenanceRecord` of the current draft and the quotations detected when the page was shown. |
| KeyPointReview.Edited | src/pages/KeyPointReview.tsx:30-34 | Point `i` becomes the new text. The length and every other point are unchanged. |
| KeyPointReview.Deleted | src/pages/KeyPointReview.tsx:36-38 | The point at `i` is removed and the others keep their relative order. An index outside the list changes nothing. |
| KeyPointReview.Swapped | src/pages/KeyPointReview.tsx:43 | The destructuring swap exchanges two positions, changes nothing else and keeps the multiset of points. |
| KeyPointReview.Added | src/pages/KeyPointReview.tsx:54-56 | "New key point - click edit to modify" is appended; the old points stay in front. |
| KeyPointReview.DeletedRemovesOne | src/pages/KeyPointReview.tsx:36-38 | Deleting removes exactly one occurrence of the deleted point from the multiset. |
| KeyPointReview.MovedUp | src/pages/KeyPointReview.tsx:40-45 | Moving up; its contract is stated by `MovesPermute`, `MoveUpThenDown` and `HandleMoveUp`. |
| KeyPointReview.MovedDown | src/pages/KeyPointReview.tsx:47-52 | Moving down; its contract is stated by `MovesPermute`, `MoveUpThenDown` and `HandleMoveDown`. |
| KeyPointReview.MovesPermute | src/pages/KeyPointReview.tsx:40-52 | Moving up or down keeps the same points, each as often as before. |
| KeyPointReview.MoveUpThenDown | src/pages/KeyPointReview.tsx:40-52 | For `1 <= i < len`, moving up at `i` and then down at `i - 1` restores the list, and so does the reverse order. |
| KeyPointReview.Loaded | src/pages/KeyPointReview.tsx:14-27 | Nothing stored, or `""`, gives the single fallback message. A stored value gives its parse, or the empty list when it does not parse. |
| KeyPointReview.KeyPointReviewPage.constructor | src/pages/KeyPointReview.tsx:12-28 | The page starts with the loaded list. |
| KeyPointReview.KeyPointReviewPage.HandleEdit | src/pages/KeyPointReview.tsx:30-34 | The list becomes `Edited(old list, index, newText)`. |
| KeyPointReview.KeyPointReviewPage.HandleDelete | src/pages/KeyPointReview.tsx:36-38 | The list becomes `Deleted(old list, index)`. |
| KeyPointReview.KeyPointReviewPage.HandleMoveUp | src/pages/KeyPointReview.tsx:40-45 | The list becomes `MovedUp(old list, index)`: unchanged at 0, else positions `index - 1` and `index` swapped. |
| KeyPointReview.KeyPointReviewPage.HandleMoveDown | src/pages/KeyPointReview.tsx:47-52 | The list becomes `MovedDown(old list, index)`: unchanged at the last index, else positions `index` and `index + 1` swapped. |
| KeyPointReview.KeyPointReviewPage.HandleAddKeyPoint | src/pages/KeyPointReview.tsx:54-56 | The list becomes `Added(old list)`. |
| KeyPointReview.KeyPointReviewPage.HandleContinue | src/pages/KeyPointReview.tsx:58-59 | The stored list is the current list. |
| GenerateDraft.ToneInstruction | supabase/functions/generate-draft/index.ts:30-37 | The lookup with its `\|\|` fallback, including the members inherited from `Object.prototype`; its contract is stated by `ToneFallback`. |
| GenerateDraft.InheritedText | supabase/functions/generate-draft/index.ts:37 | The text an inherited member becomes in the prompt; it is shorter than any of the four instructions. |
| GenerateDraft.ToneFallback | supabase/functions/generate-draft/index.ts:30-37 | A tone that is neither one of the four keys nor an inherited name (`toString`, `constructor`, `__proto__`, ...) gets the professional instruction. Each other key, and each inherited name, gets a different text. |
| GenerateDraft.PageTonesAreProfessional | supabase/functions/generate-draft/index.ts:37 | "neutral", "excited" and "critical" all get the professional instruction. |
| GenerateDraft.SystemPrompt | supabase/functions/generate-draft/index.ts:39-51 | `\n\nAdditional instructions: ` + customPrompt is appended iff customPrompt is non-empty. |
| GenerateDraft.Prompt | supabase/functions/generate-draft/index.ts:65-71 | The text sent to the model; its contract is stated by `PromptLayout`. |
| GenerateDraft.PromptLayout | supabase/functions/generate-draft/index.ts:39-71 | The prompt is the system prompt, the request heading, the numbered key points and the length request, in that order. The additional instructions come right after the base prompt when given. |
| GenerateDraft.Accept | supabase/functions/generate-draft/index.ts:83-110 | A draft is returned iff the reply is OK, has `candidates[0]`, its finish reason is not `MAX_TOKENS`, and it has `content.parts[0]`. The draft is that part's text. Every other outcome is a 500. |
| GenerateDraft.MaxTokensRejected | supabase/functions/generate-draft/index.ts:92-103 | A cut-off first candidate is rejected with the token-limit message even when it has content. An OK reply without candidates gets the invalid-response message. |
| GenerateDraft.Response | supabase/functions/generate-draft/index.ts:20-123 | The answer is 400 iff `keyPoints` is not a list. Otherwise it is the acceptance of the model's reply to the prompt for the tone's instruction. |
| ExtractKeyPoints.Labels | supabase/functions/extract-key-points/index.ts:32-34 | One label per source, in order. |
| ExtractKeyPoints.SourcesContext | supabase/functions/extract-key-points/index.ts:30-35 | The numbered sources context; its contract is stated by `SourcesContextLayout`. |
| ExtractKeyPoints.SourcesContextLayout | supabase/functions/extract-key-points/index.ts:30-35 | The context is `""` iff there are no sources. Otherwise it starts with the heading, and the lines after it read back as the labels in source order: a URL source shows its value, any other its name, or "Document" when it has none. |
| ExtractKeyPoints.Prompt | supabase/functions/extract-key-points/index.ts:46-50 | The text sent to the model; its contract is stated by `PromptLayout`. |
| ExtractKeyPoints.PromptLayout | supabase/functions/extract-key-points/index.ts:46-50 | The prompt is the request, the whole transcript, the sources context and the bullet-point request, in that order; without sources the transcript is directly followed by the request. |
| ExtractKeyPoints.Payload | supabase/functions/extract-key-points/index.ts:104-107 | A line's payload after the `data: ` prefix is removed and the rest trimmed; its contract is stated by `BlankPayload` and `LineEventsExactly`. |
| ExtractKeyPoints.BlankPayload | supabase/functions/extract-key-points/index.ts:104-107 | A blank line has an empty payload. |
| ExtractKeyPoints.LineEvents | supabase/functions/extract-key-points/index.ts:103-118 | The events of one line; its contract is stated by `LineEventsExactly`. |
| ExtractKeyPoints.LineEventsExactly | supabase/functions/extract-key-points/index.ts:103-118 | A line emits an event iff its payload (after the `data: ` prefix is removed and the rest trimmed) is neither empty nor `[DONE]` and parses to a non-empty text. That event carries the text. |
| ExtractKeyPoints.LinesEventsAreTexts | supabase/functions/extract-key-points/index.ts:108-114 | Every event of complete lines carries a non-empty text. |
| ExtractKeyPoints.LinesEvents | supabase/functions/extract-key-points/index.ts:103-119 | The events of a run of complete lines; its contract is stated by `LinesEventsAreTexts` and `LinesEventsAppend`. |
| ExtractKeyPoints.LinesEventsAppend | supabase/functions/extract-key-points/index.ts:103-119 | The events of two runs of lines are those of the first, then those of the second. |
| ExtractKeyPoints.FeedChunk | supabase/functions/extract-key-points/index.ts:99-101 | The complete lines (each followed by `\n`) plus the new buffer equal the old buffer plus the chunk, and the new buffer holds no `\n`. |
| ExtractKeyPoints.EmitLines | supabase/functions/extract-key-points/index.ts:103-119 | The inner loop emits exactly the events of its lines, in order. |
| ExtractKeyPoints.Relay | supabase/functions/extract-key-points/index.ts:75-124 | The read loop emits exactly `Relayed(body)`: the events of every complete line of the text read, then the leftover and `[DONE]` when the reads end with `done`, or only the stream error (`controller.error`) when a read rejects. |
| ExtractKeyPoints.Relayed | supabase/functions/extract-key-points/index.ts:87-124 | The events of a whole reply, for a clean end and for a failed read; its contract is stated by `RelayedShape`, `FailedRelayedShape` and `Relay`. |
| ExtractKeyPoints.RelayStep | supabase/functions/extract-key-points/index.ts:99-101 | Splitting the carried buffer plus the next chunk adds its complete lines to those of everything read before, and leaves the new buffer. |
| ExtractKeyPoints.RelayedShape | supabase/functions/extract-key-points/index.ts:90-96 | For a clean end, exactly one `DoneEvent` value is sent, and it is last. The raw leftover comes before it iff the leftover is not blank. Every other event carries a text. A leftover whose text is `[DONE]` is still a raw event (see `UnterminatedReplySentRaw`). |
| ExtractKeyPoints.UnterminatedReplySentRaw | supabase/functions/extract-key-points/index.ts:90-93 | A reply that is one non-blank text with no line feed is relayed as that raw leftover and then `DoneEvent`, whatever the text says, `[DONE]` included. |
| ExtractKeyPoints.FailedRelayedShape | supabase/functions/extract-key-points/index.ts:121-124 | When a read rejects, the events are those of the lines completed before the failure, all texts, then the stream error: no leftover and no `DoneEvent`. They are a prefix of what the same chunks give when the reads end normally. |
| ExtractKeyPoints.ChunkingIrrelevant | supabase/functions/extract-key-points/index.ts:87-101 | Two chunkings of the same text get the same `Relayed` events, whether the reads end normally or fail; this follows from `Relayed` reading only the concatenation, and the read loop's own independence of the chunking is what `Relay` proves. |
| ExtractKeyPoints.Response | supabase/functions/extract-key-points/index.ts:20-72 | The answer is 400 iff the transcript is empty, and every rejection is 400 or 500. It streams iff there is a transcript and the call returns an OK reply. |
| ExtractKeyPoints.ExtractKeyPoints | supabase/functions/extract-key-points/index.ts:18-133 | The handler body answers exactly `Response`. |
| DraftGeneration.ToneTitle | src/pages/DraftGeneration.tsx:61-72 | The heading for a tone; its contract is stated by `ToneTitleFallback` and `TitleQuoteFree`. |
| DraftGeneration.ToneTitleFallback | src/pages/DraftGeneration.tsx:61-72 | A tone gets "Article Draft" iff it is not one of the three page tones. Each of those gets its own title. |
| DraftGeneration.TitleQuoteFree | src/pages/DraftGeneration.tsx:61-72 | No title holds a `"`. |
| DraftGeneration.ToneOptionsCovered | src/pages/DraftGeneration.tsx:18-22 | Every tone of the `ToneOptions` menu has a title of its own, and every one of them gets the professional instruction from the generate-draft function. |
| DraftGeneration.Render | src/pages/DraftGeneration.tsx:31-54 | The draft template filled with a title and a custom prompt; its contract is stated by `DraftHeading`, `DraftContext` and `RenderQuoteDetected`. |
| DraftGeneration.SimulatedDraft | src/pages/DraftGeneration.tsx:31-54 | The simulated draft for a tone; its contract is stated by `DraftQuoteDetected` and `TimerFired`. |
| DraftGeneration.DraftHeading | src/pages/DraftGeneration.tsx:31 | The draft starts with `# ` and the tone's title. |
| DraftGeneration.DraftContext | src/pages/DraftGeneration.tsx:51 | A non-empty custom prompt changes the draft only by inserting `\n## Additional Context\n\n` + prompt right before the closing part. |
| DraftGeneration.RenderQuoteDetected | src/pages/DraftGeneration.tsx:31-54 | For a suitable template and a quote-free title, the review page's first detected quotation is the template's sentence, marked found in the interview transcript. |
| DraftGeneration.DraftQuoteDetected | src/pages/DraftGeneration.tsx:37 | For every tone and custom prompt, the review page detects the draft's quoted sentence first and its simulated check finds it. |
| DraftGeneration.QuotedSentenceHasPhrase | src/pages/DraftGeneration.tsx:37 | The quoted sentence contains the phrase the review page's simulated check looks for. |
| DraftGeneration.PageTemplateReady | src/pages/DraftGeneration.tsx:33-37 | No `"` comes before the quoted sentence of the page's template. The sentence is non-empty, holds no `"`, and holds the phrase. |
| DraftGeneration.DraftGenerationPage.constructor | src/pages/DraftGeneration.tsx:11-14 | The page starts with empty tone, prompt and draft, not generating, and with the page's template. |
| DraftGeneration.DraftGenerationPage.SelectTone | src/pages/DraftGeneration.tsx:89 | Only the selected tone changes. |
| DraftGeneration.DraftGenerationPage.SetCustomPrompt | src/pages/DraftGeneration.tsx:110 | Only the custom prompt changes. |
| DraftGeneration.DraftGenerationPage.HandleGenerateDraft | src/pages/DraftGeneration.tsx:24-30 | Without a tone nothing happens. Otherwise the page is generating and a timer is set for the current tone and prompt. |
| DraftGeneration.DraftGenerationPage.TimerFired | src/pages/DraftGeneration.tsx:30-58 | The draft becomes the simulated draft of the timer's tone and prompt, and generating stops. The review page will detect its quoted sentence first and find it. |
| DraftGeneration.DraftGenerationPage.EditDraft | src/pages/DraftGeneration.tsx:139 | Only the draft changes. |
| DraftGeneration.DraftGenerationPage.HandleContinue | src/pages/DraftGeneration.tsx:74-76 | What is stored is the current draft and the current tone. |

## Left out

- The network calls to the language-model and fact-checking services:
  - supabase/functions/check-quotes/index.ts:78-104;
  - supabase/functions/generate-draft/index.ts:55-81;
  - supabase/functions/extract-key-points/index.ts:37-63.
  
  Each is a function parameter from the prompt text to an outcome datatype. The system prompts, model names, temperatures and token limits sent with them are not modelled.
- HTTP and serialisation:
  - the `serve` wrapper, CORS preflight, response headers and logging;
  - `req.json()` (each handler starts from the parsed fields);
  - the markdown-fence removal and `JSON.parse` of the fact-check reply, which become the `Parsed`/`ParseError` outcomes;
  - `TextDecoder`/`TextEncoder` and `ReadableStream` (chunks are already-decoded text; events are values, not `data: …\n\n` bytes).
- JSON values of the wrong type:
  - A request property that is missing is the empty string. JavaScript would print `undefined` in `${source.type}` and in `${source.value || source.name}`.
  - A non-boolean `found` in the fact-check reply and a parsed key-point list that is not a list of strings are not modelled.
- JsText.ToLower: lowers ASCII letters only. `toLowerCase` is Unicode-wide.
- JsText.IsWhiteSpace: white space for `trim()` and `\s` is a fixed list of code points: the ECMAScript WhiteSpace and LineTerminator characters, with the Space_Separator characters of current Unicode. A later Unicode version that adds a Space_Separator character would not be covered.
- GenerateDraft.InheritedText: the text of an inherited member follows the Deno (V8) runtime, where a built-in function prints as `function name() { [native code] }`. The list of inherited names is that of `Object.prototype` in that runtime. A tone that is not a string is not modelled.
- Browser side effects are not modelled:
  - storage writes (`handleContinue` returns the values it would store);
  - Blob/object-URL downloads, toasts, navigation;
  - `handleStartOver` in src/pages/ReviewExport.tsx, which only clears storage and navigates.
- DraftGeneration.DraftGenerationPage.HandleGenerateDraft:
  - The `setTimeout` is split into the handler, which returns the pending job, and `TimerFired`, which runs it. The 3000 ms delay and the interleaving of several pending timers are not modelled.
  - The button's `disabled` attribute is not modelled.
- DraftGeneration.DraftGenerationPage.constructor: the fixed draft text is the page's `template` field, equal to `PageTemplate`. The timer callback renders that field, so proofs about the draft do not unfold the whole literal.
- The `new Date().toISOString()` timestamp of the provenance record is the `generatedAt` parameter.
- KeyPointReview.KeyPointReviewPage.HandleEdit, HandleMoveUp, HandleMoveDown: these require an index inside the list. The page only passes the index of a displayed point. JavaScript's behaviour for other indices (holes, `undefined` entries) is not modelled.
- The UI components and pages outside these files are not part of this model, since they only render, route or store form input:
  - src/pages/Index.tsx, src/pages/ProjectSetup.tsx, src/App.tsx;
  - src/components/WorkflowLayout.tsx, src/components/KeyPointItem.tsx.
- The `try`/`catch` around each handler (an unexpected exception becomes a 500 with its message) is modelled only for the outcomes of the service calls.
