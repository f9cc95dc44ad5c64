# Financial news dashboard — verified model of its data adapter and refresh logic

The dashboard shows a feed of AI-generated financial news and, on request, an
AI "trading analysis" of one item. Apart from rendering, its logic is:

- a **service layer** (`services/geminiService.ts`). It cleans the model's
  free-form answer (`cleanJson`) and cuts out the JSON span: `[`…`]` for the
  feed, `{`…`}` for an analysis. It turns the answer's grounding citations into
  at most three sources, stamps every parsed item with a fresh id and the
  batch's sources, and falls back to fixed mock feeds when there is no key or
  anything fails;
- the **dashboard state** (`App.tsx`). It has a 60-second auto-refresh
  countdown that runs only while auto-refresh is on and no load is in flight. A
  load replaces the feed. An analysis opens a modal and pauses auto-refresh for
  good, until the user toggles it back on;
- the **start-up key check** `verifyApiKey` (`src/utils/verifyEnv.ts`);
- the **records** of `types.ts`.

The model is written in the source's own form:

- `Wrappers`: `Option` and `Result`.
- `Types` (`types.dfy`): the records and their literal unions as datatypes.
- `Text` (`text.dfy`): the JavaScript string primitives the service relies on.
  `trim` removes the exact ECMAScript whitespace and line-terminator set.
  `indexOf` and `lastIndexOf` return -1 when the character is absent.
  `substring` clamps its arguments and swaps them when start > end.
- `GeminiService` (`gemini_service.dfy`): the pure steps as functions with
  lemmas. `fetchGlobalNews` and `analyzeNewsItem` are methods that reassign
  `jsonStr` step by step, as the source does. Their failures become a
  `Result`.
- `VerifyEnv` (`verify_env.dfy`): the key check as a predicate.
- `App` (`app.dfy`): the state as a pure `View`/`Event`/`Step` specification.
  The `Dashboard` class holds the same state in fields. Each method of the
  class is proved to follow `Step`, and the trace lemmas are stated over `Run`.

Outside inputs are parameters. The generation call is a `CallOutcome`: it
answered with text and optional grounding chunks, or it threw. `JSON.parse` is
a partial function `parse: string -> Option<…>`, where `None` means it threw.
`uuidv4` is `newId: nat -> string`, the id of the i-th item. Whether the
API key is present is an `Option<string>`.

The `NewsItem` type declares five categories, but the fallback item `mock-2`
and the feed prompt both use `'RealEstate'`. `Category` therefore has six
constructors. `IsDeclaredCategory` is the declared five-literal union, and
`FallbackOutsideDeclaredUnion` proves that a fallback item falls outside it.

Some features are sometimes attributed to this service but are not in its
code, and this model follows the code:

- a per-category fan-out with merging and sorting by time;
- de-duplicating citations;
- a canned analysis for mock items;
- a parse error when no bracket pair is found. The code instead hands the
  cleaned text to the parser unchanged.

## Model

| member | source | states |
|---|---|---|
| `Text.Trim` | services/geminiService.ts:25-28 | `trim` leaves no whitespace at either end and never lengthens its input |
| `Text.TrimSlice` | services/geminiService.ts:25-28 | `trim` keeps the slice of its input that starts at the first non-whitespace character, with only whitespace before and after it |
| `Text.TrimOfPadded` | services/geminiService.ts:28 | whitespace around a trimmed text is exactly what `trim` removes |
| `Text.TrimTrimmed` | services/geminiService.ts:28 | `trim` leaves a trimmed string unchanged, so trimming twice equals trimming once |
| `Text.IndexOf` | services/geminiService.ts:98 | result is -1 exactly when the character is absent, otherwise the position of its first occurrence |
| `Text.LastIndexOf` | services/geminiService.ts:99 | result is -1 exactly when the character is absent, otherwise the position of its last occurrence |
| `Text.Substring` | services/geminiService.ts:102 | in-range ordered arguments give the slice between them; reversed arguments give the same slice |
| `Text.SubstringSymmetric` | services/geminiService.ts:224 | swapping the two arguments of `substring` never changes the result |
| `GeminiService.CleanJson` | services/geminiService.ts:24-29 | the cleaned text has no leading or trailing whitespace and is no longer than the input |
| `GeminiService.CleanJsonInside` | services/geminiService.ts:24-29 | cleaning keeps a slice of the input. Only whitespace, backticks and the letters of the `json` tag are dropped in front, and only whitespace and backticks behind |
| `GeminiService.CleanJsonWithoutFences` | services/geminiService.ts:24-29 | text that has no fence at either end after trimming is only trimmed |
| `GeminiService.FenceRoundTrip` | services/geminiService.ts:27-28 | a trimmed body fenced as "```json\n" + body + "\n```", with the tag in any letter case, cleans back to exactly the body |
| `GeminiService.ExtractSpan` | services/geminiService.ts:97-105 | with either bracket missing the text is returned unchanged. When the first opening bracket precedes the last closing one, the result is exactly the slice between them, brackets included |
| `GeminiService.SliceSpan` | services/geminiService.ts:98-103 | the step-by-step bracket search and `substring` call computes `ExtractSpan` |
| `GeminiService.ExtractSpanSwapped` | services/geminiService.ts:102 | when the last `]` comes before the first `[`, the swapped `substring` gives the text strictly between them, which holds neither bracket |
| `GeminiService.ExtractSpanFramed` | services/geminiService.ts:219-225 | prose with no opening bracket before a bracketed span, and no closing bracket after it, is cut away exactly |
| `GeminiService.ExtractSpanIdempotent` | services/geminiService.ts:97-103 | extracting the span of an extracted span returns it unchanged, in every case including the swapped one |
| `GeminiService.SpanOfInside` | services/geminiService.ts:219-225 | whatever cleaning keeps of prose + payload + prose still yields exactly the payload |
| `GeminiService.PayloadRecovered` | services/geminiService.ts:97-105 | a bracketed payload with prose and fences around it reaches the parser exactly, for both the array and the object path |
| `GeminiService.ToSource` | services/geminiService.ts:118-121 | a present non-empty title and uri are kept; a missing or empty title becomes "Source", a missing or empty uri becomes "#"; the url is never empty |
| `GeminiService.CitedSources` | services/geminiService.ts:117-122 | every surviving source has a url that is neither empty nor "#", and there are no more survivors than chunks |
| `GeminiService.CitedSourcesAppend` | services/geminiService.ts:122 | filtering distributes over concatenation, so the survivors keep their original order |
| `GeminiService.CitedSourcesMembers` | services/geminiService.ts:117-122 | a source survives exactly when some chunk maps to it and its url is neither empty nor "#" |
| `GeminiService.CitationKept` | services/geminiService.ts:117-122 | a chunk whose uri is a real link reaches the cited list with that link and its title (or "Source") |
| `GeminiService.BuildSources` | services/geminiService.ts:116-123 | the sources are the first min(3, #survivors) survivors, in order |
| `GeminiService.AttachedSources` | services/geminiService.ts:128 | the batch's sources when there are any, otherwise exactly the single MarketWire placeholder |
| `GeminiService.Enrich` | services/geminiService.ts:125-129 | one output item per parsed item. The i-th has id `newId(i)` and every other parsed field unchanged. All items carry the batch's sources, or the single MarketWire placeholder when the batch has none |
| `GeminiService.EnrichedIdsUnique` | services/geminiService.ts:127 | distinct fresh ids give a batch whose ids are pairwise distinct |
| `GeminiService.FallbackIds` | services/geminiService.ts:134-161 | the failure feed is exactly `mock-1`, `mock-2`, `mock-3` in that order, and the missing-key feed is the single `error-mock` |
| `GeminiService.FallbackOutsideDeclaredUnion` | services/geminiService.ts:149 | a fallback item carries a category that the `NewsItem` record does not declare |
| `GeminiService.ParsedArray` | services/geminiService.ts:93-113 | a parsed array exists only when the call answered with non-empty text |
| `GeminiService.FetchNewsAttempt` | services/geminiService.ts:47-130 | success happens exactly when the call answered, its text is non-empty and the extracted span parses to an array. The result is then the enriched array. Otherwise the failure names the step: call failed, no text, invalid JSON, or not an array |
| `GeminiService.FetchGlobalNews` | services/geminiService.ts:31-163 | never fails. A missing key gives exactly the error item, any failure exactly the three fallback items, and success the enriched parsed items |
| `GeminiService.AnalyzeNewsItem` | services/geminiService.ts:165-233 | fails without a key. Call, empty-text and parse failures are passed on. Otherwise it returns the parsed object unchanged; a result whose scores lie outside the documented ranges is returned as a success, since no range check is made |
| `VerifyEnv.VerifyApiKey` | src/utils/verifyEnv.ts:1-31 | a missing or empty key, the placeholder key and keys shorter than 10 characters are rejected; every other key is accepted |
| `VerifyEnv.AuxiliaryKeysIgnored` | src/utils/verifyEnv.ts:17-27 | the three auxiliary service keys never change the verdict |
| `Types.ParseCategory` | types.ts:11 | a category read from text prints back as that same text |
| `Types.CategoryNameRoundTrip` | types.ts:11 | every category's literal reads back as that category |
| `Types.LiteralNamesDistinct` | types.ts:11-26 | the literals of the category, importance, signal, duration and ticker-action unions are pairwise distinct, so each union has exactly its constructors' values |
| `App.NextTimeLeft` | App.tsx:50-56 | from 1..60 the countdown stays in 1..60, and within that range it restarts at 60 exactly when it was at 1; above 1 it drops by exactly one |
| `App.Step` | App.tsx:48-98 | every event keeps the countdown in 1..60. Only the toggle turns auto-refresh on, and only a settled load changes the feed |
| `App.RunCons` | App.tsx:48-98 | running one event and then the rest equals running the whole sequence |
| `App.RunKeepsCountdownInRange` | App.tsx:50-56 | from a countdown in 1..60, every sequence of events keeps it in 1..60 |
| `App.AutoRefreshOnlyByToggle` | App.tsx:124 | along any event sequence without the toggle, auto-refresh is on at the end only if it was on at the start |
| `App.AnalysisPausesUntilToggle` | App.tsx:86-88 | after an analysis starts, auto-refresh stays off through any later events other than the toggle, whether the analysis succeeds or fails |
| `App.LoadSuspendsCountdown` | App.tsx:48-60 | while a load is in flight, any number of seconds leaves the whole state unchanged |
| `App.ReloadCount` | App.tsx:50-56 | over n running seconds from countdown t in 1..60, the first reload fires at second t and then one every 60 |
| `App.OneReloadPerInterval` | App.tsx:50-56 | from a full countdown, 60·k running seconds fire exactly k reloads |
| `App.Dashboard.constructor` | App.tsx:15-27 | the initial state has an empty feed, nothing loading, auto-refresh off, countdown 60, the modal closed, no selection, no result and no analysis running |
| `App.Dashboard.Tick` | App.tsx:48-56 | with the interval installed, the countdown drops by one, or at 1 or below it starts a load and restarts at 60. Without the interval nothing changes. The countdown stays in 1..60 |
| `App.Dashboard.BeginLoad` | App.tsx:67-68 | entering `loadNews` marks a load in flight |
| `App.Dashboard.FinishLoad` | App.tsx:69-77 | a fetched list replaces the feed and restarts the countdown. A thrown error leaves both unchanged. Either way the load is no longer in flight |
| `App.Dashboard.LoadNews` | App.tsx:67-78 | the whole `loadNews` ends with no load in flight and the feed and countdown as above; auto-refresh is untouched |
| `App.Dashboard.BeginAnalyze` | App.tsx:80-88 | the item is selected, the result cleared, the modal opened, analysing set and auto-refresh turned off |
| `App.Dashboard.FinishAnalyze` | App.tsx:90-97 | analysing ends. The result is recorded only on success, and auto-refresh is untouched |
| `App.Dashboard.HandleAnalyze` | App.tsx:80-98 | the whole `handleAnalyze` leaves the result on success and none on failure. The modal stays open on the item, auto-refresh is off, and the feed, countdown and loading flag are unchanged |
| `App.Dashboard.ToggleAutoRefresh` | App.tsx:124 | the toggle flips auto-refresh and nothing else |
| `App.Dashboard.CloseModal` | App.tsx:172 | closing changes only `modalOpen`, to false |

## Left out

- The generation client: `GoogleGenAI` set-up, the optional proxy base URL, the model name and search-tool options, and the `import.meta.env` reads. The call's outcome, the key and the parsed values are parameters instead.
- The prompt texts. They are natural-language templates with interpolated values, and nothing else depends on them. `AnalyzeNewsItem` takes the item only because the prompt uses it.
- `JSON.parse` and `uuidv4` are opaque parameters. The parsed feed is either an array of `NewsItem` records or "something else". Extra or missing fields that `...item` would copy are not represented.
- `AnalyzeNewsItem`: the parser returns an `AnalysisResult`, so a non-object value that the unchecked cast would pass through is not represented.
- A `null` grounding chunk, which would throw inside the `try` and yield the fallback feed, is not represented. A chunk without `web` is.
- String lengths are counted in characters, not UTF-16 code units. Case-insensitive matching of the `json` tag folds only ASCII letters, as JavaScript's non-Unicode `/i` does for these four letters.
- Console logging, including the auxiliary-key warnings of `verifyApiKey` and the error logs of the service and `App.tsx`.
- Real time and scheduling. `setInterval`, React effect re-installation and async interleavings are abstracted: each handler is split at its `await` into a begin and a finish method, and a tick is one discrete event. Overlapping analyses and stale closures are not modelled.
- `App.Dashboard.FinishLoad` keeps the thrown-error branch of `loadNews`, although `fetchGlobalNews` never throws.
- Dark mode, the hard-coded ticker bar, and all components (`AnalysisModal`, `NewsFeed`, `Sidebar`, `Header`). These are presentation.
- The Node scripts `src/config.js`, `src/app.js` and `index.js`, and the bootstrapping and build configuration. These are environment plumbing.
- `LoadingState` and `MarketIndex` in `types.ts`. No core code uses them.
