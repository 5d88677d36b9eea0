# Cost tracker and asset configuration of the EBITDAI task-pane add-in

This project models two pieces of the Office task-pane add-in in Dafny.

**The API cost tracker** (`src/taskpane/CostTracker.js`) is the first piece. It holds:

- a static rate table: upper-cased provider, then model id, then input and output
  price per million tokens;
- `calculateCost`, which prices one call and returns an all-zero breakdown with an
  error message for an unknown provider or model;
- `trackAPICallCost`, which adds a successful, priced call to the session's running
  totals;
- `getSessionSummary` and `resetSessionTracking`, which read and clear those totals;
- `estimateTokens`, a heuristic: the larger of a word-based and a character-based
  token count.

The session totals are module globals in the source. Here they are the fields of a
`Session` class, and the tracking and reset operations are methods that update those
fields.

**The asset configuration** (`src/taskpane/config.js`) is the second piece. It builds
URLs for static assets and prompts. The development build uses the local dev server.
The production build uses page-relative paths, a list of fallback paths, and a fixed
GitHub raw-file URL for Excel workbooks.

The JavaScript string built-ins that this code relies on are modelled in their own
module, `JsStrings`: `toUpperCase`, `trim`, `split(/\s+/)`, `startsWith`,
`endsWith`, `indexOf`, `replace` with a string pattern, and `split('/').pop()`.

Files:

- `wrappers.dfy`: `Option`.
- `js_strings.dfy`: the string built-ins, plus the lemmas that relate
  `trim().split(/\s+/).length` to an independent word count.
- `cost_tracker.dfy`: the rate table, pricing, the session accumulator, replay lemmas
  over sequences of tracked calls, and the token estimator.
- `config.dfy`: the URL builders and their properties.

Three behaviours of the code that a reader might not expect:

- The word count for a text made only of whitespace is 1, because splitting the
  empty string still yields one piece. `EstimateTokens` keeps this.
- `calculateCost`'s error is the message string `Unknown model: <provider>:<model>`,
  built from the provider as the caller wrote it.
- `trackAPICallCost` returns `undefined` for an unknown model. That is `None` here.

## Model

| member | source | states |
|---|---|---|
| `JsStrings.UpperChar` | src/taskpane/CostTracker.js:57 | the result is never a lower-case ASCII letter; a lower-case letter moves down 32 code points; every other character stays the same |
| `JsStrings.ToUpperCase` | src/taskpane/CostTracker.js:57 | the result has the same length as the input and upper-cases it character by character |
| `JsStrings.ToUpperCaseIdentifiesCase` | src/taskpane/CostTracker.js:57-58 | two strings have the same upper-case form if and only if they are equal ignoring the case of ASCII letters |
| `JsStrings.ToUpperCaseHasNoLowerAscii` | src/taskpane/CostTracker.js:57 | an upper-cased string holds no lower-case ASCII letter |
| `JsStrings.TrimStart` | src/taskpane/CostTracker.js:146 | the result is a suffix of the input; everything dropped is whitespace; the result is empty or starts with a non-space |
| `JsStrings.TrimEnd` | src/taskpane/CostTracker.js:146 | the result is a prefix of the input; everything dropped is whitespace; the result is empty or ends with a non-space |
| `JsStrings.Trim` | src/taskpane/CostTracker.js:146 | `trim()`: the result is empty, or it both starts and ends with a non-space |
| `JsStrings.TrimDecomposes` | src/taskpane/CostTracker.js:146 | the input is whitespace, then the trimmed text, then whitespace; `trim` removes nothing else |
| `JsStrings.FirstSpace` | src/taskpane/CostTracker.js:146 | the index of the first whitespace character (or the length); nothing before it is whitespace |
| `JsStrings.SplitOnWhitespace` | src/taskpane/CostTracker.js:146 | `split(/\s+/)` always yields at least one piece, and no piece contains whitespace |
| `JsStrings.SplitCountsWords` | src/taskpane/CostTracker.js:146 | on a non-empty string with no whitespace at either end, the split yields exactly one piece per maximal non-space run, counted by an independent left-to-right scan |
| `JsStrings.TrimKeepsWords` | src/taskpane/CostTracker.js:146 | trimming does not change the number of words |
| `JsStrings.TrimSplitLength` | src/taskpane/CostTracker.js:146 | `text.trim().split(/\s+/).length` is the number of words, or 1 when the text has none |
| `JsStrings.StartsWithMeansPrefix` | src/taskpane/config.js:15 | `s.startsWith(p)` holds exactly when `s` is `p` followed by the rest of `s`; `p + t` always starts with `p` |
| `JsStrings.EndsWithMeansSuffix` | src/taskpane/config.js:24 | `s.endsWith(p)` holds exactly when `s` is the rest of `s` followed by `p`; `t + p` always ends with `p` |
| `JsStrings.IndexOf` | src/taskpane/config.js:58 | the result is -1 or an index where the pattern occurs, and the pattern occurs at no earlier index |
| `JsStrings.RemoveFirst` | src/taskpane/config.js:58 | `replace(pat, '')`: with no occurrence the string is unchanged; otherwise the string is the result with the pattern put back at its first occurrence |
| `JsStrings.LastSegment` | src/taskpane/config.js:23 | `split('/').pop()`: a suffix of the input with no '/', preceded by a '/' unless it is the whole input |
| `JsStrings.LastSegmentAfterSlash` | src/taskpane/config.js:23 | anything before the last '/' does not affect the last segment |
| `CostTracker.LookupRateReadsTable` | src/taskpane/CostTracker.js:57-60 | a rate is found exactly when the upper-cased provider is a key of the table and its entry lists the model id as given, and the rate found is that entry's |
| `CostTracker.RatesNonNegative` | src/taskpane/CostTracker.js:12-44 | every input and output price in the rate table is non-negative |
| `CostTracker.CalculateCost` | src/taskpane/CostTracker.js:56-81 | the total is the input cost plus the output cost. There is an error exactly when the upper-cased provider or the model is not in the table, and then all costs are 0 and the message names the provider and model. Otherwise each cost is tokens / 1e6 × the listed price |
| `CostTracker.ProviderCaseInsensitive` | src/taskpane/CostTracker.js:57-60 | providers that are equal ignoring case give the same costs and the same error presence for every model and token count |
| `CostTracker.ModelCaseSensitive` | src/taskpane/CostTracker.js:58-60 | the model id is matched exactly: `gpt-4o` is priced under `openai`, `GPT-4o` is not |
| `CostTracker.MillionTokensCostListedPrice` | src/taskpane/CostTracker.js:71-74 | for a priced model, a million input tokens cost exactly the listed input price, and a million output tokens the listed output price |
| `CostTracker.CostIsAdditive` | src/taskpane/CostTracker.js:71-74 | pricing two token counts together costs the sum of pricing them separately |
| `CostTracker.CostNonNegative` | src/taskpane/CostTracker.js:71-74 | non-negative token counts give non-negative input, output and total costs |
| `CostTracker.CalculateCostExamples` | src/taskpane/CostTracker.js:56-81 | `('openai','gpt-4o',1000000,500000)` gives 2.50 / 5.00 / 7.50, and `('claude','claude-3-haiku',2000000,1000000)` gives 0.50 / 1.25 / 1.75, with no error |
| `CostTracker.UpperCasedKeyNotInherited` | src/taskpane/CostTracker.js:57-58 | an upper-cased provider key is never the name of an inherited Object.prototype member, so the provider lookup only sees the table's own keys |
| `CostTracker.CalculateCostAsWritten` | src/taskpane/CostTracker.js:58-74 | for every model id that is not an inherited Object.prototype member name, the as-written computation agrees with `CalculateCost` |
| `CostTracker.InheritedModelEscapesErrorPath` | src/taskpane/CostTracker.js:60-74 | as written, the model id `constructor` yields NaN costs with no error; the corrected lookup reports `Unknown model: openai:constructor` |
| `CostTracker.Session.constructor` | src/taskpane/CostTracker.js:50-51 | a new session starts with zero cost and zero calls |
| `CostTracker.Session.TrackApiCallCost` | src/taskpane/CostTracker.js:97-108 | returns the breakdown, or None for an unknown model. An unknown model or a failed call leaves both totals unchanged. A successful, priced call adds exactly 1 call and exactly the breakdown's total cost. The new totals are `Track` of the old ones. A non-negative total stays non-negative when both token counts are non-negative |
| `CostTracker.Session.GetSessionSummary` | src/taskpane/CostTracker.js:159-164 | returns the current call count and cost; it has no modifies clause, so repeated calls agree |
| `CostTracker.Session.ResetSessionTracking` | src/taskpane/CostTracker.js:169-173 | both totals are zero afterwards, whatever they were before |
| `CostTracker.ReplayAccumulates` | src/taskpane/CostTracker.js:104-108 | tracking a sequence of calls adds the number of billed calls to the call count, and the sum of their costs to the running cost |
| `CostTracker.ReplayAppend` | src/taskpane/CostTracker.js:104-108 | tracking two batches one after the other is the same as tracking their concatenation |
| `CostTracker.FailedCallsLeaveTotals` | src/taskpane/CostTracker.js:105-108 | a batch of failed calls never changes the totals |
| `CostTracker.ReplayNeverDecreases` | src/taskpane/CostTracker.js:105-107 | with non-negative token counts, neither total ever decreases between resets |
| `CostTracker.WordBasedTokens` | src/taskpane/CostTracker.js:150 | `Math.ceil(words / 0.75)`: the least integer r with 3r ≥ 4·words |
| `CostTracker.CharBasedTokens` | src/taskpane/CostTracker.js:151 | `Math.ceil(chars / 4)`: the least integer r with 4r ≥ chars |
| `CostTracker.EstimateTokens` | src/taskpane/CostTracker.js:141-154 | 0 for a non-string or empty text. Otherwise the least integer that is at least both words/0.75 and length/4, where words is the number of words (1 when there are none). For a non-empty text the result is at least 2 |
| `CostTracker.EstimateTokensExample` | src/taskpane/CostTracker.js:141-154 | `estimateTokens("a b c d")` is 6 |
| `Config.BaseUrl` | src/taskpane/config.js:8-10 | the base URL is non-empty exactly in development, and it never ends in '/' |
| `Config.CleanPath` | src/taskpane/config.js:15 | one leading '/' is removed if there is one; otherwise the path is unchanged |
| `Config.GetAssetUrl` | src/taskpane/config.js:13-37 | in development the URL starts with the dev server and '/'. In production it starts with the GitHub raw-file prefix for an `.xlsx` file name, and with `./` for anything else |
| `Config.GetAssetUrlsWithFallback` | src/taskpane/config.js:40-62 | four candidates for a production asset that is not an Excel file, one otherwise (their contents: `FirstFallbackIsAssetUrl`, `ProductionFallbackCandidates`) |
| `Config.GetPromptUrl` | src/taskpane/config.js:65-69 | the URL ends in `prompts/` followed by the file name; it starts with the dev server and '/' in development and with `./` in production |
| `Config.DevAssetUrl` | src/taskpane/config.js:18-19 | in development the asset URL is `baseUrl + "/" + cleanPath`, which is `https://localhost:3003/` followed by the cleaned path |
| `Config.LeadingSlashIgnored` | src/taskpane/config.js:15 | for a path not starting with '/', adding one leading '/' changes neither the asset URL nor the fallback list |
| `Config.OnlyOneSlashRemoved` | src/taskpane/config.js:15 | exactly one leading '/' is stripped: `"/" + p` cleans to `p` even when `p` starts with '/'. The dev URL and the non-Excel production URL keep any further slash |
| `Config.ExcelUrlIgnoresDirectories` | src/taskpane/config.js:23-27 | in production, `dir/name.xlsx` and `name.xlsx` both give the fixed GitHub prefix followed by the encoded file name; directories are dropped |
| `Config.NonExcelAssetIsRelative` | src/taskpane/config.js:29-31 | in production, a path whose file name does not end in `.xlsx` gives `"./" + cleanPath` |
| `Config.FirstFallbackIsAssetUrl` | src/taskpane/config.js:43-60 | in every case, the first fallback candidate equals `getAssetUrl` of the same path |
| `Config.AssetsCandidateNotDoubled` | src/taskpane/config.js:58 | for a production non-Excel path under `assets/`, the assets-folder candidate is the path itself, not `assets/assets/…` |
| `Config.ProductionFallbackCandidates` | src/taskpane/config.js:54-59 | for a production asset that is not an Excel file, the candidates are `./` + cleanPath, `/` + cleanPath (the original path when it starts with '/'), `_next/static/` + cleanPath, and `assets/` + cleanPath with its first `assets/` removed (plain `assets/` + cleanPath when it has none) |
| `Config.PromptUrlIsLocal` | src/taskpane/config.js:65-69 | the prompt URL is `https://localhost:3003/prompts/<file>` in development and `./prompts/<file>` in production, for every file name, `.xlsx` included: prompts never go to the GitHub route |
| `Config.PromptUrlIsAssetUrl` | src/taskpane/config.js:65-69 | the prompt URL equals the asset URL of `prompts/<file>`, in development always and in production unless the file name ends in `.xlsx` |

## Findings

| source | as written | input that shows it | evidently intended | confidence | as-written member | corrected member |
|---|---|---|---|---|---|---|
| src/taskpane/CostTracker.js:58-74 | `!pricing[model]` is a JavaScript property read, so it also finds members inherited from Object.prototype. Such a member is a function or an object (`__proto__`), which is truthy, so the error path is skipped. `modelPricing.input` is then undefined, and every cost becomes NaN with no error. `trackAPICallCost` would then add NaN to the session total, which stays NaN until `resetSessionTracking` | `calculateCost('openai', 'constructor', 10, 10)`, stated in `CostTracker.InheritedModelEscapesErrorPath` | an unknown-model error with an all-zero breakdown, as for any other model id missing from the table | medium; not executed | `CostTracker.CalculateCostAsWritten` | `CostTracker.CalculateCost` |

## Left out

- Console output is not modelled. This covers the warning for an unknown model, the cost report of `trackAPICallCost` (`src/taskpane/CostTracker.js:110-131`, including `toLocaleString` and `toFixed`), and the reset message. It is rendering, not state.
- `caller` and `duration` are not part of `CallData`: the source only logs them. `success` is a plain field; its default of `true` is the caller's concern here.
- CalculateCost: costs are exact `real` values. IEEE-754 rounding of the division and multiplication, and the float drift of the accumulated session cost, are not modelled.
- WordBasedTokens: the result is the exact ceiling of words/0.75. The source divides in floating point. The two agree for every word count below 2^50, because 4w/3 is then either an integer or at least 1/3 away from one.
- EstimateTokens: `text.length` counts UTF-16 code units in JavaScript. The model counts characters, so the two differ for characters outside the Basic Multilingual Plane. `None` stands for every non-string input (null, undefined, numbers, objects), all of which give 0.
- ToUpperCase: only the ASCII letters a–z are upper-cased. JavaScript's full Unicode case mapping is not modelled. For example, dotless `ı` upper-cases to `I` in JavaScript, so `"openaı"` would match `OPENAI` there but not here.
- The `cached_input` price of `o3` is kept as data (`Rate.cachedInput`). No operation reads it, and neither does the source's `calculateCost`.
- Token counts are integers. The source accepts any JavaScript number, including fractions and NaN. A non-string provider makes `toUpperCase` throw in the source; here the provider is a string.
- The session totals are fields of a `Session` object, not module globals. The model has no concurrency, because the host is single-threaded.
- `isDevelopment` is a parameter rather than a read of `process.env.NODE_ENV` (`src/taskpane/config.js:5`). The `Office.onReady` logging block (`src/taskpane/config.js:76-95`) and the per-URL logging are not modelled.
- `encodeURIComponent` is a parameter `encode: string -> string` that is never interpreted. The model proves only that the Excel URL is the fixed prefix followed by the encoded file name.
- `src/taskpane/js/app.js` is not part of this model. It is view loading, DOM updates, timers, `localStorage` and a clock-based consent check.
