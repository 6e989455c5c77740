# analyseai chart analysis — a Dafny model

analyseai is a small web app. A user drops a trading-chart image on the main
page. The page sends it to the `analyze-chart` edge function, which asks an AI
gateway for a bias (bullish, bearish or ranging), a confidence, key reasons
and a suggested move. The page shows the answer; the History page lists past
analyses; a stored analysis can be exported as a PDF report or a PNG card.

This project models the sequential logic inside that app and proves what it
promises:

- `Relay` (relay.dfy) is the edge function. It covers the preflight, image and
  key guards, the mapping of the gateway's status, and the extraction of a
  JSON candidate from the model's free text with the two regular expressions
  of the code (ECMA-262 section 22.2). Each regex is stated declaratively: the
  set of ways it can match, and the backtracking order that picks one. The
  index searches used in `Extract` are proved to return exactly that match.
  The fallback result is returned when the candidate does not parse.
  `JSON.parse` (RFC 8259) is a function parameter returning `None` where it
  throws.
- `Export` (export.dfy) is the PDF and image exporters. jsPDF is a class that
  records the calls made on it. `ExportAsPdf` runs the cursor and page-break
  loops of the code and is proved to produce the layout function `Report`.
  The layout lemmas are proved about `Report`. The filename builder, the
  reason labels and the image card's icon are pure functions.
- `UploadZone` (upload_zone.dfy) is the image intake: the first-file MIME
  filter and the `isDragging` flag.
- `IndexPage` (index_page.dfy) is the main page's state: the selected image,
  the busy flag, the result and the toasts shown, with the handlers that step
  them and the analyze-button rule.
- `History` (history.dfy) is the case-insensitive classifiers, the two-reason
  preview, the state `fetchAnalyses` leaves and the view chosen from it.
- `ResultsPanel` (results_panel.dfy) is the exact-match classifiers and the
  reasons list.
- `BiasConsistency` (bias_consistency.dfy) relates the three classifiers.
- `Common` and `JsonValue` (common.dfy, json.dfy) hold shared vocabulary:
  `Option`, ASCII lower-casing, `startsWith`, and a JSON value type.

Both `String.prototype.match` calls, the `||` between them and
`match[1] || match[0]` are modelled exactly. A completion `content` that is
not a string makes `.match` throw inside the inner `try`. The relay then
answers with the fallback (`Completion.NonText`).

## Model

| member | source | states |
|---|---|---|
| Relay.Handle | supabase/functions/analyze-chart/index.ts:8-146 | every response has status 200, 400, 402, 429 or 500; every non-200 response carries the JSON headers and an `{error: message}` body; the body is missing exactly for an OPTIONS request |
| Relay.OptionsPreflight | supabase/functions/analyze-chart/index.ts:10-12 | an OPTIONS request gets a body-less 200 with only the CORS headers, whatever the payload, key, gateway or parser |
| Relay.GuardsPrecedeGateway | supabase/functions/analyze-chart/index.ts:17-31 | a falsy image gives 400 "No image provided"; an image with a falsy key gives 500 "AI service not configured"; a request stopped by a guard gets the same answer whatever the gateway and parser do |
| Relay.StatusMapping | supabase/functions/analyze-chart/index.ts:79-101 | a non-ok gateway status maps 429 to 429, 402 to 402 and anything else to 500, with the three messages of the code, which are pairwise distinct |
| Relay.SuccessExactly | supabase/functions/analyze-chart/index.ts:8-146 | the status is 200 if and only if the request is a preflight, or it passed both guards, got an ok reply and the reply body had a message |
| Relay.ParseOutcome | supabase/functions/analyze-chart/index.ts:108-135 | for an ok reply with text, the relay answers 200 with the parsed candidate unchanged, or with the fixed fallback result when parsing fails |
| Relay.UpstreamError | supabase/functions/analyze-chart/index.ts:79-101 | 429 and 402 are passed on and every other status becomes 500, each with its own error message and the JSON headers |
| Relay.Normalize | supabase/functions/analyze-chart/index.ts:108-135 | the answer is a 200 with the JSON headers whether or not the candidate parses, carrying the parsed value unchanged or the fallback |
| Relay.FindFrom | supabase/functions/analyze-chart/index.ts:112 | the result is the first index at or after `from` where the pattern occurs, and None when there is none |
| Relay.FindClose | supabase/functions/analyze-chart/index.ts:112 | the result is the first index at or after `from` where "\n```" or "```" begins, and None when there is none |
| Relay.IndexOfChar | supabase/functions/analyze-chart/index.ts:113 | the result is the first index at or after `from` holding the character, and None when there is none |
| Relay.LastIndexOfChar | supabase/functions/analyze-chart/index.ts:113 | the result is the last index holding the character, and None when there is none |
| Relay.FencedMatch | supabase/functions/analyze-chart/index.ts:112 | a found split is a way the fenced regex matches the text |
| Relay.FencedMatchIsChosen | supabase/functions/analyze-chart/index.ts:112 | the index searches return the match the backtracking engine prefers over every other match, and return none exactly when the fenced regex matches nowhere |
| Relay.FenceChosenUnique | supabase/functions/analyze-chart/index.ts:112 | the engine's choice of fenced match is unique |
| Relay.FencedCaptureBounds | supabase/functions/analyze-chart/index.ts:112 | the capture starts right after the first "```json" plus at most one newline, and ends at the first index from there where "\n```" or "```" follows |
| Relay.BraceMatch | supabase/functions/analyze-chart/index.ts:113 | a found span starts with '{' and ends with a later '}' |
| Relay.BraceMatchIsChosen | supabase/functions/analyze-chart/index.ts:113 | the index searches return the leftmost, longest brace span, and none exactly when the brace regex matches nowhere |
| Relay.BraceSpan | supabase/functions/analyze-chart/index.ts:113 | the brace candidate runs from the first '{' through the last '}'; there is none exactly when no '}' follows any '{' |
| Relay.Extract | supabase/functions/analyze-chart/index.ts:112-114 | the fenced match takes precedence and gives its capture, or the whole match when the capture is empty; with no fenced match the brace span is used; with neither the whole text is parsed |
| Relay.ExtractChoice | supabase/functions/analyze-chart/index.ts:112-113 | any match the engine would choose is the one the index searches found |
| Relay.ExtractIsSlice | supabase/functions/analyze-chart/index.ts:112-114 | the string handed to the parser is always a contiguous piece of the model's answer |
| Export.FileNameParts | src/lib/exportUtils.ts:92 | both file names are "analysis-", then the first min(8, length) characters of the id, then ".pdf" or ".png"; two ids give the same name exactly when their first eight characters agree |
| Export.NatToString | src/lib/exportUtils.ts:51 | the rendering of a number is a non-empty string of decimal digits with no leading zero |
| Export.DecimalRoundTrip | src/lib/exportUtils.ts:51 | reading the rendered number back as decimal gives the number |
| Export.LabelInjective | src/lib/exportUtils.ts:51 | the label `${n}. ${reason}` determines both the number and the reason |
| Export.Wrapped | src/lib/exportUtils.ts:50-51 | there is one list of wrapped lines per reason, in input order, numbered from 1 |
| Export.ExportAsPdf | src/lib/exportUtils.ts:14-93 | the calls the export makes on the document are exactly the layout `Report` of the analysis, the wrapping and the image load |
| Export.DrawHeader | src/lib/exportUtils.ts:17-47 | the header draws its six texts at 20, 35, 50, 60, 70 and 85 and leaves the cursor at 93 |
| Export.DrawLines | src/lib/exportUtils.ts:52-59 | the inner loop appends the layout `Lines` of its lines from the cursor it starts at |
| Export.DrawReasons | src/lib/exportUtils.ts:49-60 | the outer loop lays out every reason's wrapped lines one after another |
| Export.DrawImage | src/lib/exportUtils.ts:70-82 | the `onloadend` callback appends exactly the image block `ImageBlock` from the cursor it starts at |
| Export.LineStep | src/lib/exportUtils.ts:52-58 | one reason line adds a page and draws at 20 exactly when the cursor is past 270, otherwise draws at the cursor; the cursor ends 6 below the line, and earlier calls are kept |
| Export.Lines | src/lib/exportUtils.ts:52-59 | laying out lines keeps every earlier call as a prefix and never lowers the page number |
| Export.ImageBlock | src/lib/exportUtils.ts:71-82 | the block adds a page exactly when the cursor is past 200; it ends with the label 10 above and the 100-high image at the new cursor, and keeps the earlier calls |
| Export.Report | src/lib/exportUtils.ts:14-93 | the report starts with the six header texts and always ends with the save under the PDF name |
| Export.FirstReasonLine | src/lib/exportUtils.ts:17-47 | the first line of the first reason is drawn on page 1 at y = 93 |
| Export.LinesInRange | src/lib/exportUtils.ts:52-59 | from a cursor between 20 and 276, laying out lines appends only page breaks and texts drawn between 20 and 270, and leaves the cursor between 20 and 276 |
| Export.ReasonLinesInRange | src/lib/exportUtils.ts:17-60 | in the report, after the six header texts, every reason line is drawn at a height from 20 to 270 |
| Export.LinesDrawn | src/lib/exportUtils.ts:52-59 | laying out lines draws exactly those lines, in order, none dropped |
| Export.LinesAppend | src/lib/exportUtils.ts:50-60 | laying out two groups of lines is laying out the first, then the second from where it left off |
| Export.ReasonsConsecutive | src/lib/exportUtils.ts:50-60 | the lines of reason i appear consecutively, right after the lines of reasons before it |
| Export.ImagePlacement | src/lib/exportUtils.ts:71-82 | the image block adds a page exactly when the cursor is past 200, draws the label 10 and the 100-high image 20 below the cursor, so the image top is at most 220 |
| Export.AlwaysSaved | src/lib/exportUtils.ts:63-92 | the last call is always the save under the PDF name; a failed or absent image adds nothing else |
| Export.NonArrayReasons | src/lib/exportUtils.ts:49 | a non-array `reasons` gives the same PDF and the same image card as an empty list |
| Export.BiasIconCases | src/lib/exportUtils.ts:104-105 | the icon depends only on the lower-cased bias: 'bullish' gives 📈, 'bearish' gives 📉, anything else gives ➖ |
| Export.BiasIcon | src/lib/exportUtils.ts:104-105 | 'bullish' in any case gives 📈, 'bearish' in any case gives 📉, every other bias gives ➖ |
| Export.ImageExportSpec | src/lib/exportUtils.ts:136-156 | the image export downloads exactly when html2canvas draws and a blob is created, under the PNG name with the same id prefix as the PDF; a failing html2canvas rejects with its own error and a null blob with "Failed to create blob"; the card lists the reasons of an array and none otherwise |
| Export.ImageOutcome | src/lib/exportUtils.ts:136-156 | the promise settles as a download under the PNG name exactly when html2canvas draws and `toBlob` gives a blob; otherwise it rejects with html2canvas's error or with "Failed to create blob" |
| Export.ImageCardOf | src/lib/exportUtils.ts:104-131 | the card shows the emoji of the lower-cased bias, the bias, the confidence, the best move and the reasons of an array `reasons` in order, or none for a non-array |
| UploadZone.SelectionSpec | src/components/UploadZone.tsx:39-44 | a file is selected if and only if it is the first of a non-empty list and its MIME type starts with "image/"; later files are never considered; an empty or missing list selects nothing |
| UploadZone.Selection | src/components/UploadZone.tsx:39-55 | a file is selected only if it is the first of a non-empty list and an image; nothing is selected exactly when the list is missing or empty or its first file is not an image |
| UploadZone.Zone.constructor | src/components/UploadZone.tsx:12 | the zone starts with `isDragging` false |
| UploadZone.Zone.HandleDragIn | src/components/UploadZone.tsx:22-24 | the flag is raised only when `dataTransfer.items` is non-empty, and otherwise is left as it was |
| UploadZone.Zone.HandleDragOut | src/components/UploadZone.tsx:30 | drag-out always lowers the flag |
| UploadZone.Zone.HandleDrop | src/components/UploadZone.tsx:37-44 | a drop always lowers the flag, accepted or not, and selects exactly the `Selection` of its files |
| UploadZone.Zone.HandleFileInput | src/components/UploadZone.tsx:50-55 | a pick selects exactly the `Selection` of its files |
| UploadZone.Zone.View | src/components/UploadZone.tsx:60-109 | the drop area is shown if and only if no image is selected, highlighted while dragging; otherwise the preview shows the file's name |
| IndexPage.FailureMessage | src/pages/Index.tsx:60-63 | the message of a failed reply is the body's non-empty `error` string; a body that is `null` gives the TypeError of reading `.error` off null; a missing or falsy `error` gives "Analysis failed"; it is never empty |
| IndexPage.Page.constructor | src/pages/Index.tsx:16-18 | the page starts with no image, no result, not analyzing and no toasts |
| IndexPage.Page.HandleImageSelect | src/pages/Index.tsx:20-23 | the selected image becomes the file and the result is cleared; nothing else changes |
| IndexPage.Page.HandleClear | src/pages/Index.tsx:25-28 | the image and the result are both cleared; nothing else changes |
| IndexPage.Page.HandleAnalyze | src/pages/Index.tsx:30-79 | without an image, only an error toast is added; with one, the result is cleared, the file is handed to the reader, and the busy flag is already false again on return |
| IndexPage.Page.OnReadLoad | src/pages/Index.tsx:44-68 | an ok reply stores the body as the result unchanged and adds the success toast; a failed reply rejects with `FailureMessage` and changes nothing |
| IndexPage.Page.HandleAnalyzeHoldingBusy | src/pages/Index.tsx:30-37 | the corrected handler: with an image it raises the busy flag, clears the result, and keeps the flag raised on return |
| IndexPage.Page.OnAnalysisSettled | src/pages/Index.tsx:60-78 | the corrected completion: the busy flag is lowered; an ok reply stores the result with the success toast; a failure adds an error toast with `FailureMessage` |
| IndexPage.Page.AnalyzeButton | src/pages/Index.tsx:102-117 | the button is shown if and only if an image is selected and the stored result is missing or falsy (`null`, `false`, `0`, `""`); it is disabled and reads "Analyzing..." exactly while analyzing |
| IndexPage.ButtonOrResults | src/pages/Index.tsx:102-123 | with an image selected, exactly one of the analyze button and the results panel is shown; without one the button never is |
| IndexPage.FalsyReplyShowsButton | src/pages/Index.tsx:65-67 | an ok reply with a falsy body is stored unchecked, and the enabled "Analyze Chart" button comes back beside the success toast |
| IndexPage.AsWrittenButtonEnabledWhilePending | src/pages/Index.tsx:36-79 | as written, right after Analyze the button is enabled and reads "Analyze Chart" while the file is still being read |
| IndexPage.AsWrittenFailureNotShown | src/pages/Index.tsx:44-75 | as written, a failed reply leaves no toast; the error only rejects the callback's promise |
| IndexPage.IntendedButtonDisabledWhilePending | src/pages/Index.tsx:102-117 | for the corrected handlers, the button is disabled and reads "Analyzing..." until the reply settles; afterwards it is hidden after a success with a truthy body and enabled otherwise |
| IndexPage.IntendedFailureShown | src/pages/Index.tsx:73-75 | for the corrected handlers, a failed reply shows exactly one error toast with the relay's message |
| History.CaseInsensitive | src/pages/History.tsx:43-63 | icon and colour of a bias are those of its lower-cased form |
| History.IconAndColorAgree | src/pages/History.tsx:43-63 | 'bullish' in any case gives TrendingUp and text-green-500; 'bearish' gives TrendingDown and text-red-500; anything else gives Minus and text-yellow-500; the icon and the colour always pick the same case |
| History.GetBiasIcon | src/pages/History.tsx:43-52 | 'bullish' in any case gives TrendingUp, 'bearish' in any case TrendingDown, anything else Minus |
| History.GetBiasColor | src/pages/History.tsx:54-63 | 'bullish' in any case gives text-green-500, 'bearish' in any case text-red-500, anything else text-yellow-500 |
| History.Preview | src/pages/History.tsx:113 | at most the first two reasons are previewed, in order |
| History.Cards | src/pages/History.tsx:90-127 | one card per analysis, in list order |
| History.ViewOf | src/pages/History.tsx:80-129 | the loading message exactly while loading; once loaded, the empty-state message exactly when there are no analyses; otherwise the grid of one card per analysis |
| History.Page.constructor | src/pages/History.tsx:19-20 | the page starts with no analyses and loading |
| History.Page.FetchAnalyses | src/pages/History.tsx:27-41 | a rejected or failed query leaves the analyses unchanged; null data becomes the empty list; loading is false afterwards in every case |
| History.FailedFirstLoad | src/pages/History.tsx:27-41 | a failed first load shows the empty-state message |
| ResultsPanel.IconMatchesHeading | src/components/ResultsPanel.tsx:15-35 | the icon's colour equals the heading colour for every bias; only the exact strings 'bullish' and 'bearish' leave the default |
| ResultsPanel.GetBiasIcon | src/components/ResultsPanel.tsx:15-24 | only exactly 'bullish' gives TrendingUp and only exactly 'bearish' TrendingDown; every other value gives Minus |
| ResultsPanel.GetBiasColor | src/components/ResultsPanel.tsx:26-35 | only exactly 'bullish' gives text-green-400 and only exactly 'bearish' text-red-400; every other value gives text-yellow-400 |
| ResultsPanel.ReasonItems | src/components/ResultsPanel.tsx:71-79 | one list item per reason, keyed by its index, in input order, none dropped |
| ResultsPanel.KeyPointsOf | src/components/ResultsPanel.tsx:71-79 | the stored result renders one item per element of an array `reasons`, in order; a missing or non-array `reasons` is a render error |
| ResultsPanel.MissingReasonsFails | src/components/ResultsPanel.tsx:71 | a parsed answer with only a `bias` field fails to render its key points |
| BiasConsistency.PanelAgreesWithHistory | src/components/ResultsPanel.tsx:16 | the results panel and History agree on a bias if and only if it is not 'bullish' or 'bearish' spelt with a capital letter |
| BiasConsistency.PanelDefault | src/components/ResultsPanel.tsx:16-22 | away from the two exact strings, the panel shows the dash, and History shows it exactly when the lower-cased bias is neither 'bullish' nor 'bearish' |
| BiasConsistency.AgreeOnLowercase | src/pages/History.tsx:44 | on a bias with no capital letter the two classifiers agree |
| BiasConsistency.CapitalisedBullish | src/components/ResultsPanel.tsx:16 | 'Bullish' is TrendingUp on the History page and Minus in the results panel |
| BiasConsistency.ExportAgreesWithHistory | src/lib/exportUtils.ts:104-105 | the image export's emoji and the History icon pick the same case for every bias |

## Left out

- The network and the runtime: `serve`, the `fetch` to the AI gateway and the request it sends, the CORS header contents and `Deno.env`. The payload, the key's presence and the gateway's outcome are inputs.
- `response.text()` on a failed gateway reply is assumed to succeed. Only its logging depends on it.
- Relay.Handle: `image` and the key are optional strings. A non-string truthy `image` is not modelled.
- IndexPage.FailureMessage: a non-string truthy `error` field falls to "Analysis failed" here. The code would make it the message of `new Error(value)`. The message for a `null` body is V8's wording of the TypeError.
- ResultsPanel.KeyPointsOf: an array element that React cannot render (an object) is not a render error here. The panel's other fields (`bias`, `confidence`, `best_move`) are taken as they come.
- The JSON grammar and number formats: `JSON.parse` is the parameter `parse`, and JSON numbers are integers.
- Formatting: `toFixed(2)`, `toLocaleDateString`, `toLocaleTimeString` and `${confidence}` are rendered strings given as inputs (`dateText`, `confidenceText`). The confidence-bar width is omitted.
- jsPDF: font sizes and x coordinates are not recorded, and `splitTextToSize`, which depends on font metrics, is the parameter `wrap`.
- The PDF image load is an input: `Loaded(dataUrl)` or `LoadFailed` for a fetch or read the `catch` swallows. An `onloadend` that fires after a read error with a null result is not modelled.
- html2canvas, `toBlob`, object URLs, the link click and the off-screen element: only the card's content and how the promise settles are modelled. html2canvas is an input that draws or fails with an error message. If it fails, the element is not removed, and no cleanup is claimed.
- Export.ImageExportSpec: a value html2canvas rejects with is kept only as its message string.
- `handleDrag` (drag-over) only cancels the event's default, so it has no model.
- `toLowerCase` is modelled on ASCII letters only. This is exact for the comparisons with 'bullish' and 'bearish'. The only non-ASCII characters whose lower case holds an ASCII letter are KELVIN SIGN U+212A, which becomes 'k' (in neither word), and U+0130, which becomes 'i' plus a combining dot that no such comparison accepts.
- The Supabase query's newest-first order is applied by the database, so the model takes the rows as given.
- React rendering and toasts: a toast is a list entry, and the page views are functions of state.
- `reader.onerror` throws outside any `try`, so a read error shows no toast and leaves the page state as `HandleAnalyze` left it. No separate step models it.
- The stale reply after a clear: `onload` may store a result after `handleClear`. The callback is modelled as a separate step, not as an ordering of events.

## Findings

| source | as written | input that shows it | evidently intended | confidence | as-written member | corrected member |
|---|---|---|---|---|---|---|
| src/pages/Index.tsx:39-78 | the `try` only installs the `onload` callback and awaits nothing, so the `finally` lowers `isAnalyzing` before the handler returns | select an image and press Analyze: while the file is read and the relay is asked, the button is enabled and reads "Analyze Chart" | the busy flag stays raised, so the button is disabled and reads "Analyzing...", until the reply settles | not executed | IndexPage.AsWrittenButtonEnabledWhilePending | IndexPage.IntendedButtonDisabledWhilePending |
| src/pages/Index.tsx:60-75 | the `throw` for a failed reply runs inside the `onload` callback, outside the `try`, so the `catch` never shows it | a relay reply with `ok` false and body `{"error": "Rate limit exceeded. Please try again in a moment."}`: no toast at all | the failure is shown as an error toast with the relay's message | not executed | IndexPage.AsWrittenFailureNotShown | IndexPage.IntendedFailureShown |
