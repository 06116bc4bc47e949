# F1 Telemetry Viewer: a Dafny model of its core

The F1 Telemetry Viewer compares two Formula 1 drivers on one session. The
browser application asks the backend for each driver's telemetry. The backend
runs a telemetry script for each request and relays the JSON the script
prints. The viewer then merges the two payloads with the track's circuit
image and fun facts, draws speed, throttle and brake charts in a carousel,
and shows a sector-time table. On request it posts the merged record to the
backend's analysis endpoint, which builds a text prompt from the first ten
samples, asks a chat-completion service for an analysis and returns its
trimmed text. The viewer renders that text as headings, bullets and
paragraphs.

The model has ten modules:

- `Optional`: the `Option` type. `None` stands for an absent (or `null`) JSON value.
- `Text`: the JavaScript string operations the core relies on:
  - `trim`, with ECMAScript's white-space and line-terminator characters;
  - `startsWith`;
  - `split` on one character, and `join`.
- `Telemetry`: the data that flows between the parts:
  - `Query`: the four query parameters;
  - `Payload`: the script's JSON object, where every field may be absent;
  - `Merged`: the record the viewer keeps.
- `Http`: the status and body of a server reply, shared by both endpoints.
- `Formatter`: how the viewer turns the analysis text into blocks.
- `Dashboard`: what the viewer derives from a merged record:
  - the image and fun-fact lookups and the merge;
  - `renderGraph`;
  - the sector table;
  - the carousel arithmetic.
- `Viewer`: the component state as a class `App`. Its handlers are methods:
  - `handleFetchTelemetry` and `fetchTelemetry`;
  - `analyzeData`;
  - the two carousel buttons.

  The HTTP calls are parameters (a function from request to outcome).
- `AnalyzeEndpoint`: `POST /api/analyze`, covering:
  - the validity check;
  - the exact prompt text;
  - the generation request;
  - the reply.

  The chat-completion service is a parameter.
- `TelemetryEndpoint`: `GET /api/telemetry`, covering:
  - the script's argument vector;
  - a loop that accumulates the standard-output chunks;
  - the `close` handler.

  The process run and `JSON.parse` are parameters.
- `Pipeline`: where the viewer and the server meet:
  - the body the viewer posts for analysis;
  - what the viewer receives from the analysis endpoint;
  - what the viewer makes of a telemetry reply that reports a script failure.

JSON numbers and booleans are opaque rendered tokens (`Sample = string`). A
JavaScript array inside a template literal renders as `Join(xs, ',')`, and an
absent value renders as `undefined`.

Some behaviour of the code is easy to misread. The model follows the code:

- The heading test in the formatter runs on the raw line, not on the trimmed
  line. `" 1. x"` is a paragraph.
- The analysis endpoint does not check that each payload has a `driver` field.
  A payload without one is accepted, and the prompt says `Driver 1 (undefined):`.
  A payload without `speed` or `throttle` passes the check, then throws while
  the prompt is built, which gives a 500.
- For a track missing from the fun-fact table, the merged record has no
  fun-fact list at all (`None`), not an empty list.
- The viewer requests the two drivers one after the other, not concurrently.
  Driver 2 is requested only when driver 1's request succeeded.
- When the telemetry lookup fails inside the script's `try` block
  (telemetry.py:14-42), the script prints `{"error": ...}` and exits with
  status 0. The server relays this with status 200, and the viewer stores it
  as that driver's telemetry. A failure before that point exits with a
  non-zero status, and the server answers 500. That covers the import and the
  cache directory (telemetry.py:3, 8-11).

## Model

| member | source | states |
|---|---|---|
| Text.Trim | frontend/src/App.js:384-398 | the result is no longer than the input, and is empty or starts and ends with a non-white-space character |
| Text.TrimInfix | frontend/src/App.js:384-398 | the trimmed string is a contiguous piece of the input with only white space cut from either side |
| Text.TrimEmptyIff | frontend/src/App.js:394 | a line trims to the empty string exactly when every character is white space |
| Text.TrimUntouched | frontend/src/App.js:384 | a string with no white space at either end is its own trim |
| Text.TrimIdempotent | frontend/src/App.js:384-398 | trimming twice equals trimming once |
| Text.NotBlankWhenStartsWith | frontend/src/App.js:375-384 | a line that starts with a non-white-space prefix does not trim to empty |
| Text.StartsWith | frontend/src/App.js:376-387 | `startsWith`: the string's first characters are the prefix; `Text.NotBlankWhenStartsWith` relates it to `trim` |
| Text.Split | frontend/src/App.js:374 | splitting yields at least one piece, and no piece contains the separator |
| Text.SplitNoSeparator | frontend/src/App.js:374 | a string without the separator splits into itself alone |
| Text.SplitConsSeparator | frontend/src/App.js:374 | a leading separator splits off an empty first piece |
| Text.SplitConsOther | frontend/src/App.js:374 | any other leading character becomes part of the first piece |
| Text.SplitAppend | frontend/src/App.js:374 | splitting `a + sep + b` yields the pieces of `a` followed by the pieces of `b` |
| Text.Join | backend/server.js:63-65 | an array inside a template literal, its elements separated by commas; `Text.JoinSplit`, `Text.SplitJoin` and `Text.JoinAvoids` state its relation to `split` |
| Text.JoinSplit | frontend/src/App.js:374 | joining the pieces of a split with the same separator gives back the string |
| Text.SplitJoin | backend/server.js:63-65 | splitting a non-empty separator-free list after joining it gives back the list |
| Text.JoinAvoids | backend/server.js:63-65 | a joined array contains a character only if an element or the separator does |
| Formatter.IsHeadingLine | frontend/src/App.js:375-380 | the heading test on the raw line for `1.` to `4.`; `Formatter.NarrowHeadingExamples` shows its narrowness |
| Formatter.ClassifyLine | frontend/src/App.js:375-402 | the block one line renders as, or none; its meaning is stated by `Formatter.ClassifyLineSpec` |
| Formatter.FormatAnalysis | frontend/src/App.js:374 | the blocks of the analysis text split on line breaks; `Formatter.FormatAnalysisTotal` and `Formatter.FormatLinesOrder` state what they are |
| Formatter.ClassifyLineSpec | frontend/src/App.js:375-402 | no block exactly for blank lines; the text is the trimmed line; heading exactly when the raw line starts with `1.` to `4.`; bullet exactly when not a heading and the trimmed line starts with `-`; otherwise paragraph |
| Formatter.ClassifyNoneIff | frontend/src/App.js:375-402 | a line yields no block exactly when it trims to the empty string |
| Formatter.FormatLines | frontend/src/App.js:374-403 | no more blocks than lines |
| Formatter.BlocksAreTrimmed | frontend/src/App.js:384-398 | every block text is non-empty, is its own trim and has no white space at either end |
| Formatter.BlockLinesIncreasing | frontend/src/App.js:374-403 | the positions of the block-yielding lines are strictly increasing and lie within the lines |
| Formatter.BlockLinesMembers | frontend/src/App.js:394-402 | a position is among the block-yielding lines exactly when that line is not blank |
| Formatter.BlockLinesSpec | frontend/src/App.js:394-402 | the block positions are strictly increasing, lie within the lines, and are exactly the non-blank lines |
| Formatter.FormatLinesOrder | frontend/src/App.js:374-403 | block k is the classification of the k-th non-blank line, so blocks follow line order one for one |
| Formatter.FormatLinesCount | frontend/src/App.js:374-403 | the number of blocks equals the number of non-blank lines |
| Formatter.FormatAnalysisTotal | frontend/src/App.js:374-403 | every analysis text, the empty one included, formats into one block per non-blank line of its split |
| Formatter.HeadingExample | frontend/src/App.js:376-385 | `"1. Strengths"` renders as a heading with unchanged text |
| Formatter.BulletExample | frontend/src/App.js:387-392 | a dash line renders as a bullet |
| Formatter.ParagraphExample | frontend/src/App.js:394-399 | any other text line renders as a paragraph |
| Formatter.NarrowHeadingExamples | frontend/src/App.js:375-380 | `" 1. x"` and `"5. x"` are paragraphs, not headings |
| Formatter.BlankExamples | frontend/src/App.js:402 | a blank line yields no block and the empty text yields no blocks |
| Telemetry.ErrorPayload | backend/telemetry.py:41-42 | the failure payload carries only the error message and none of the telemetry fields |
| Telemetry.Series | frontend/src/App.js:185-204 | `payload[dataKey]` for the speed, throttle or brake key; `Dashboard.RenderGraph` states what a chart makes of it |
| Dashboard.CircuitImage | frontend/src/App.js:149 | a known track gets its own image, any other track the default image, and the image is never empty |
| Dashboard.TrackFunFacts | frontend/src/App.js:155 | the fun facts are present exactly for the tracks the table knows, with the table's list |
| Dashboard.Merge | frontend/src/App.js:151-156 | the merged record holds both payloads, the track's image and the track's fun facts |
| Dashboard.TrackTablesAgree | frontend/src/App.js:28-76 | the selector offers exactly the tracks with an image, and those are exactly the tracks with fun facts |
| Dashboard.KnownTracks | frontend/src/App.js:28-76 | a selectable track never gets the default image and always has three fun facts |
| Dashboard.UnknownTrack | frontend/src/App.js:149-155 | an unknown track merges with the default image and no fun-fact list |
| Dashboard.RenderGraph | frontend/src/App.js:184-211 | "no data" with the title exactly when there is no telemetry or driver 1 lacks the series; otherwise labels `0..n-1` for driver 1's n samples, driver 1's dataset first, and driver 2's dataset only when driver 2 has the series |
| Dashboard.ChartLabelsFollowDriver1 | frontend/src/App.js:189-201 | the labels and driver 1's line do not depend on driver 2's payload |
| Dashboard.SectorTable | frontend/src/App.js:296-314 | the table is shown exactly when both payloads have sector times; it has one row per driver 1 sector, numbered from 1, paired with driver 2's time at the same index or `undefined` |
| Dashboard.NextGraph | frontend/src/App.js:354-357 | the Next button's index is always a valid graph index |
| Dashboard.PreviousGraph | frontend/src/App.js:345-348 | the Previous button's index is always a valid graph index |
| Dashboard.CarouselCycles | frontend/src/App.js:344-357 | both buttons keep the index in range and undo each other, and three presses of Next return to the start |
| Viewer.App.constructor | frontend/src/App.js:101-112 | the initial state: empty inputs, track Bahrain, nothing loading, no error, no telemetry, first graph, empty analysis |
| Viewer.App.BeginFetch | frontend/src/App.js:135-139 | the reset before fetching sets loading, clears error, telemetry and analysis, and keeps the rest |
| Viewer.App.FetchTelemetry | frontend/src/App.js:134-167 | driver 1 is requested first and driver 2 only after driver 1 succeeds; when both succeed the merged record is stored with no error; otherwise no telemetry and the fixed error; loading ends false |
| Viewer.App.HandleFetchTelemetry | frontend/src/App.js:122-132 | the form values become the displayed inputs, and the fetch runs with exactly those values |
| Viewer.App.AnalyzeData | frontend/src/App.js:169-182 | without telemetry nothing changes and nothing is posted; otherwise the telemetry is posted, the reply's analysis is stored or an alert is raised, and the loading flag ends false |
| Viewer.App.ShowNextGraph | frontend/src/App.js:353-357 | the index moves one on, modulo the number of graphs, and stays in range |
| Viewer.App.ShowPreviousGraph | frontend/src/App.js:344-349 | the index moves one back, modulo the number of graphs, and stays in range |
| Viewer.FetchAndBrowse | frontend/src/App.js:122-167 | after fetching two Monaco drivers and pressing Next then Previous, the first graph is shown again; when both fetches succeed the record has the Monaco image, and otherwise there is no record and the fetch error is set |
| AnalyzeEndpoint.HasBothDrivers | backend/server.js:50-52 | the input check; `AnalyzeEndpoint.AnalyzeStatus` states that it decides the 400 answer exactly |
| AnalyzeEndpoint.Show | backend/server.js:62 | an interpolated value, `undefined` when absent; `AnalyzeEndpoint.MissingDriverIsUndefined` states the absent case |
| AnalyzeEndpoint.ShowSeries | backend/server.js:63 | an interpolated array, comma-joined, `undefined` when absent; its lines are stated by `AnalyzeEndpoint.DriverBlockLines` |
| AnalyzeEndpoint.DriverHeader | backend/server.js:62 | the `Driver n (driver):` line of a block; `AnalyzeEndpoint.HeaderLinesLineFree` and `AnalyzeEndpoint.MissingDriverIsUndefined` state that it is one line and how an absent driver shows |
| AnalyzeEndpoint.SectorLine | backend/server.js:63 | the `- Sector Times:` line of a block; `AnalyzeEndpoint.HeaderLinesLineFree` states that it is one line |
| AnalyzeEndpoint.SpeedLine | backend/server.js:64 | the `- Speed:` line; `AnalyzeEndpoint.SampleLineCarriesFirstTen` states that it carries exactly the first ten samples, then the truncation marker |
| AnalyzeEndpoint.ThrottleLine | backend/server.js:65 | the `- Throttle:` line; `AnalyzeEndpoint.SampleLineCarriesFirstTen` states that it carries exactly the first ten samples, then the truncation marker |
| AnalyzeEndpoint.DriverBlock | backend/server.js:62-65 | one driver's four template lines; `AnalyzeEndpoint.DriverBlockLines` states that it splits into exactly those lines |
| AnalyzeEndpoint.BuildPrompt | backend/server.js:55-71 | the prompt template, or none when it throws; `AnalyzeEndpoint.PromptFailsIff`, `AnalyzeEndpoint.PromptLayout` and `AnalyzeEndpoint.PromptSeesOnlyFirstTen` state what it is |
| AnalyzeEndpoint.PromptFailsIff | backend/server.js:55-71 | building the prompt throws exactly when a speed or throttle array is missing |
| AnalyzeEndpoint.SampleLinesLineFree | backend/server.js:64-65 | a speed or throttle line has no line break when no sample has one |
| AnalyzeEndpoint.HeaderLinesLineFree | backend/server.js:62-63 | the header and sector lines have no line break when the payload's strings have none |
| AnalyzeEndpoint.DriverLinesLineFree | backend/server.js:62-70 | a driver's four template lines contain no line break when the payload's strings contain none |
| AnalyzeEndpoint.PromptHeadLines | backend/server.js:55-61 | the fixed part of the prompt is a blank line, the instruction, the three requests, a blank line and the data heading |
| AnalyzeEndpoint.DriverBlockLines | backend/server.js:62-70 | a driver's part of the prompt is exactly its header, sector, speed and throttle lines |
| AnalyzeEndpoint.PromptLayout | backend/server.js:55-71 | when no value contains a line break, the prompt's lines are exactly the seventeen lines of the template in order |
| AnalyzeEndpoint.FirstTen | backend/server.js:64-65 | `slice(0, 10)` keeps the first ten samples in order, or all of them when there are fewer |
| AnalyzeEndpoint.SampleLineCarriesFirstTen | backend/server.js:64-65 | a speed line and a throttle line each carry exactly the first `min(10, n)` samples, recoverable by splitting on commas, followed by the truncation marker |
| AnalyzeEndpoint.PromptSeesOnlyFirstTen | backend/server.js:62-70 | two payloads that agree on the driver, the sector times and the first ten speed and throttle samples give the same prompt; brake is never used |
| AnalyzeEndpoint.GenerationRequest | backend/server.js:73-78 | the request uses model gpt-3.5-turbo, 500 tokens and temperature 0.7, with the prompt as its one system message |
| AnalyzeEndpoint.ReplyText | backend/server.js:80 | a reply text exists exactly when the call succeeded with a first choice that has content, and it is that content trimmed |
| AnalyzeEndpoint.Analyze | backend/server.js:47-85 | the handler; `AnalyzeEndpoint.AnalyzeStatus` states its answers |
| AnalyzeEndpoint.AnalyzeStatus | backend/server.js:47-85 | 400 with the invalid-data message exactly when `telemetry` or a driver is missing; 200 with the trimmed first choice exactly when the prompt builds and the reply is usable; otherwise 500 with the fixed message |
| AnalyzeEndpoint.ServiceNotCalledBeforePrompt | backend/server.js:50-73 | when the check fails or the prompt cannot be built, the response does not depend on the service |
| AnalyzeEndpoint.MissingDriverIsUndefined | backend/server.js:50-62 | a payload without `driver` passes the check and is named `undefined` in the prompt |
| AnalyzeEndpoint.ErrorPayloadGives500 | backend/server.js:50-84 | a script failure payload as driver 2 passes the check and always gives 500 |
| Pipeline.ViewerBody | frontend/src/App.js:174 | the body the viewer posts always holds both drivers |
| Pipeline.ViewerRequestsAreValid | backend/server.js:50-52 | a request from the viewer is never answered 400 |
| TelemetryEndpoint.SpawnArgs | backend/server.js:20-26 | the script gets five arguments, its own name first |
| TelemetryEndpoint.ScriptQuery | backend/telemetry.py:45 | how the script reads its four arguments; `TelemetryEndpoint.ScriptSeesQuery` states the round trip |
| TelemetryEndpoint.ScriptSeesQuery | backend/telemetry.py:45 | the script reads back exactly the driver, track, year and session of the query |
| TelemetryEndpoint.Concat | backend/server.js:28-31 | the chunks one after the other; `TelemetryEndpoint.ConcatAppend` and `TelemetryEndpoint.ConcatChunkAt` state how it accumulates |
| TelemetryEndpoint.ConcatAppend | backend/server.js:28-31 | accumulating two runs of chunks equals accumulating each and concatenating |
| TelemetryEndpoint.ConcatChunkAt | backend/server.js:28-31 | each chunk sits in the accumulated output between the chunks before it and the chunks after it |
| TelemetryEndpoint.HandleTelemetry | backend/server.js:17-44 | the script is spawned with the query's arguments, the output is all stdout chunks in order, and the reply is what the close handler sends for the exit code |
| TelemetryEndpoint.CloseReply | backend/server.js:37-43 | the close handler's reply; `TelemetryEndpoint.CloseReplySpec` states it per exit code |
| TelemetryEndpoint.CloseReplySpec | backend/server.js:37-43 | 200 with the parsed output exactly when the exit code is 0 and the output parses; 500 with the fixed text exactly when the exit code is not 0; no reply when a successful run's output does not parse |
| TelemetryEndpoint.ScriptErrorIsSuccess | backend/server.js:37-39 | a script that printed its error object and exited 0 is answered 200 with that object |
| Viewer.BrowserOutcome | frontend/src/App.js:142-147 | the browser's request succeeds exactly on a 200 JSON reply, with its payload |
| Viewer.PostResult | frontend/src/App.js:174-178 | the browser's post succeeds exactly on a 200 reply carrying an `analysis` field, and delivers that text |
| Pipeline.AnalysisReachesViewer | backend/server.js:47-84 | for the viewer's post, the browser receives the trimmed first choice exactly when the prompt builds and the service's first choice has content, and otherwise rejects, so the viewer alerts |
| Pipeline.ScriptErrorReachesViewer | frontend/src/App.js:184-210 | a script failure reaches the viewer as that driver's data; for driver 1 every chart shows "no data", for driver 2 each chart shows driver 1's line alone or "no data"; either way the sector table is hidden |

## Left out

- Networking, Express routing, CORS, the JSON body parser and Axios are not modelled. Each endpoint is a function or method from request to response, and each client call is a function from request to outcome.
- Console logging, the standard-error handler (server.js:33-35) and the `alert` text are left out, because they produce no state. The alert is the boolean `alerted`.
- React's asynchronous state updates and render batching are not modelled. Each handler is one atomic sequence of updates, and rendering is a set of functions of the state.
- The markup, styling, chart options and the `TrackMap` component are not modelled. `frontend/src/TrackMap.js` is not part of this model.
- The telemetry script's data access (the session loading and lap selection in telemetry.py) is not modelled. Only its argument reading and its two output shapes are.
- `JSON.parse` and the process run are parameters. The decoding of output chunks into text is not modelled.
- A spawn failure (the process `error` event) is not modelled. Neither is the unhandled exception that a failed `JSON.parse` raises inside the close handler: it is "no reply" (the uncaught exception ends the server process, so later requests get no reply either). An unhandled `error` event ends the process the same way.
- Query parameters are taken as present strings. An absent parameter, which JavaScript passes to `spawn`, is not modelled.
- JSON `null` and an absent field are not distinguished. Neither are another falsy value (`0`, `""`) and an absent field.
- The payload fields `track`, `year`, `session_type` and `fastest_lap_time` are not modelled, because nothing in the core reads them.
- Numbers are rendered tokens. The floating-point values and their JavaScript string forms are not modelled.
- Lookup keys that JavaScript objects inherit (such as `constructor`) are not modelled. The two tables are plain maps.
- Viewer.App.FetchTelemetry: the two requests are one function `get` of the query. So when both drivers are the same there is one outcome for both, and a network or server failure between the two identical requests cannot be expressed.
- The shallow copy `{ ...response.data }` is modelled as the value itself. No aliasing exists in the model.
- An unknown track crashes the viewer's fun-fact rendering (`funFacts.map` on `undefined`). This is not modelled: the track selector cannot produce an unknown track (`Dashboard.KnownTracks`).
- Dashboard.RenderGraph: assumes `telemetry.driver1` and `telemetry.driver2` are objects. Any payload the endpoints pass through is one.
- AnalyzeEndpoint.PromptLayout: proved only for payloads whose strings contain no line break. A sample or driver name with a line break would add lines.
- AnalyzeEndpoint.SampleLineCarriesFirstTen: the round trip through commas is proved only for samples without commas, which rendered numbers and booleans never contain.
