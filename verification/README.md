# Network inspection, viewport resize and browser launch: a Dafny model

This project models three parts of a Playwright-based MCP server.

- **The network inspection tool** (`NetworkInspectionTool`). It keeps an
  insertion-ordered table of network entries, keyed by an id made from a
  counter. Three page events drive it:
  - `request` adds a pending entry;
  - `response` attaches the response and a duration;
  - `requestfailed` attaches a synthetic status-0 response.

  The tool's `execute` has four actions:
  - `start` registers the listeners;
  - `stop` clears the monitoring flag;
  - `clear` empties the table;
  - `get` filters, sorts by request time, keeps the last `limit` entries, optionally clears after the snapshot, and renders a summary or detailed reply.

  `getNetworkStats` aggregates the whole table.
- **The resize tool** (`ResizeTool.execute`). It validates width and then height, calls the page's viewport setter once, and reports success or the setter's failure.
- **The launch resolver** behind `ensureBrowser`, at the level of its test suite:
  - routing between an ephemeral launch and a persistent-profile launch;
  - the argument records passed to `launch`, `newContext` and `launchPersistentContext`;
  - page selection in a persistent context;
  - the single retry that drops the executable path.

  The engine is a script of outcomes: each `launch` call resolves or rejects, as the tests' mocks do.

Modules:

| file | module | contents |
|---|---|---|
| `wrappers.dfy` | `Wrappers` | `Option` and `Result` |
| `text.dfy` | `Text` | decimal rendering of numbers, ASCII lower-casing, substring search, joining lines |
| `network_model.dfy` | `NetworkModel` | the tool state `Inspector`, the three page events, listener registration, `stop`, `clear` |
| `network_query.dfy` | `NetworkQuery` | the filter chain, the stable sort by request time, the tail limit |
| `network_render.dfy` | `NetworkRender` | the summary and detailed replies |
| `network_stats.dfy` | `NetworkStats` | `getNetworkStats` |
| `network_tool.dfy` | `NetworkTool` | `execute` with its four actions, a worked scenario, and the restart defect |
| `viewport.dfy` | `Viewports` | the `Viewport` record |
| `resize.dfy` | `Resize` | the resize tool |
| `launch.dfy` | `Launch` | the launch resolver |

Modelling conventions:
- Timestamps (`Date.now()`) are integer inputs.
- `toISOString` is an uninterpreted parameter `iso: int -> string`.
- A tool reply is the list of its text lines.
- JavaScript truthiness is written out:
  - a `status` or `minDuration` filter of 0 is not applied;
  - a duration of 0 reads as N/A and does not count as completed;
  - an empty post-data string is not shown.
- An optional key that is absent or `undefined` is `None`, and an explicit `false` is `Some(false)`. The tests compare argument objects this way.
- The page may hold several listener sets at once, so the state records how many are attached (`handlers`). Each page event runs once per attached set.

## Model

| member | source | states |
|---|---|---|
| NetworkModel.OnRequest | src/tools/browser/network.ts:42-44 | A request's id uses the counter after incrementing it, plus the current time. The counter grows by one. Exactly one entry is appended, and the existing entries stay as they were, in order. |
| NetworkModel.OnRequestAddsPendingEntry | src/tools/browser/network.ts:57-75 | The new entry carries the reported URL, method, headers, post data, resource type and time, has no response and no duration, and the state stays valid. |
| NetworkModel.InitialValid | src/tools/browser/network.ts:35-37 | The empty table with counter 0 and monitoring off satisfies the invariant: ids distinct, every serial between 1 and the counter, responses belonging to their request. |
| NetworkModel.Find | src/tools/browser/network.ts:82-83 | Table lookup by request id returns the position of the entry with that id, or reports that there is none. |
| NetworkModel.Attach | src/tools/browser/network.ts:82-97 | Attaching a response never changes a request, the number of entries, the counter or the monitoring flag. |
| NetworkModel.AttachUpdatesOnlyTagged | src/tools/browser/network.ts:78-97 | If the tagged id is in the table, that entry gets the response and a duration of response time minus request time. Every other entry is unchanged. A missing tag, or an id not in the table, changes nothing. |
| NetworkModel.AttachIdempotent | src/tools/browser/network.ts:94-96 | Attaching the same response twice is the same as attaching it once. |
| NetworkModel.FailureText | src/tools/browser/network.ts:109 | The failure's status text is the error text when that is non-empty. It is "Request failed" when the error text is missing or empty. It is never empty. |
| NetworkModel.FailureIsStatusZero | src/tools/browser/network.ts:101-117 | A failure of a tabled request attaches a response with status 0, empty headers and the failure text. The entry's duration becomes the failure time minus the request time. |
| NetworkModel.OnRequestFailed | src/tools/browser/network.ts:101-117 | A missing tag or an id no longer in the table changes nothing. Otherwise only the tagged entry changes: its request stays, it gets a status-0 response with the failure text and the failure time, and its duration is failure time minus request time. Counter, flag and listeners are untouched. |
| NetworkModel.DispatchRequest | src/tools/browser/network.ts:57-75 | With k listener sets attached, one request event appends k entries and advances the counter by k. The request is tagged with the last id. |
| NetworkModel.DispatchRequestEntries | src/tools/browser/network.ts:57-75 | The k entries appended by k listener sets have consecutive serials after the counter, all stamped with the event time, and all pending. |
| NetworkModel.RequestEvent | src/tools/browser/network.ts:57-75 | A request event appends one pending entry per attached listener set, with serials counter+1 onwards. Earlier entries are untouched. The request is tagged exactly when some listener set is attached, with the last id minted. |
| NetworkModel.DispatchResponseOnce | src/tools/browser/network.ts:78-98 | However many listener sets are attached, a response event has the effect of a single attach. |
| NetworkModel.DispatchFailureOnce | src/tools/browser/network.ts:101-117 | However many listener sets are attached, a failure event has the effect of a single attach. |
| NetworkModel.ResponseEvent | src/tools/browser/network.ts:78-98 | With no listener set attached a response changes nothing. Otherwise it has the effect of one attach of the response. |
| NetworkModel.FailureEvent | src/tools/browser/network.ts:101-117 | With no listener set attached a failure changes nothing. Otherwise it has the effect of one failure handler run. |
| NetworkModel.RegisterAsWritten | src/tools/browser/network.ts:49-54 | As written: registering while monitoring changes nothing. Otherwise it sets the flag and attaches one more listener set, whatever is already attached. The table and counter are untouched. |
| NetworkModel.Register | src/tools/browser/network.ts:49-54 | Corrected: registering while monitoring changes nothing. Otherwise it sets the flag and attaches a listener set only if none is attached. The table and counter are untouched. |
| NetworkModel.Stop | src/tools/browser/network.ts:139-142 | `stop` only clears the monitoring flag. Entries, counter and listeners are unchanged. |
| NetworkModel.Clear | src/tools/browser/network.ts:314-317 | Clearing empties the table and resets the counter to 0. The flag and listeners are untouched. |
| NetworkModel.RegisterKeepsOneHandler | src/tools/browser/network.ts:49-54 | With the corrected registration, one listener set stays attached. Registering twice equals registering once, and register, stop, register also equals registering once, so any number of restarts gives the same state. |
| NetworkModel.RequestEventAddsOneEntry | src/tools/browser/network.ts:57-75 | With one listener set attached, a request event adds exactly one pending entry. Its id has serial counter+1, and the request is tagged with that id. |
| NetworkModel.DispatchRequestValid | src/tools/browser/network.ts:57-75 | Request events keep the state invariant, for any number of attached listener sets. |
| NetworkModel.EventsKeepValid | src/tools/browser/network.ts:49-148 | Every page event, both registrations, `stop` and `clear` keep the state invariant. |
| NetworkModel.SerialsAfterClear | src/tools/browser/network.ts:42-44 | After a clear, the serials are 1, 2, ..., n in table order, whatever time each request happens at. With k listener sets attached, a run of m requests yields n = m·k entries; with one set, the k-th request gets serial k. |
| NetworkModel.RequestAllCounts | src/tools/browser/network.ts:144-147 | If the serials so far are 1..counter, they stay 1..counter after any run of requests, each at its own time, for any number of listener sets. Each request advances the counter by the number of attached sets. |
| NetworkModel.ClearReusesIds | src/tools/browser/network.ts:42-147 | Ids repeat across a clear. A request made in the same millisecond as one from before the clear gets the same id `req_1_<now>`, and a late response to the old request attaches to the new entry. |
| NetworkQuery.Keep | src/tools/browser/network.ts:154-182 | One filter pass keeps exactly the entries that pass that filter, and never lengthens the table. |
| NetworkQuery.Stage | src/tools/browser/network.ts:154-182 | A filter whose field is falsy leaves the entries as they are. Otherwise an entry survives exactly when it passes that filter. |
| NetworkQuery.ApplyFilters | src/tools/browser/network.ts:154-182 | After the five passes, an entry remains exactly when it is in the table and passes every applied filter. |
| NetworkQuery.SelectMembership | src/tools/browser/network.ts:154-182 | The reference selection holds exactly the table entries that pass every applied filter. |
| NetworkQuery.FiltersAreConjunction | src/tools/browser/network.ts:154-182 | Running the five filters one after another gives the same sequence as one pass with their conjunction. The filters are method ignoring ASCII case, URL substring, response with equal status, equal resource type, and non-zero duration at least the minimum. |
| NetworkQuery.ZeroFiltersIgnored | src/tools/browser/network.ts:166-182 | A `status` or `minDuration` of 0 is not applied: every entry matches such a filter, with or without a response. |
| NetworkQuery.Insert | src/tools/browser/network.ts:185 | Insertion keeps every entry and adds exactly the new one, as multisets. |
| NetworkQuery.SortByTime | src/tools/browser/network.ts:185 | The sort is a permutation of its input. |
| NetworkQuery.InsertSorted | src/tools/browser/network.ts:185 | Inserting into a time-sorted sequence keeps it sorted. |
| NetworkQuery.InsertWithTime | src/tools/browser/network.ts:185 | The inserted entry goes before every entry that has the same time. |
| NetworkQuery.SortByTimeCorrect | src/tools/browser/network.ts:185 | The result is sorted ascending by request time. It is stable: the entries sharing a time keep their table order. |
| NetworkQuery.TakeLast | src/tools/browser/network.ts:188-190 | A positive limit keeps the last min(limit, n) entries; a limit of zero or less keeps all of them. The result is always a suffix. |
| NetworkQuery.TakeLastOfSorted | src/tools/browser/network.ts:188-190 | A tail of a sorted sequence is sorted and holds only its elements. |
| NetworkQuery.SortedMatches | src/tools/browser/network.ts:154-185 | The sorted filter result holds exactly the matching entries of the table, and is sorted. |
| NetworkQuery.Query | src/tools/browser/network.ts:151-190 | The `get` result is exactly the last min(limit, matches) entries of the stable time sort of the matching entries (all of them for a limit of 0 or less). So it is sorted, entries sharing a time keep their table order, and each returned entry is a matching table entry. |
| NetworkQuery.QueryKeepsNewest | src/tools/browser/network.ts:185-190 | Every one of the last `limit` sorted matches is returned: the limit drops the oldest. |
| NetworkRender.StatusPendingIff | src/tools/browser/network.ts:215 | The status column reads "Pending" exactly when the entry has no response. |
| NetworkRender.DurationNotAvailableIff | src/tools/browser/network.ts:216 | The duration column reads "N/A" exactly when the duration is absent or 0. Otherwise it reads `<d>ms`, and `<d>` parses back to the duration. |
| NetworkRender.SummaryLine | src/tools/browser/network.ts:214-218 | An entry's line is its method, a space, its URL and " - ", then exactly the status column, then the duration column in parentheses. |
| NetworkRender.SummaryBody | src/tools/browser/network.ts:214-218 | One summary line per entry, in result order. |
| NetworkRender.Summary | src/tools/browser/network.ts:220-224 | The summary is the header `Retrieved <n> network entries:` with n the number of entries, then a blank line, then entry i's line at position i+2. |
| NetworkRender.SummaryOfCompletedGet | src/tools/browser/network.ts:217 | A GET of https://a.test/json answered 200 after 120 ms renders as `GET https://a.test/json - 200 (120ms)`. |
| NetworkRender.TruncatePostData | src/tools/browser/network.ts:241 | Post data of at most 200 characters is kept whole. Longer data becomes its first 200 characters followed by "...". |
| NetworkRender.TruncateKeepsPrefix | src/tools/browser/network.ts:241 | The rendered post data is at most 203 characters and starts with the first min(200, n) characters of the original. |
| NetworkRender.DetailedBlockLines | src/tools/browser/network.ts:232-255 | A block opens with `--- Request <id> ---`, then the URL, method, resource type and ISO request time. Non-empty post data adds a line with the truncated data. A blank separator follows, then either the status line, `Duration: <d>ms` and the ISO response time, or the pending marker. A closing blank line ends the block. |
| NetworkRender.ZeroDurationViews | src/tools/browser/network.ts:216-248 | A response that took 0 ms shows "N/A" in the summary's duration column but `Duration: 0ms` in the detailed block. |
| NetworkRender.PendingMarkerIff | src/tools/browser/network.ts:244-253 | The block contains "Response: Pending or Failed" exactly when the entry has no response. |
| NetworkRender.DetailedBody | src/tools/browser/network.ts:231-257 | One newline-joined block per entry, in result order. |
| NetworkRender.Detailed | src/tools/browser/network.ts:259-263 | The detailed reply is the header `Retrieved <n> network entries (detailed):`, a blank line, then one block per entry. |
| NetworkStats.CompletedEntries | src/tools/browser/network.ts:278 | The completed entries are exactly those with a response and a non-zero duration, each kept as many times as it occurs. |
| NetworkStats.RoundedMean | src/tools/browser/network.ts:292 | The average is the nearest integer to sum/n, with halves rounded up: n(2r-1) <= 2 sum < n(2r+1). |
| NetworkStats.Tally | src/tools/browser/network.ts:295-306 | A tally's keys are exactly the values counted, and each count is that value's number of occurrences. |
| NetworkStats.TallyTotal | src/tools/browser/network.ts:295-306 | The counts of a tally add up to the number of values counted. |
| NetworkStats.StatusCodesCount | src/tools/browser/network.ts:303-305 | Status codes are collected from, and only from, entries with a response. There is one per such entry. |
| NetworkStats.AverageDuration | src/tools/browser/network.ts:290-293 | The average is the rounded mean of the completed entries' durations, or 0 when none are completed: n(2a-1) <= 2 sum < n(2a+1). |
| NetworkStats.NetworkStats | src/tools/browser/network.ts:276-309 | total is the number of entries and equals completed + pending. completed counts the completed entries. The grouped counts are tallies of the methods, resource types and response status codes. |
| NetworkStats.StatsKeysPresent | src/tools/browser/network.ts:295-301 | The method and resource-type keys are exactly the methods and resource types that occur in the table. |
| NetworkStats.StatsCountsAddUp | src/tools/browser/network.ts:295-306 | The per-method and per-resource-type counts each add up to the total. The per-status counts add up to the number of entries with a response. |
| NetworkStats.CompletedInValidState | src/tools/browser/network.ts:278 | In a reachable state, "completed" means having a response whose duration is not 0. A request that fails within the same millisecond counts as pending. |
| NetworkTool.Reply | src/tools/browser/network.ts:199-207 | The reply is "No network entries matching the criteria" exactly when the result is empty. Otherwise it is the detailed rendering when `format` is detailed, and the summary otherwise. |
| NetworkTool.Execute | src/tools/browser/network.ts:123-208 | As written: `start` runs the registration guarded only by the monitoring flag, `stop` clears the flag, `clear` empties the table. A `get` without `clear` leaves the state unchanged. With `clear`, it empties the table and resets the counter, and the reply is computed from the snapshot taken before clearing. |
| NetworkTool.ExecuteCorrected | src/tools/browser/network.ts:49-54 | With the corrected registration, `start` attaches listeners only when none are attached; every other action behaves as written. |
| NetworkTool.ExecuteKeepsValid | src/tools/browser/network.ts:123-208 | Every action keeps the state invariant, as written and with the corrected registration. |
| NetworkTool.ClearAfterSnapshot | src/tools/browser/network.ts:151-196 | A `get` that clears replies exactly as the same `get` without clearing, and leaves the cleared state. |
| NetworkTool.ExampleTrace | src/tools/browser/network.ts:57-98 | Start, one GET at t=1000, its 200 response at t=1120: the table holds one entry with id `req_1_1000` and duration 120. |
| NetworkTool.ExampleReply | src/tools/browser/network.ts:123-225 | A default `get` over that table replies `Retrieved 1 network entries:`, a blank line, and `GET https://a.test/json - 200 (120ms)`. |
| NetworkTool.RestartDuplicatesEntries | src/tools/browser/network.ts:49-54 | As written, the tool calls start, stop, start leave two listener sets attached. A later request then yields two entries, and one stays pending forever. |
| NetworkTool.RestartKeepsSingleEntry | src/tools/browser/network.ts:49-54 | With the corrected registration, the tool calls start, stop, start and then a request with its response yield exactly one completed entry with the right duration. |
| Text.NatToString | src/tools/browser/network.ts:217 | The decimal rendering of a count is a non-empty digit string with no leading zero. |
| Text.DecimalRoundTrip | src/tools/browser/network.ts:217 | Reading the decimal rendering back gives the number. |
| Text.IntToStringRoundTrip | src/tools/browser/network.ts:215-217 | Reading the signed decimal rendering of an integer back gives the integer. |
| Text.Lower | src/tools/browser/network.ts:156 | Lower-casing is per character and keeps the length. |
| Text.ContainsIff | src/tools/browser/network.ts:162 | The substring scan succeeds exactly when the pattern occurs at some position. |
| Resize.Execute | src/tools/browser/resize.ts:11-34 | A non-number or non-positive width gives the width error with no setter call. Otherwise a bad height gives the height error with no setter call. Otherwise the setter is called once with exactly {width, height}, and the reply is the success text, or "Failed to resize viewport: " plus the setter's message. |
| Resize.SetterCalledIffValid | src/tools/browser/resize.ts:13-28 | The setter is called, exactly once, exactly when both dimensions are positive numbers. The reply is an error exactly when a check fails or the setter throws. |
| Resize.WidthCheckedFirst | src/tools/browser/resize.ts:13-19 | When both dimensions are invalid, the width error is reported. |
| Resize.SuccessTextNamesSize | src/tools/browser/resize.ts:28 | The success text is `Viewport resized to WxH pixels`, and both numbers read back from it. |
| Resize.ResizeSucceeds | src/tools/browser/resize.ts:22-28 | Positive dimensions with a setter that succeeds give one setter call with that size and the text `Viewport resized to <w>x<h> pixels`. |
| Resize.ResizeExamples | src/__tests__/tools/browser/resize.test.ts:93-162 | The failure cases: width 0, height -100, non-numeric width or height each give their error without a setter call. A setter that throws "Resize failed" is still called with 1920x1080, and the reply is "Failed to resize viewport: Resize failed". |
| Resize.ResizeSuccessExamples | src/__tests__/tools/browser/resize.test.ts:45-91 | The success cases: 1920x1080, 375x667 and 768x1024 each call the setter once with that size and reply `Viewport resized to WxH pixels`, not as an error. |
| Launch.RouteOf | src/__tests__/profile.test.ts:207-238 | The persistent path is taken exactly when the profile directory is present and non-empty. An absent, undefined or empty directory goes ephemeral. |
| Launch.EphemeralLaunchArgs | src/__tests__/ssl.test.ts:48-101 | `launch` gets headless and executable path as given, and the proxy verbatim when supplied. `acceptInsecureCerts: true` is included only when that flag is true. |
| Launch.ContextArgsOf | src/__tests__/ssl.test.ts:105-137 | `newContext` gets the supplied viewport or 1280x720, scale factor 1, and `ignoreHTTPSErrors` as supplied, false when not. |
| Launch.PersistentArgsOf | src/__tests__/profile.test.ts:63-204 | `launchPersistentContext` gets headless and executable path as given, the proxy and user agent only when supplied, and the supplied viewport or 1600x900. The scale factor is 1, `acceptInsecureCerts` is passed through whenever supplied, and `ignoreHTTPSErrors` defaults to false. |
| Launch.RetryArgs | src/__tests__/ssl.test.ts:232-254 | The retry's arguments are the first attempt's without the executable path; everything else is kept. |
| Launch.SelectPage | src/__tests__/profile.test.ts:242-276 | The persistent context's first page is used without calling `newPage`. With no pages, `newPage` is called. Either way the page points back at the context. |
| Launch.Resolve | src/__tests__/profile.test.ts:63-127 | The first engine call is the persistent launch exactly when the profile directory is non-empty, otherwise `launch`, each with its argument record. The persistent route fails exactly when its launcher rejects, with that message. The ephemeral route fails exactly when both attempts reject, with the retry's message. |
| Launch.PersistentRoute | src/__tests__/profile.test.ts:63-127 | A non-empty profile directory calls the selected variant's `launchPersistentContext(dir, args)` first and never calls `launch`. On rejection it fails with the launcher's message. On success it returns the selected page, which points back at the context. |
| Launch.EphemeralRoute | src/__tests__/ssl.test.ts:222-254 | Without a profile directory, the first call is `launch` with the ephemeral arguments and no persistent launch happens. A rejection is retried exactly once with the retry arguments. The call fails exactly when both attempts reject, with the retry's message. On success a context and a page are created. |
| Launch.RouteIgnoresVariant | src/__tests__/profile.test.ts:63-127 | Routing does not depend on the engine variant. |
| Launch.ProxyAndCertificatesCombine | src/__tests__/ssl.test.ts:165-195 | The proxy and `acceptInsecureCerts` appear side by side in the launch arguments. The context arguments do not depend on the proxy. |
| Launch.RetryDropsOnlyPath | src/__tests__/proxy.test.ts:157-178 | The retry arguments equal the launch arguments of the same settings without an executable path. |
| Launch.ProfileDefaults | src/__tests__/profile.test.ts:280-302 | The persistent call for each variant with only headless set has the 1600x900 default arguments. A supplied `acceptInsecureCerts: false` is passed through as false. |
| Launch.CertificateFlagExamples | src/__tests__/ssl.test.ts:199-218 | `acceptInsecureCerts: true` reaches `launch`, and `false` or no value leaves the key out. Without SSL options the context gets `ignoreHTTPSErrors: false`. |
| Launch.RetryKeepsProxy | src/__tests__/proxy.test.ts:157-178 | One rejection then success: two `launch` calls, both with the proxy, the second without the executable path, and the call succeeds. |
| Launch.RetryKeepsCertificateFlag | src/__tests__/ssl.test.ts:232-254 | One rejection then success: two `launch` calls, both with `acceptInsecureCerts: true`, and the call succeeds. |
| Launch.AlwaysRejectingLaunch | src/__tests__/proxy.test.ts:147-155 | A launcher that always rejects: two attempts, then failure with the launcher's message. |

## Left out

- Playwright objects, `Date.now()` and `toISOString()`: timestamps are integer inputs, and ISO rendering is a parameter.
- `safeExecute` and page acquisition (`BrowserToolBase`, `base.ts`) are not part of this model. `start` and the resize tool act on an abstract page whose only effects are the listener count and the setter calls.
- `createSuccessResponse`/`createErrorResponse` are not part of this model: a reply is its list of lines, plus an error flag for the resize tool.
- `getNetworkEntries` and `isNetworkMonitoring` are plain accessors; the model exposes the same data as the `entries` and `isMonitoring` fields.
- Event-loop interleaving: events are atomic steps applied in sequence.
- Text.Lower: lower-cases ASCII letters only, while JavaScript's `toLowerCase` folds all of Unicode.
- Floating point: `Math.round(sum / n)` is computed exactly in integers (`NetworkStats.RoundedMean`). This equals JavaScript's double arithmetic only while the duration sum stays well below 2^52 in magnitude. Beyond that, the `reduce` sum stops being exact past 2^53, and the double quotient can round onto an exact .5.
- The response record's `id` field (`res_<request id>`) is not modelled: it is determined by the request id, and the tool never prints or reads it.
- NetworkQuery.TakeLast: the limit is an integer. A fractional or non-numeric `limit` (which `slice` would truncate) is not modelled.
- NetworkStats.NetworkStats: the counts are Dafny maps. JavaScript's coercion of status-code keys to strings and inherited prototype keys are not modelled.
- The network table is a sequence of entries in insertion order, which is the iteration order of a JavaScript `Map`. A `set` on an existing key keeps its position, as `Attach` does.
- Resize.Execute: a dimension is an integer or "not a number". Fractional numbers, NaN and infinities are not modelled. JSON arguments cannot carry NaN, but `JSON.parse` turns a literal such as `1e400` into `Infinity`, which passes both checks. The success text prints integers as plain decimals, while JavaScript prints integers of 1e21 or more in exponent form.
- NetworkRender.TruncatePostData: lengths count Dafny characters (Unicode code points). JavaScript's `length` and `substring` count UTF-16 code units, so post data with characters outside the Basic Multilingual Plane is cut at a different point.
- NetworkModel.OnRequest: one `now` stamps both the id and the request timestamp. The source reads `Date.now()` twice (the id and the timestamp), and the two readings may differ by a millisecond.
- NetworkTool.Execute: an `action` string other than the four actions falls through to `get` in the source. The `Action` datatype has no such case, so an unknown action is modelled as `Get`.
- The launch resolver is modelled from its tests, since `src/toolHandler.ts` is not part of this model. The model does not cover:
  - session reuse, health checks, disconnect handling and teardown;
  - failures of `newContext` and `newPage`;
  - multiple pages.
- Launch.EphemeralRoute: when both attempts reject, the model reports the retry's message. The tests use the same message for both attempts, so they do not tell the two apart.
- The zod schemas in `src/tools.ts` contribute only the defaults used here: `limit` 50 and `clear` false (`src/tools.ts:156-157`). The `format` default, summary, comes from the destructuring in `src/tools/browser/network.ts:129`; the schema gives `format` no default.
- Id reuse after `clear`: the counter restarts at 0, so ids are unique only between clears, and a late response to a request from before the clear can attach to a new entry with the same id (`NetworkModel.ClearReusesIds`). The model keeps this behaviour and does not model a fix.

## Findings

| source | as written | input that shows it | evidently intended | confidence | as-written member | corrected member |
|---|---|---|---|---|---|---|
| src/tools/browser/network.ts:49-54, 139-142 | `registerNetworkListeners` is guarded only by `isMonitoring`, and `stop` clears that flag without detaching the listeners. A later `start` therefore attaches a second set of request/response/failure listeners. | `start`, `stop`, `start`, then one request and its response. Two entries are recorded (serials 1 and 2), and only the second gets the response; the first stays "Pending" forever and counts as pending in the stats. | Restarting monitoring records each request once. Listeners are attached only if none are attached yet, or `stop` detaches them. | medium; not executed | NetworkModel.RegisterAsWritten, NetworkTool.Execute, NetworkTool.RestartDuplicatesEntries | NetworkModel.Register, NetworkTool.ExecuteCorrected, NetworkTool.RestartKeepsSingleEntry |
