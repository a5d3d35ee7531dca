# ai-proxy request pipeline, modelled in Dafny

This project models the core of the `ai-proxy` reverse proxy. The proxy
forwards client requests to the Claude API and, by host name, to other
large-language-model APIs. On the way it applies admission control: a
fixed-window rate limiter per client address, and an IP reputation store
that counts local validation errors and bans abusive addresses. It also
reads token usage out of relayed responses, both server-sent event streams
and plain JSON bodies, and writes one log record per forwarded request.

Modules, one per part of the program:

- `Wrappers`: `Option`.
- `JsString`: the JavaScript string operations the code relies on:
  `indexOf`, `split` on a non-empty separator (empty pieces kept),
  first-occurrence `replace`, `startsWith`, `padStart`, and
  `Array.prototype.indexOf` on strings.
- `JsValue`: parsed JSON values with JavaScript truthiness, and
  `safelyGetNestedValue` (a `reduce` that carries a falsy value through).
- `EventStream`: `parseEventStream`, which splits a chunk on blank lines
  and decodes `event: ` / `data: ` pairs. `JSON.parse` is the parameter
  `parse`.
- `Usage`: the input/output token fields of the log record, as updated
  event by event in streaming mode and read once from a plain body.
- `Reputation`: `recordIPError`, `cleanupIPErrorCounter`, clear-on-success
  and the ban check, as a class over the ban set and the counter map.
  Each method is tied to a pure function of the old state; properties of
  whole runs of errors, sweeps and successes are proved on those
  functions. A call of `saveIPData` is counted in the ghost field
  `saveRequests`.
- `ClaudeHandler`: the two Claude handlers, modelled once.
  - `Standalone` is the server callback of `claude-api-proxy.js`.
  - `Injected` is `handleRequest` of `claude-proxy.js`.
  - Both run the validation chain, the header allow-list, the JSON-body
    gate, the relay with usage extraction, and the effect on the
    reputation state.
- `RateLimit`: the fixed-window limiter used by the dispatcher.
- `App`: the dispatcher. Its order is OPTIONS, `/ping`, ban, rate limit,
  then routing by host prefix.
- `Config`: `getConfigValue`. An environment variable wins, then
  `--KEY value` in argv, then the default.
- `LogFile`: the daily log file name `<year>-<MM>-<DD>.log`, and
  `writeLog` appending `JSON + "\n"` to it.

Clock readings (`Date.now`, `new Date()`) are parameters. The environment
and argv of `getConfigValue` are parameters. The outcome of an upstream
exchange is the `Exchange` parameter: either a transport error, or a
status, a content type and the body chunks in arrival order.

Where the code and its stated intent differ, the model follows the code:

- A new error on a counter whose first error is older than the error
  window does not restart that counter. `firstError` is kept, so such a
  counter can never cause a ban (`Reputation.StaleCounterNeverBans`).
- A chunk that contains no `\n\n` is still decoded, as one block
  (`EventStream.SingleBlockWithoutDelimiter`).
- One `data:` line that fails to parse empties the result for the whole
  chunk, not only for its own block (`EventStream.ParseEventStream`,
  `EventStream.TwoEvents`).
- An upstream transport error answers 500 and is logged, but does not
  call `recordIPError` (`ClaudeHandler.OnlyRejectionsCount`).
- An invalid JSON body answers 400 and does not call `recordIPError`.

## Model

| member | source | states |
|---|---|---|
| JsString.IndexOfFrom | claude-proxy.js:11 | the result is a position at or after `from` where the pattern occurs, with no occurrence between `from` and it; none means no occurrence at or after `from` |
| JsString.Split | claude-proxy.js:11 | `split` on a non-empty separator gives at least one piece, no piece contains the separator, and joining the pieces with it gives the input back |
| JsString.SplitJoin | claude-proxy.js:14 | splitting the join of pieces that do not contain the separator gives back exactly those pieces, empty ones included |
| JsString.SplitCons | claude-proxy.js:11 | when a piece holds the separator only where it ends, splitting that piece, the separator and a tail gives the piece followed by the split of the tail |
| JsString.ReplaceFirst | claude-proxy.js:17 | `replace` with a string pattern leaves the input unchanged when the pattern is absent, and otherwise replaces only its first occurrence, keeping what is before and after |
| JsString.StripLeading | claude-proxy.js:18 | removing a marker that starts the string leaves exactly the rest |
| JsString.PadStart | utils.js:32 | `padStart` gives the larger of the width and the input length, ends with the input, and is filled in front with the pad character |
| JsString.IndexOfItem | config.js:10 | `Array.prototype.indexOf` gives the first index holding the item, or none when it is absent |
| JsValue.Lookup | claude-proxy.js:31 | a falsy starting value is returned as it is, so the lookup never dereferences null or undefined |
| JsValue.LookupAppend | claude-proxy.js:31 | following `p + q` is following `p`, then `q` from the value reached |
| JsValue.FalsyCarries | claude-proxy.js:31 | a falsy value reached at any depth is the result of the whole lookup; the rest of the path is not followed |
| JsValue.LookupMissing | claude-proxy.js:31 | a key missing from a truthy value at any depth gives undefined for the whole path |
| JsValue.LookupThroughObjects | claude-proxy.js:31 | a path that runs through objects to a leaf gives that leaf |
| JsValue.SplitOnChar | claude-proxy.js:31 | a dotted path built from dot-free segments splits back into exactly those segments |
| JsValue.SafelyGetNestedValue | claude-proxy.js:30-32 | on a falsy object the value itself comes back, so the helper never throws; `Usage.DottedPathLookup` states what it reads on a dotted path |
| EventStream.DecodeBlock | claude-proxy.js:13-22 | a block is skipped exactly when its type or data line is missing or empty; a kept block is malformed exactly when its data line, with `data: ` removed, fails to parse, and is otherwise decoded to an event whose type is its type line with `event: ` removed and whose data is that parse |
| EventStream.KeptBlocks | claude-proxy.js:15 | every block decoded has both of its first two lines non-empty, and there are no more of them than blocks |
| EventStream.KeptBlocksExact | claude-proxy.js:15-23 | the blocks decoded are exactly the blocks of the chunk whose first two lines are both non-empty |
| EventStream.KeptBlocksAppend | claude-proxy.js:11-15 | filtering consecutive runs of blocks filters each run in turn, so the kept blocks keep their order and multiplicity |
| EventStream.AllParseCons | claude-proxy.js:13-23 | no block of a chunk has a data line that fails to parse exactly when the first block has none and neither do the rest |
| EventStream.DecodeBlocks | claude-proxy.js:13-23 | decoding succeeds exactly when every kept block's data line parses; it then gives one event per kept block, in order, each the decode of that block |
| EventStream.ParseEventStream | claude-proxy.js:9-28 | the events of a chunk are the decoded kept blocks in order; if any kept block's data fails to parse, the result is empty |
| EventStream.EventTextShape | claude-proxy.js:14 | an `event:`/`data:` pair of newline-free lines has no blank line and splits into its two lines |
| EventStream.DecodeEventText | claude-proxy.js:14-19 | such a block decodes to the event type and the parsed payload, or is malformed when the payload does not parse |
| EventStream.SingleBlockWithoutDelimiter | claude-proxy.js:11-22 | a chunk holding one event and no `\n\n` still yields that one event |
| EventStream.TwoBlocks | claude-proxy.js:11-15 | two event texts joined by `\n\n` split into exactly those two blocks, and both are kept |
| EventStream.KeptPair | claude-proxy.js:15 | two event texts both have non-empty type and data lines, so both are kept |
| EventStream.TwoEvents | claude-proxy.js:9-27 | two well-formed events separated by `\n\n` yield exactly those two events in order, and none when either payload fails to parse |
| EventStream.EventSplitAcrossChunksIsLost | claude-proxy.js:112-124 | an event whose two lines arrive in separate chunks is found in neither chunk, though the joined text would yield it |
| Usage.DottedPathLookup | claude-proxy.js:30-31 | `safelyGetNestedValue` on a path made of dot-free segments joined by dots looks up exactly those segments, one after another |
| Usage.InputTokensPath | claude-proxy.js:126 | the input-token read of an event is `safelyGetNestedValue` on the dotted path `data.message.usage.input_tokens`, which is a lookup of `message`, `usage`, `input_tokens` in the event data |
| Usage.OutputTokensPath | claude-proxy.js:127 | the output-token read is `safelyGetNestedValue` on the dotted path `data.usage.output_tokens`, which is a lookup of `usage`, `output_tokens` in the event data |
| Usage.MessageWithoutUsage | claude-proxy.js:126-129 | an event whose `data.message` is truthy but has no `usage` reads undefined input tokens, so it does not overwrite the logged value |
| Usage.LastTruthy | claude-proxy.js:129-130 | the field ends as its initial value or as one of the truthy values seen |
| Usage.LastTruthyIndex | claude-proxy.js:129-130 | the index of the last truthy value, with every later value falsy; none when all are falsy |
| Usage.LastTruthyAppend | claude-proxy.js:125-131 | overwriting only on truthy values over `a + b` equals doing `a`, then `b` |
| Usage.LastTruthyWins | claude-proxy.js:129-130 | after the overwrites, the field holds the last truthy value, or its initial value when none is truthy (so 0 never overwrites) |
| Usage.FoldEvents | claude-proxy.js:125-131 | each log field ends as its initial value or as the truthy value some event gave for it |
| Usage.FoldEventsSnoc | claude-proxy.js:125-131 | folding one more event applies the truthy-only overwrite of both fields for that event |
| Usage.FoldEventsAppend | claude-proxy.js:112-131 | folding the events of consecutive chunks equals folding their concatenation |
| Usage.AccumulateEvents | claude-proxy.js:125-131 | the `forEach` over a chunk's events ends with the fold of those events |
| Usage.StreamEvents | claude-proxy.js:112-124 | every event of a response comes from the parse of one of its chunks |
| Usage.StreamEventsSingle | claude-proxy.js:112-124 | one chunk contributes exactly the events parsed from it |
| Usage.StreamEventsAppend | claude-proxy.js:112-124 | the events of consecutive runs of chunks are those of each run, one after the other |
| Usage.BodyTokens | claude-proxy.js:145-155 | a plain body that parses and has truthy `usage` sets both fields from it (possibly to undefined); otherwise the fields are unchanged |
| Reputation.RecordError | claude-api-proxy.js:135-149 | a new counter starts as count 1 with both times `now`; an existing one gains exactly one error, `lastError = now` and the new type, and keeps `firstError`; the IP is banned, and a save requested, exactly when count >= 10 and `now - firstError` <= 24 h; no other counter changes and nothing leaves the ban set |
| Reputation.Cleanup | claude-api-proxy.js:151-163 | exactly the counters with `now - lastError` > 24 h are deleted, the others and the ban set are kept, and a save is requested exactly when something was deleted |
| Reputation.ClearOnSuccess | claude-api-proxy.js:309-313 | the IP's counter is removed, every other counter and the ban set are kept, and a save is requested exactly when a counter existed |
| Reputation.IpReputation.constructor | claude-api-proxy.js:39 | starts with no bans, no counters and no saves |
| Reputation.IpReputation.IsBanned | claude-api-proxy.js:185-188 | the ban check is membership in the ban set; after `RecordIPError` it holds exactly when it held before or the updated counter meets the ban rule, and the other methods leave it as it was (stated in their contracts) |
| Reputation.IpReputation.RecordIPError | claude-api-proxy.js:135-149 | the in-place update leaves the state equal to `RecordError` of the old state, with one save exactly when it bans; the ban check becomes true for this IP exactly when its updated counter meets the ban rule, and changes for no other IP |
| Reputation.IpReputation.CleanupIPErrorCounter | claude-api-proxy.js:151-163 | the `for...in` deletion loop with its `hasChanges` flag leaves the state equal to `Cleanup` of the old state, with at most one save, exactly when something was deleted; no ban check changes |
| Reputation.IpReputation.ClearError | claude-api-proxy.js:309-313 | the state becomes `ClearOnSuccess` of the old state, with one save exactly when a counter existed; no ban check changes |
| Reputation.BlacksOnlyGrow | claude-api-proxy.js:144-148 | over any run of errors, sweeps and successes, the ban set only grows |
| Reputation.StaysWellFormed | claude-api-proxy.js:137-142 | while time does not go backwards, every counter keeps count >= 1 and `firstError <= lastError <= now` |
| Reputation.CounterAfterErrors | claude-api-proxy.js:137-142 | after k errors from an IP with no counter, its counter holds count k, and its first error is the first of those errors |
| Reputation.RepeatedErrorsBan | claude-api-proxy.js:144-148 | ten or more errors in time order, all within 24 h of the first, from an IP with no counter, end with the IP banned |
| Reputation.StaleCounterNeverBans | claude-api-proxy.js:137-144 | errors that all come more than 24 h after a counter's first error each add one to it, never restart it, and never ban |
| ClaudeHandler.Validate | claude-api-proxy.js:202-221 | in this order: a pathname outside `/v1/messages` is `unsupported_path`, then a falsy `x-api-key` is `missing_api_key`, then a `/v1/messages/batches` path without `anthropic-beta` is `missing_beta_header`; each case holds exactly under its condition |
| ClaudeHandler.UpstreamHeaders | claude-api-proxy.js:232-239 | every upstream header is allow-listed or `host`; an allow-listed header is present exactly when truthy inbound, with its value copied verbatim; `host` is `api.anthropic.com` |
| ClaudeHandler.BuildUpstreamHeaders | claude-proxy.js:80-87 | the `forEach` that fills the options headers, then the forced `host`, builds exactly that map |
| ClaudeHandler.Decide | claude-api-proxy.js:173-256 | preflight comes first in the standalone handler, then the ban check, then validation; a request with a JSON body fails only when the body does not parse; a forwarded request keeps method and path, carries the filtered headers, writes a body unless GET or HEAD, and logs the parsed body as params |
| ClaudeHandler.Relay | claude-proxy.js:106-155 | the client status is `statusCode` or 500, and the token fields end as events folded chunk by chunk for an event stream, or as the one read of the buffered body otherwise |
| ClaudeHandler.Forwarded | claude-api-proxy.js:259-327 | a forwarded request is always answered with a non-zero status and logged; a transport error answers 500 and logs its message; a completed one keeps the log's error; the logged time is the exchange end minus the start; only time, tokens and error of the log change |
| ClaudeHandler.Outcome | claude-api-proxy.js:173-327 | a log record exists exactly for forwarded requests; any other request is answered 204 or with a status from 400 to 404 |
| ClaudeHandler.Effect | claude-api-proxy.js:203-313 | a save is requested only for a validation failure or a completed exchange of the standalone handler, and a save on a validation failure means the IP is banned |
| ClaudeHandler.HandleRequest | claude-api-proxy.js:168-334 | the response and log are those of `Decide`'s outcome, and the reputation state changes only as `Effect` says: one recorded error for a validation failure, the counter cleared on completion in the standalone handler, nothing otherwise |
| ClaudeHandler.RelayExchange | claude-api-proxy.js:258-327 | a transport error answers 500 and logs its message; a completed response logs the elapsed time and tokens and, in the standalone handler only, clears the IP's counter |
| ClaudeHandler.PreflightBeforeBan | claude-api-proxy.js:173-189 | OPTIONS gets 204 from the standalone handler even from a banned IP, and nothing is recorded |
| ClaudeHandler.BannedIsTurnedAway | claude-api-proxy.js:185-189 | any other request from a banned IP gets 403 before validation, with no log and no change to counters or bans |
| ClaudeHandler.LogOnlyForForwarded | claude-api-proxy.js:315-326 | a log record is written exactly for forwarded requests; its error is set exactly on a transport failure; it carries the source IP, the path and the parsed params |
| ClaudeHandler.OnlyRejectionsCount | claude-api-proxy.js:203-221 | only a validation failure can ban, and it adds exactly one error to the IP's count; every other outcome keeps every other IP's counter as it was and removes at most the IP's own; an invalid JSON body, a ban, a preflight or a transport error leave the state exactly as it was; no outcome lifts a ban |
| ClaudeHandler.InjectedNeverClears | claude-proxy.js:136-158 | the handler module never removes an error counter |
| ClaudeHandler.CompletionClears | claude-api-proxy.js:309-313 | a forwarded request that completes, whatever the upstream status, leaves the IP with no counter in the standalone handler |
| ClaudeHandler.RejectedNeverForwarded | claude-proxy.js:50-87 | a forwarded request has a supported path, a truthy API key, the beta header when it targets batches, and passes its API key upstream unchanged |
| RateLimit.Admit | test/rateLimit.test.js:9-16 | a missing window, or one at least `interval` old, is replaced by a fresh window holding this call, which is allowed; otherwise the count goes up by one and the call is limited exactly when the new count exceeds the limit |
| RateLimit.CountWithinWindow | test/rateLimit.test.js:9-11 | calls inside one window keep counting from its count, and each is limited exactly when the count before it had reached the limit |
| RateLimit.FirstLimitCallsAdmitted | test/rateLimit.test.js:6-11 | in a fresh window, call i (from 0) is limited exactly when i > 0 and i >= limit, so the first `limit` calls pass and the rest are refused |
| RateLimit.WindowResets | test/rateLimit.test.js:13-16 | once `interval` has passed since the window opened, the next call is allowed and opens a new window |
| RateLimit.RateLimiter.constructor | test/rateLimit.test.js:6 | a limiter is built from a request limit and an interval, with no windows |
| RateLimit.RateLimiter.IsRateLimited | app.js:52 | the answer is `Admit` of the client's window, and only that client's window changes |
| RateLimit.LimiterScenario | test/rateLimit.test.js:5-17 | with limit 2 per 1000 ms, the first two calls pass, a third within the second is limited, and a call 1000 ms after the first passes again |
| App.Dispatch | app.js:25-69 | OPTIONS gets 204 first; a path exactly `/ping` gets 200; then a ban gets 403, then a limited call 429; then a `claude.api.` host goes to the Claude handler, `openai.api.` to the OpenAI handler, another non-empty host 404, a missing or empty host 400; each outcome holds exactly under its condition |
| App.Status | app.js:25-69 | the callback answers by itself exactly for the routes other than the two API handlers, always with one of 200, 204, 400, 403, 404, 429 |
| App.DispatchStatus | app.js:25-69 | 204 exactly for OPTIONS, 200 exactly for `/ping`, then 403 exactly for a banned IP, 429 exactly for a limited one, 400 exactly for a routed request without a host name; the handler answers exactly when the host has a known prefix |
| App.Serve | app.js:25-69 | the callback answers as `Dispatch`; the limiter is consulted and changed only when the request passes the OPTIONS, `/ping` and ban steps |
| App.BannedSpendsNoBudget | app.js:45-55 | a banned IP gets 403 and never reaches the limiter |
| App.HandlersOnlyAfterAdmission | app.js:56-68 | an API handler runs only for a request that is not preflight or `/ping`, not banned and not limited |
| Config.GetConfigValue | config.js:3-17 | a defined environment variable wins, even when empty; otherwise the element after the first exact `--KEY` in argv; otherwise, or when `--KEY` is last, the default |
| Config.OnlyExactFlag | config.js:10 | without an exact `--KEY` token (so `--KEY=value` does not count), the default is returned |
| Config.EnvironmentFirst | config.js:5-7 | an environment value is returned whatever argv holds |
| LogFile.Digits | utils.js:31 | `String(n)` of a natural number is a non-empty digit string with no leading zero |
| LogFile.DecimalRoundTrip | utils.js:31 | `String(year)` reads back to the year, negative years included |
| LogFile.TwoDigitsRoundTrip | utils.js:32-33 | a month or day padded with `0` is two digits that read back to the number |
| LogFile.GenerateLogFileName | utils.js:29-35 | the name is `String(year)` followed by `-`, two digits reading as the 1-based month, `-`, two digits reading as the day, and `.log` |
| LogFile.LogFileNameRoundTrip | utils.js:29-35 | the name reads back to the year, the 1-based month (in 1..12) and the day |
| LogFile.SameFileSameDate | utils.js:38 | two dates share a log file exactly when they are the same date |
| LogFile.EntriesSplitBack | utils.js:40 | a file of appended newline-free entries splits on `\n` into those entries and one empty trailing piece |
| LogFile.LogDirectory.WriteLog | utils.js:37-47 | the entry `JSON + "\n"` is appended to that date's file, created if absent, and no other file changes |
| LogFile.WritesOnlyAppend | utils.js:37-47 | after any writes, each file holds its old contents followed by the entries written on its date, in order; a file no write fell on is untouched |

## Left out

- HTTP I/O is not modelled. That covers sockets, `listen`, `https.request`,
  byte-for-byte streaming with `res.write`/`writeHead`/`end`, CORS headers
  and the JSON error bodies of `sendResponse`. Only the status answered and
  the log record written are modelled.
- A failed write to the client (`claudeReq.destroy`) is not modelled. An
  exchange is either a transport error or a completed response, never a
  response that is cut off by an error.
- File persistence is not modelled: `loadIPData`, the file write of
  `saveIPData`, `fs.mkdirSync`, and the file writes of both `writeLog`s.
  A save is counted in `saveRequests`, and appends to a log file are a map
  from file name to contents.
- The standalone handler's own log file name (`claude-api-proxy.js:85-90`)
  depends on `crypto.randomBytes`. Its pretty-printed log file is not
  modelled; the handler's log record is.
- `logger` output and `logger.formatDate` are console I/O.
- Clocks and timers are parameters. `setInterval` does not schedule
  `cleanupIPErrorCounter`; a sweep is an operation in a run.
- `JSON.parse` and `JSON.stringify` are parameters. Decoding a `Buffer`
  chunk to text (`chunk.toString()`) is not modelled; chunks are strings.
- Numbers are unbounded integers. Floating point and NaN are not modelled.
- Property access on arrays and strings (such as `.length`) gives undefined
  in the model; only object fields are looked up. Only own properties are
  modelled: an inherited prototype property such as `constructor` or
  `toString` reads as undefined here, while JavaScript would find it.
- The `parseInt` coercions and the exported settings object of `config.js`
  are library number parsing.
- LogFile.GenerateLogFileName: requires a month index in 0..11 and a day in
  1..31, which is what `Date` yields; an invalid date (NaN fields) is not
  modelled.
- Concurrency is not modelled. Each handler step is atomic, and the
  interleaving of requests on the event loop is out of scope.
- `rateLimit.js` is not part of this model. The limiter is assumed to be a
  fixed window consistent with its unit test, built from a limit and an
  interval as parameters.
- RateLimit.Admit: the unit test pins only four answers at limit 2 and
  1000 ms. These choices are assumed and not derived from it: a window
  restarts once `now - windowStart >= interval` (rather than sliding);
  limited calls are counted too; a call is limited exactly when the count
  before it has reached the limit, for every limit; and idle windows never
  expire from the map.
- `ipManager.js` and `openai-proxy.js` are not part of this model. The
  handler module's injected `recordIPError` is modelled by the same
  `Reputation.IpReputation` state; the OpenAI route ends at `App.OpenAiApi`.
- `server.js` refers to an undefined `app`, and `black-proxy.js` is an
  empty stub; neither is modelled.
- Two wiring mismatches are not reproduced. `app.js:60` passes a bare
  function where `claude-proxy.js:34` destructures an options object; the
  model gives the handler its collaborators directly. `app.js:20` reads
  limiter settings that `config.js` exports under other names; the model
  takes the limit and interval as parameters.
