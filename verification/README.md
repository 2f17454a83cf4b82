# k6-ui job runner — a Dafny model

k6-ui is a small web front end for the k6 load-testing tool. A browser page
collects a test configuration: a load profile, a number of virtual users, a
duration, an optional ramp-up time, a list of URLs, an HTTP method and a block
of `Key: Value` header lines. It posts the configuration to a Node server. The
server turns it into a k6 script, starts `k6 run` on that script, and pushes
the output to every browser connected on a WebSocket:
- stdout, coalesced into batches: the buffer is pushed whole once it holds a
  line break anywhere;
- stderr, chunk by chunk;
- at the end, the parsed `summary.json`.

A cancel request kills the running process.

This project models the core of that system and proves properties of it. It
covers two parts.

**The server (`server.js`):**
- the script generator (`script.dfy`, with `json.dfy` for `JSON.stringify`
  of the header object);
- the supervisor (`supervisor.dfy`). It keeps at most one k6 process in
  `currentK6Process`, which every close event sets back to null, gives each
  run its own stdout buffer, broadcasts only to open connections, and handles
  the close and cancel events.

**The client (`src/App.js`):**
- the run log with its de-duplication of repeated lines;
- the interpretation of each pushed message;
- the summary table;
- the duration and ramp-up fields;
- the URL list;
- the header-text parser (`client.dfy`, with `headers.dfy`).

`text.dfy` holds the JavaScript string built-ins these rely on: `trim`,
`split` and `join` on one character, and the decimal rendering of an integer.
`protocol.dfy` holds the pushed messages.

Two kinds of code take two forms:
- The pure parts are datatypes, functions and lemmas. This covers the
  generator, the coalescing step, summary extraction, the URL helpers and the
  header reduce.
- The stateful parts are classes whose methods update fields:
  - the server's module-level handle and per-run buffers (`Supervisor.Server`);
  - the page's React state (`Client.App`).

  Their loops carry invariants:
  - the broadcast `forEach` over connections;
  - the `forEach` over the lines of an `output` message;
  - the `reduce` over header lines.

A process is an abstract token (`Pid`). The server logs the signals it sends,
and every message delivery, so that "kill before spawn" and "sent exactly once
to each open connection" can be stated.

The server and the page are modelled as written, defects included. Each
defect listed under Findings also has a corrected definition, with the
intended property proved about it beside the as-written code.

## Model

| member | source | states |
|---|---|---|
| ScriptGen.Generate | server.js:36-97 | `"ramp-up"` gives exactly two stages: the ramp-up time, then `duration - rampUpDuration`. They sum to `duration` when the ramp-up is a number, and the second is `NaN` when it is undefined. Both target `users`. Every other profile gives the flat `vus = users`, `duration = duration` stanza and no stages. There is one block per URL, in the order of `urls`, each making the request chosen by the method. The header declaration is present exactly when `headers` is present with at least one key, and then holds that object. |
| ScriptGen.StepIsConstant | server.js:45-51 | The `"step"` profile has no case of its own and gets the flat stanza. |
| ScriptGen.Blocks | server.js:87-96 | `urls.map` yields one block per URL, at the URL's index, all with the same request. |
| ScriptGen.UndeclaredHeaders | server.js:54-71 | With no header object, or an empty one, a GET or POST script still passes `headers` to every request but never declares it. |
| ScriptGen.RenderOptions | server.js:36-52 | The ramp-up stanza is a `stages: [` … `],` list. The flat stanza starts with `vus: <users>,` and ends with `duration: '<duration>s',`. |
| ScriptGen.RenderHeaders | server.js:54-59 | Without a header object the declaration is empty. With one it is `const headers = ` followed by JSON that reads back as that object. |
| ScriptGen.RenderRequest | server.js:61-71 | A method other than GET or POST renders `undefined`, and only such a method does. GET renders an `http.get(url` call and POST a `payload` declaration then an `http.post` call. Both end by passing `{ headers: headers }`. |
| ScriptGen.RenderBlock | server.js:89-94 | Each block starts by binding `const url` to its URL and ends with the one-second sleep. |
| ScriptGen.Layout | server.js:73-98 | The script text starts with the two k6 imports followed by the header declaration. It ends with the body of the default function, then `};`. |
| ScriptGen.Render | server.js:73-98 | The script starts with the imports and the header declaration, and ends with the rendered blocks closing the default function. |
| ScriptGen.Declares | server.js:61-71 | The names one block declares: `url` first; `res` exactly when the method is GET or POST; no name twice. |
| ScriptGen.RenderPart | server.js:86-96 | A piece of the body is a block written as is, starting with its `const url` line, or a block wrapped in braces `{ … }` of its own. |
| ScriptGen.Parts | server.js:86-96 | The blocks as pieces of a body, one per block in the same order, all plain or all in braces. |
| ScriptGen.OuterDeclares | server.js:86-96 | The names declared directly in the function body: a plain block's names land there, a braced block's do not. The first plain block's names come first. |
| ScriptGen.InnerScopes | server.js:86-96 | The inner scopes opened by braced pieces, with the names each declares; there are no more of them than pieces. |
| ScriptGen.RenderPlainParts | server.js:86-96 | The body the generator writes is its blocks rendered as plain pieces. |
| ScriptGen.RedeclaredUrl | server.js:86-96 | With two or more URLs, the body the generator renders, read as plain pieces, declares `url` twice in the function's own scope. |
| ScriptGen.UndeclaredRes | server.js:61-71 | With a method other than GET or POST, a block reads `res` in `check(res, …)` without declaring it. |
| ScriptGen.RenderScoped | server.js:73-98 | The corrected script: the same imports, header declaration and options, and a body made of the blocks in braces. |
| ScriptGen.ScopedDeclaresOnce | server.js:86-96 | In the body the corrected script renders, the function body declares no name, each block opens one scope with that block's names, and no scope declares a name twice. |
| ScriptGen.GenerateDeclaringHeaders | server.js:54-59 | The corrected generator always declares the header object, as `{}` when there is none. So whenever a block passes `headers` to a request, `headers` is declared (`HeadersDeclared`). Options and blocks are those of `Generate`, and the script equals `Generate`'s whenever headers are non-empty. |
| ScriptGen.RenderBlocksAppend | server.js:87-96 | The script body is the rendered blocks one after another (`.join("")`). Rendering distributes over concatenation, so blocks keep the order of the URLs. |
| ScriptGen.RenderedBodyAppend | server.js:87-96 | Adding a URL at the end adds its block at the end of the rendered body. |
| ScriptGen.HeaderDeclarationReadsBack | server.js:55-58 | The header declaration is `const headers = ` followed by the JSON of the object. That JSON reads back as the same keys and values in the same order. |
| Json.StringifyRoundTrip | server.js:57 | `JSON.stringify` of an object with string values loses nothing: parsing the text gives back the same members in the same order. |
| Json.QuoteRoundTrip | server.js:57 | A JSON string literal, with `"`, `\` and control characters escaped, reads back as the original string. |
| Json.ReadMemberRoundTrip | server.js:57 | One `"key":"value"` member reads back as its key and value, and reading stops right after it. |
| Json.ParseMembersRoundTrip | server.js:57 | The comma-separated members followed by `}` read back as the same list of members. |
| Json.ParseEscapeChar | server.js:57 | Each escaped character reads back as itself. This includes `\u00XX` for the other control characters. |
| Json.Stringify | server.js:57 | The JSON of the header object is wrapped in `{` and `}`, and it is `{}` exactly for an object with no members. |
| Text.IntToStringRoundTrip | server.js:40-49 | The decimal text a template string gives an integer (users, durations) reads back as the same integer. |
| Supervisor.Deliveries | server.js:117-121 | There are no more deliveries than connections. When the last connection is open, the last delivery is the message to that connection, so deliveries follow the clients' order. |
| Supervisor.DeliveredToOpen | server.js:117-121 | A message goes to a connection exactly when that connection is among the clients and its state is `OPEN`. There are no more deliveries than connections. |
| Supervisor.DeliveredOnce | server.js:117-121 | With distinct connections, each open connection receives the message exactly once, and every other connection receives it zero times. |
| Supervisor.Server.Broadcast | server.js:165-171 | The `forEach` loop appends exactly the deliveries of `Deliveries`, in client order. It changes nothing but the delivery log, so the set of clients is unchanged. |
| Supervisor.SendBuffered | server.js:115-124 | A buffer whose `trim()` is non-empty (one that is not blank) is pushed whole and emptied. A blank one is kept as it is. Nothing is lost: the pushed text followed by the buffer left equals the old buffer. No non-blank line break is left waiting. |
| Supervisor.StdoutStep | server.js:126-131 | The chunk is appended to the buffer. If the buffer then holds a newline and is not blank, all of it is pushed and the buffer becomes empty. Otherwise it just grows by the chunk. Either way, no non-blank line break is left waiting. |
| Supervisor.FeedLossless | server.js:113-131 | Over any sequence of chunks, the pushed batches followed by the remaining buffer are exactly the initial buffer followed by all decoded chunks, in order. |
| Supervisor.FeedBatches | server.js:126-131 | Every batch pushed while the process runs holds a line break and is not blank. |
| Supervisor.RunTranscript | server.js:113-142 | Over a whole run (chunks, then the flush on close), all decoded chunks are pushed in order. At most a blank remainder is left behind. |
| Supervisor.ClearHandle | server.js:141-143 | The corrected close handler clears the handle only when the handle holds the process that closed. |
| Supervisor.CloseKeepsSingleFlight | server.js:141-143 | With the corrected clearing, the close of any process keeps the single-flight invariant: the handle holds exactly the processes started and neither killed nor exited. |
| Supervisor.StartKeepsSingleFlight | server.js:103-111 | Killing the held process, if any, and holding the new one keeps the single-flight invariant. |
| Supervisor.CancelKeepsSingleFlight | server.js:162-164 | A cancel keeps the single-flight invariant and leaves no process running. |
| Supervisor.CloseKeepsHandleLive | server.js:141-143 | The close handler as written keeps only the weaker invariant: the handle, when not null, holds a running process. |
| Supervisor.StartKeepsHandleLive | server.js:103-111 | A start leaves the handle holding the new process, which is running. |
| Supervisor.SupersededCloseDropsLiveRun | server.js:103-143 | As written, the close of a run that a newer run replaced sets the handle to null while the newer process is still running. This breaks the single-flight invariant. |
| Supervisor.SupersededRunsOverlap | server.js:103-176 | The sequence start 1, start 2, close of 1, cancel, start 3 on the server as written: the cancel replies 400, the third start kills nothing, and runs 2 and 3 are both running. |
| Supervisor.CancelledRunStillAnnounces | server.js:103-176 | The sequence start 1, cancel, a line on run 1's stdout, close of run 1 with a readable summary, on the server as written: the clients get the cancellation, then the line, then the summary. The cancel replies "Test cancelled" and the run request replies "Test completed". |
| Supervisor.CancelledRunCorrected | server.js:103-176 | The same sequence with the corrected close handler: the clients get the cancellation and the line, and no summary at all. |
| Supervisor.Server.constructor | server.js:18-20 | No process is held, no script has been written, and nothing has been sent or signalled. |
| Supervisor.Server.BroadcastAny | server.js:115-156 | Sends an optional message: nothing when there is none, else exactly the deliveries of `Deliveries`. |
| Supervisor.Server.WriteScript | server.js:100-101 | The script written is the one `Generate` makes for the configuration. |
| Supervisor.Server.Start | server.js:100-113 | Writes the script `Generate` makes for the configuration. Kills the running process, if any, before spawning the new one: the signal log gains `Kill(old)` then `Spawn(new)`. Holds only the new handle, with a fresh empty buffer. The handle then holds a running process. |
| Supervisor.Server.Launch | server.js:103-113 | The handle now holds only the new process. The process held before, if any, counts as killed. The new run gets an empty buffer. |
| Supervisor.Server.SetBuffer | server.js:122-127 | Stores a run's buffer and changes no other run's buffer. |
| Supervisor.Server.Exit | server.js:141-143 | The process counts as exited, and the handle is set to null whichever process it held. |
| Supervisor.Server.OnStdout | server.js:126-131 | For a process that has not closed: applies `StdoutStep` to that run's own buffer. If something was pushed, broadcasts it as one `output` message. |
| Supervisor.Server.OnStderr | server.js:133-139 | Forwards each stderr chunk at once as an `error` message to every open connection. |
| Supervisor.Server.OnClose | server.js:141-158 | Flushes the run's buffer as an `output` message. Sets the handle to null, even when it holds a newer run. Announces the summary when it could be read. Always replies "Test completed". |
| Supervisor.AnnouncedUnlessKilled | server.js:143-155 | The corrected announcement: a summary goes out exactly when the process was never sent a kill and the summary file could be read, and it is that file's content. |
| Supervisor.Server.OnCloseCorrected | server.js:140-158 | The close handler with the corrected announcement. The new deliveries are the flushed buffer, then the summary unless the process was killed. When it was killed, no new delivery is a summary. |
| Supervisor.Server.Cancel | server.js:161-176 | With a process held: kills it, clears the handle, removes it from the running processes, sends exactly one `cancelled` "Test cancelled by user" to each open connection, and replies "Test cancelled". With none held: replies 400 "No test is currently running" and changes nothing. |
| Headers.Lookup | src/App.js:204 | A key found maps to its value in the object. A key not found is carried by no member. |
| Headers.Assign | src/App.js:204 | `acc[key] = value`: afterwards the key maps to the value. An existing key keeps its position and the key order is unchanged. A new key is appended last. No other member appears. |
| Headers.AssignKeepsOthers | src/App.js:204 | Assigning one key leaves the value of every other key unchanged. |
| Headers.AssignDistinct | src/App.js:204 | Assigning keeps the keys distinct. |
| Headers.Apply | src/App.js:203-205 | A line that parses to a pair sets that key to that value and adds at most one member. A line that does not parse leaves the object as it is. |
| Headers.Fold | src/App.js:202-206 | The reduced object has no more members than there are lines. |
| Headers.ApplyKeepsOthers | src/App.js:203-205 | A line that sets another key leaves the value of this key unchanged. |
| Headers.FoldDistinct | src/App.js:202-206 | The reduced header object never holds a key twice. |
| Headers.FoldFindsLast | src/App.js:202-206 | The value of a key is the one from the last line that sets it: a later line overwrites an earlier one. |
| Headers.FoldUndefined | src/App.js:202-206 | A key that no line sets is absent from the object. |
| Headers.FoldEntriesFromLines | src/App.js:202-206 | Every member of the object comes from some line of the text. |
| Headers.ParseLineAsWritten | src/App.js:203-204 | As written, a line is kept only when both the trimmed key and the trimmed value are non-empty. Only the first two `:`-pieces are used, so neither part holds a colon. |
| Headers.ParseLine | src/App.js:203-204 | The corrected line reader keeps everything after the first colon, trimmed, as the value. The key still holds no colon, and both parts are non-empty. |
| Headers.NoColonNoHeader | src/App.js:203-204 | A line without a colon sets no header: its value is `undefined`. |
| Headers.ParseLineAsWrittenOf | src/App.js:203-204 | For `key:value` with no colon in either part, the result is the trimmed pair when both parts are non-empty, and nothing otherwise. |
| Headers.ParseLineOf | src/App.js:203-204 | For `key:value` with any value, the corrected reader gives the trimmed key and the whole trimmed value. |
| Headers.ParseHeadersAsWritten | src/App.js:202-206 | The object the client sends has distinct keys. Every name and value is non-empty and holds no colon. There are no more members than lines. |
| Headers.HeadersNonEmpty | src/App.js:204 | Every header sent has a non-empty name and value. |
| Headers.BuildHeaders | src/App.js:202-206 | The `reduce` loop over the lines, with each line read as written, builds exactly the object `ParseHeadersAsWritten` describes. |
| Headers.ValueCutAtSecondColon | src/App.js:203 | For `key:head:tail` with no colon in `key` or `head`: as written, the result is the trimmed key and the trimmed `head` when both are non-empty, and nothing otherwise. The corrected reader keeps the whole trimmed `head:tail` whenever the key is non-empty. |
| Headers.CutAtSecondColon | src/App.js:203 | The as-written half of `ValueCutAtSecondColon`. |
| Headers.KeptWhole | src/App.js:203 | The corrected half of `ValueCutAtSecondColon`. |
| Headers.SpacedValueCut | src/App.js:26-27 | In the page's own `Key: Value` form, a value whose first word is followed by a colon is sent as that word only. |
| Headers.HeaderValueTruncated | src/App.js:203 | Any line `Referer: http:<rest>`, such as `Referer: http://example.com`, is sent as `Referer` = `http`. |
| Text.Trim | src/App.js:115-116 | `trim` gives a string that is empty exactly when the input is blank. The result has no white space at either end and only characters of the input. |
| Text.TrimInfix | src/App.js:115-116 | The trimmed string is the part of the input between a blank prefix and a blank suffix, so trimming removes white space at the ends only. |
| Text.TrimIdempotent | src/App.js:115-116 | A trimmed line trims to itself. |
| Text.Split | src/App.js:114 | `split` on one character always gives at least one piece, and no piece holds the separator. |
| Text.Join | src/App.js:114 | `join` starts with the first piece, followed by the separator when there are more pieces. A single piece is joined to itself. |
| Text.JoinSplit | src/App.js:114 | Splitting on `\n` loses nothing: joining the pieces gives the text back. |
| Text.SplitJoin | src/App.js:114 | Splitting lines that were joined with `\n` gives the lines back. |
| Client.WithRunInfoAppends | src/App.js:39-50 | The log is unchanged exactly when its last message already equals the new one. Otherwise exactly one entry (time, info) is appended. Afterwards the log is non-empty, its last message is `info`, and all earlier entries are unchanged. |
| Client.WithRunInfo | src/App.js:40-49 | After `addRunInfo` the log is non-empty, ends with the new text, and has grown by at most one entry. |
| Client.WithRunInfoNoRepeats | src/App.js:42-48 | No two neighbouring log lines ever carry the same text. |
| Client.CollapseStep | src/App.js:39-50 | One more `addRunInfo` extends a collapsed log by collapsing one more text. |
| Client.AddAllCollapses | src/App.js:39-50 | Logging a batch of texts one by one equals collapsing every run of equal neighbouring texts into one, across the end of the old log too. |
| Client.KeepLinesTrimmed | src/App.js:114-118 | Every line logged is non-empty and has no white space at either end. |
| Client.KeepLines | src/App.js:114-118 | At most one kept line per line. A last line that is not blank is kept last, trimmed. A blank last line adds nothing. |
| Client.OutputLines | src/App.js:114-118 | At most one logged line per line of the message. A message without a line break logs its trimmed text, or nothing when it is blank. |
| Client.LogAllLinesIsAddAll | src/App.js:113-118 | Running the `forEach` callback on each line in turn equals one `addRunInfo` per kept line, in order. |
| Client.KeepLinesAppend | src/App.js:114-118 | Lines are kept or dropped one at a time, so kept lines stay in their original order. |
| Client.KeepLine | src/App.js:115-116 | A single line is kept exactly when it is not blank, and then in trimmed form. |
| Client.OutputOfLines | src/App.js:113-118 | An `output` message made of newline-joined lines logs exactly the kept lines, in order. |
| Client.FailedPercentage | src/App.js:63-68 | `fails / count * 100`: for a positive count, the percentage times the count is 100 times `fails`. For zero requests the result is `NaN` (`fails` is 0) or `Infinity`. |
| Client.ProcessTestSummary | src/App.js:52-85 | Missing metrics make all three fields "Error". Otherwise each field falls back to "N/A" exactly when its own metrics are missing: `requestsMade` needs `http_reqs`, `avgResponseTime` needs `http_req_duration`, and `failedResponses` needs both `http_reqs` and `http_req_failed`. When present, the fields are the request count, the average, and the failure percentage `FailedPercentage(fails, count)` with the `%` suffix. |
| Client.SummaryFieldsIndependent | src/App.js:59-69 | Each summary field depends only on the metrics it is computed from. |
| Client.FivePercentFailed | src/App.js:59-76 | A `fails` of 5 with 100 requests is shown as 5 percent, with the request count 100. |
| Client.HalfDuration | src/App.js:166 | `Math.floor(d / 2)` is the `r` with `2r <= d < 2r + 2`, negative durations included. |
| Client.WithNewUrl | src/App.js:174-176 | Adding a URL appends `""` and leaves the others as they were. |
| Client.WithoutUrlAt | src/App.js:184-187 | Removing index `i` deletes exactly that element and keeps the order of the rest. An index outside the list changes nothing. |
| Client.App.constructor | src/App.js:15-30 | The initial state: constant profile, 1 user, 5 s, ramp-up 2.5 s, one sample URL, GET, two sample header lines, empty log, status "idle", no summary. |
| Client.App.AddRunInfo | src/App.js:39-50 | Replaces the log by `WithRunInfo` of it, and keeps the no-repeat invariant. |
| Client.App.LogLine | src/App.js:115-116 | One line of an `output` message is logged trimmed when it is not blank, and otherwise changes nothing. The no-repeat invariant is kept. |
| Client.App.LogOutput | src/App.js:113-118 | The `forEach` over the lines of an `output` message leaves exactly the log of adding each kept line in turn. |
| Client.App.OnMessage | src/App.js:109-140 | The message types have these effects, and keep the no-repeat invariant: `output` logs its lines; `error` logs `Error: <data>`; `summary` logs "Test completed", sets status "completed", clears the running flag and stores the processed summary; `cancelled` logs its text, clears the running flag and sets status "cancelled"; any other type changes nothing. |
| Client.CancelledThenSummary | src/App.js:109-133 | A cancellation, then a line and a summary: the page ends with status "completed", not running, and the summary table filled from that summary. |
| Client.App.UpdateDurationAndRampUp | src/App.js:164-167 | Sets the duration, and sets the ramp-up to half of it, rounded down. |
| Client.App.AddUrl | src/App.js:174-176 | Appends an empty URL. |
| Client.App.ChangeUrl | src/App.js:178-182 | Writes the value at the index of a copy and stores the copy. The length is kept and only that element changes. |
| Client.App.RemoveUrl | src/App.js:184-187 | Removes exactly the element at the index. |
| Client.App.HeadersObject | src/App.js:202-206 | The header object sent with a run is the one the client as written parses from the header text, and its keys are distinct. |

## Left out

- Express routing, CORS, the HTTP listener and the JSON encoding of pushed
  messages are framework I/O. A reply is a `Reply` value, and a pushed message
  is a `Message` value.
- `spawn`, `kill` and the k6 engine are a foreign process. A process is a
  fresh `Pid` chosen by the caller of `Supervisor.Server.Start`. A kill is
  recorded in the signal log. When a process closes is up to the caller of
  `OnClose`.
- Writing `k6-script.js` is file I/O. `Supervisor.Server.script` holds the
  script in its intermediate form, and its text is `ScriptGen.Render` of it.
- Reading `summary.json` and `JSON.parse` are file I/O and a library call.
  `OnClose` receives the parsed artifact, or `None` when the file cannot be
  read. In that case nothing is announced but the reply is still sent.
- `Supervisor.Server.OnClose`: the summary is read asynchronously in the
  source. The model announces it within the close event, so other events
  cannot interleave with the read.
- Interleaving of stdout, stderr and close events, and of several HTTP
  requests, is concurrency. Each handler is one sequential method call. A
  `data` event after the `close` event of the same process cannot happen, so
  `OnStdout` requires a process that has not closed.
- `Supervisor.Server.Valid` keeps only the weaker invariant of the code as
  written: the handle, when not null, holds a running process. The
  single-flight invariant holds only with the corrected close handler; see
  Findings.
- `Supervisor.StdoutStep`, `Supervisor.Server.OnStdout` and
  `Supervisor.Server.OnStderr` take each chunk as already-decoded text. The
  server decodes each stdout and stderr Buffer on its own with
  `data.toString()`. A multi-byte UTF-8 character split across two chunks
  therefore reaches the clients as U+FFFD, and that per-chunk decoding is not
  modelled. `Supervisor.FeedLossless` and `Supervisor.RunTranscript` are about
  the decoded chunks. Strings are sequences of Unicode scalar values, not
  UTF-16 code units. `Json.Escape` therefore covers scalar values only, and
  the `\uXXXX` escape `JSON.stringify` writes for a lone surrogate is outside
  the model.
- The WebSocket server's registry of connections is not modelled.
  `Supervisor.Server.clients` is fixed at construction. Each connection has a
  fixed `readyState`. Connecting, disconnecting and reconnecting are not
  modelled, and neither is the browser's reconnect timer.
- `toFixed(2)` and floating-point rounding are left out. Averages and
  percentages are exact reals, with `NaN` and `Infinity` for division by zero.
- A summary whose metrics exist but lack some of `count`, `avg` and `fails`
  is not modelled, because the artifact model always carries those values.
  The source treats the three differently. A missing `avg` throws in
  `toFixed`, and then every field shows "Error". A missing `count` leaves
  `requestsMade` undefined, and makes the failure percentage "NaN%" when
  `http_req_failed` is present. A missing `fails` makes the failure
  percentage "NaN%".
- Timestamps (`toLocaleTimeString`) are clock I/O. They are an opaque `time`
  argument. One time value serves every line that one message adds, where the
  source reads the clock once per line.
- `Text.IntToString`: integers are unbounded. JavaScript renders a number of
  1e21 or more in exponent form and loses precision above 2^53; neither is
  modelled.
- `Client.App.UpdateDurationAndRampUp` takes an integer. `parseInt` of
  non-numeric input (`NaN`) is not modelled.
- `ScriptGen.Config` holds integer seconds. The page's initial ramp-up of
  2.5 s would be rendered as `2.5s`, and that fractional value is not modelled.
- `Client.App.ChangeUrl` requires an index inside the list. The page only
  calls it for a rendered row. Writing past the end of a JavaScript array is
  not modelled.
- Object key order for integer-like keys and the special `__proto__` key is
  not modelled. Header names are kept in insertion order.
- JSX rendering, the scroll effect, the `fetch` calls of `handleRun` and
  `handleCancel`, and `jsonFile` (which the server ignores) are UI and network
  I/O.
- Input validation and the `"step"` profile: the code does not check the
  configuration. Every profile other than `"ramp-up"`, including `"step"`,
  gets the constant stanza, and a ramp-up longer than the duration gives a
  negative second stage. The model follows the code.

## Findings

| source | as written | input that shows it | evidently intended | confidence | as-written member | corrected member |
|---|---|---|---|---|---|---|
| server.js:141-143 | The close handler of every run sets `currentK6Process = null` | Start run 1, then start run 2 (run 1 is killed). Run 1's close event arrives and the handle becomes null while run 2 is still running. A cancel now replies 400. A third start kills nothing, so runs 2 and 3 both run. | Clear the handle only when it still holds the process that closed | high (not executed) | Supervisor.SupersededRunsOverlap | Supervisor.CloseKeepsSingleFlight |
| server.js:140-158 | `/cancel-test` kills the process and clears the handle, but the process's stdout and close handlers stay attached; on close the handler reads `summary.json`, sends a `summary` message and replies "Test completed" | Start run 1 and cancel it. Run 1 then writes a line and closes with a summary file in place. The clients get `cancelled`, then `output`, then `summary`, and the page's status goes from "cancelled" to "completed" (src/App.js:123-128). | A killed process announces no summary. The correction covers only the summary: output the killed process writes after the cancel is still pushed, and the run request is still answered "Test completed" | medium (not executed) | Supervisor.CancelledRunStillAnnounces | Supervisor.CancelledRunCorrected |
| src/App.js:203 | `const [key, value] = line.split(":")` keeps only the text up to a second colon | The header line `Referer: http://example.com` is sent as `Referer: http` | The value is everything after the first colon, trimmed | medium (not executed) | Headers.HeaderValueTruncated | Headers.KeptWhole |
| server.js:54-64 | `headers` is declared only for a non-empty header object, but every request passes `{ headers: headers }` | Empty header text, GET or POST, one URL: the script refers to an undeclared `headers` | Always declare the object, as `{}` when empty | high (not executed) | ScriptGen.UndeclaredHeaders | ScriptGen.GenerateDeclaringHeaders |
| server.js:86-96 | Every URL's block declares `const url` and `let res` directly in the body of the default function | Two URLs: the body declares `url` twice in one scope, which JavaScript rejects as a syntax error | Give each URL's block a scope of its own | medium (not executed) | ScriptGen.RedeclaredUrl | ScriptGen.ScopedDeclaresOnce |
