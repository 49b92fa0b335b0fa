# bolt.new route logic in Dafny

A Dafny model of three small pieces of sequential logic from the bolt.new
server and build configuration:

- **Segment continuation in the chat route** (`app/routes/api.chat.ts`).
  A chat answer is streamed to the client through one switchable stream.
  When a provider call stops because of its token ceiling (finish reason
  `"length"`), the route's `onFinish` handler does three things:
  - it appends the partial answer and a "continue" prompt to the history;
  - it calls the provider again with the same options;
  - it switches the new output into the same stream.

  Any other finish reason closes the stream. A `"length"` finish after
  `MAX_RESPONSE_SEGMENTS` switches is an error. Around the handler sits the
  request handling, which produces one of three responses:
  - 400 for a bad body;
  - 500 for a missing key or a failing first call;
  - 200 with the stream.
- **Stream-part text extraction in the enhancer route** (`app/routes/api.enhancer.ts`).
  Each chunk of the provider's data stream is split into lines. Every `0:`
  text part contributes the `value` of its JSON payload. The contributions
  are concatenated into one output chunk.
- **The Chrome 129 guard of the dev server** (`vite.config.ts`).
  A request is answered with an HTML notice when the first match of
  `Chrom(e|ium)/([0-9]+)\.` in its user agent has digits that read as 129.
  Otherwise it is passed on with `next()`.

Modules, one per component:

| file | module | what |
|---|---|---|
| `wrappers.dfy` | `Wrappers` | `Option`, `Result` |
| `switchable.dfy` | `Switchable` | the switchable stream, as the route observes it |
| `continuation.dfy` | `Continuation` | the `onFinish` transition, the first call, runs over completion events |
| `chat_route.dfy` | `ChatRoute` | body parsing, key check, error mapping, the whole chat action |
| `enhancer.dfy` | `Enhancer` | the per-chunk line transform and a one-pass scanner equal to it |
| `chrome129.dfy` | `Chrome129` | the user-agent scanner, its pattern-level characterisation, the middleware decision |

Assumptions and modelling choices:

- The implementation of the switchable stream is not part of this model.
  `switchSource` is assumed to append its source and to raise `switches` by
  exactly one. `close()` is assumed to change nothing but the close count.
  `closes` counts the calls to `close()`, so "closed exactly once" can be
  stated.
- The provider is an oracle. A run is driven by the sequence of completion
  events `(text, finishReason)` it delivers, one per call, in order. The
  source of call `i` is `Source(i)`.
- `MAX_RESPONSE_SEGMENTS` and `CONTINUE_PROMPT` come from files that are not
  part of this model. They are the parameters `Config.maxSegments` and
  `Config.continuePrompt`. The segment ceiling is any integer.
- The provider call log records the history each call was given at the
  moment it was issued. The route passes one mutable array to every call;
  the model takes a snapshot of it.
- `JSON.parse(payload).value || ''` is a parameter
  `ValueParser = string -> Option<string>`. `None` stands for a parse that
  throws or a falsy value.
- The process environment, the request body and the failure of the first
  provider call are inputs of `ChatRoute.ChatAction`.

Behaviour worth noting:

- The 400 response and the configuration 500 carry text bodies
  (`"Invalid JSON in request body"`, `"Server configuration error"`). The
  generic 500 for any other error has a null body.
- At the segment ceiling, the handler throws from inside the provider's
  callback. The route itself neither calls `close()` nor errors the stream.
  What the rejected callback does to the consumer stream depends on the
  provider client and the switchable stream, which are not modelled. The
  model's `LimitReached` outcome leaves the whole state untouched,
  including the close count.
- No transition switches in a source after closing, so attaching to a
  closed stream cannot happen. The stream's invalid-state error is
  therefore not modelled.
- There is exactly one `onFinish` handler value, so every continuation call
  reuses the first call's handler by construction. The contracts state the
  reuse of the whole options record, whose tool choice is the part that
  could differ.

## Model

| member | source | states |
|---|---|---|
| `Switchable.SwitchSource` | app/routes/api.chat.ts:75-85 | The assumed effect of each `switchSource` call: the switch count rises by exactly one, the new source is appended after the earlier ones, and the close count is unchanged. |
| `Switchable.Close` | app/routes/api.chat.ts:58-59 | The assumed effect of `close()`: the stream is closed, the close count rises by exactly one, and the switch count and attached sources are unchanged. |
| `Continuation.Start` | app/routes/api.chat.ts:78-85 | The first call uses the request's history with `toolChoice: 'none'` (the only handler value, the continuation one, comes with it). Its stream is the only attached source. The switch count is 1 and the stream is open. |
| `Continuation.OnFinish` | app/routes/api.chat.ts:57-76 | A non-`"length"` reason closes the stream exactly once and changes nothing else. `"length"` with `switches >= maxSegments` is an error that leaves the state unchanged: no call, no switch, no close. Otherwise three things happen. The history grows by exactly the assistant segment text and then the user continue prompt, with the earlier entries unchanged. One call with the same options record is issued over the new history. Exactly one source (that call's stream) is switched in. `switchesLeft` is at least 1 on this path. Consistency of counter, sources and call log is preserved. |
| `Continuation.Run` | app/routes/api.chat.ts:57-85 | Over any sequence of completion events, the history is append-only and grows by 2 per call issued. `close()` is called once on a clean end and never otherwise. The options never change. The switch count never passes `max(1, maxSegments)`. |
| `Continuation.Drive` | app/routes/api.chat.ts:57-76 | The handler chain as an explicit loop over the events gives the same final state as `Run`. The number of calls it issues equals the number of continuing events consumed. |
| `Continuation.RoundsThenFinish` | app/routes/api.chat.ts:58-75 | After k `"length"` events with room for k continuations, followed by another reason, the run ends cleanly. The history is the initial one plus, per round, the segment text and the continue prompt. Exactly k more sources are attached, in call order, and the stream is closed once. |
| `Continuation.ContinuationsAt` | app/routes/api.chat.ts:70-71 | The appended history alternates: the j-th segment text as an assistant message at 2j, the continue prompt as a user message at 2j+1. |
| `Continuation.CeilingAborts` | app/routes/api.chat.ts:62-64 | A provider that always reports `"length"` drives the switch count exactly up to `max(1, maxSegments)`. It then stops with the ceiling error, never closing the stream. |
| `Continuation.CallBound` | app/routes/api.chat.ts:62-85 | From the first call on, a request issues at most `max(1, maxSegments)` provider calls, whatever the provider reports. |
| `Continuation.ThreeSegments` | app/routes/api.chat.ts:57-85 | The worked example: a ceiling of 3 and the segments "Hello" (length), " world" (length) and "!" (stop). The run ends cleanly with 3 switches, sources 0, 1, 2, and history + [assistant "Hello", user prompt, assistant " world", user prompt]. |
| `ChatRoute.ReadMessages` | app/routes/api.chat.ts:20-28 | The body yields its messages exactly when it parses and `messages` is an array, and then it yields that array unchanged. A body that does not parse throws a plain error. A parsed body without a messages array throws the 400 "messages array is required" response. |
| `ChatRoute.ParseBody` | app/routes/api.chat.ts:19-35 | The body fails exactly when it is not valid JSON or its `messages` is not an array. Every failure, the route's own "messages array is required" 400 included, becomes the same 400 "Invalid JSON in request body" response. |
| `ChatRoute.StartStream` | app/routes/api.chat.ts:41-85 | Starting succeeds exactly when the key is present and non-empty and the first provider call does not fail. A missing or empty key throws the configuration 500 before any call. A failing first call throws a plain error. On success the controller is consistent, holds the request's history, has issued exactly the first call and has its stream as the only attached, open source. |
| `ChatRoute.HandleError` | app/routes/api.chat.ts:94-105 | A thrown response is passed on unchanged. Any other error becomes a 500 with a null body. |
| `ChatRoute.ChatAction` | app/routes/api.chat.ts:16-106 | The status is 400 exactly for a bad body, with no provider call and no source attached. It is 500 exactly for a good body with a missing or empty key (the configuration response, no call) or with a failing first call (null body). It is 200 otherwise. The 200 response streams `text/plain; charset=utf-8` with `no-cache`, and its controller has issued exactly the first call and attached its stream. |
| `ChatRoute.RequestCallBound` | app/routes/api.chat.ts:37-85 | For a request that was answered with 200, no sequence of provider events leads to more than `max(1, maxSegments)` provider calls. |
| `Enhancer.SplitLines` | app/routes/api.enhancer.ts:45 | `split('\n')` gives at least one piece, and no piece contains a newline. `SplitJoin` and `JoinSplit` state that it is the inverse of joining with newlines. |
| `Enhancer.LineText` | app/routes/api.enhancer.ts:47-58 | A line contributes something only if it is a text part, and what it contributes is then exactly the parsed `value`. `TextPartYieldsValue` states the converse: a truthy value is always contributed, anything else gives `""`. |
| `Enhancer.TransformChunk` | app/routes/api.enhancer.ts:43-59 | The whole per-chunk transform. Its behaviour is stated by `Characterization` (the output is the in-order concatenation of the non-empty lines' contributions), `TransformAtNewline` and `TransformOneLine`. |
| `Enhancer.SplitJoin` | app/routes/api.enhancer.ts:45 | Joining the pieces of `split('\n')` with newlines gives back the chunk. |
| `Enhancer.JoinSplit` | app/routes/api.enhancer.ts:45 | Splitting the newline-join of newline-free lines gives back those lines. |
| `Enhancer.TransformAtNewline` | app/routes/api.enhancer.ts:43-59 | The output for `a + "\n" + b` is the output for `a` followed by the output for `b`. Lines contribute independently, in order, with no separator. |
| `Enhancer.TransformOneLine` | app/routes/api.enhancer.ts:46-58 | A chunk without a newline yields exactly its one line's contribution. An empty line yields nothing, and a line not starting with `0:` yields `""`. |
| `Enhancer.TextPartYieldsValue` | app/routes/api.enhancer.ts:50-57 | A `0:` line yields the parsed value when there is a truthy one. It yields `""` when parsing fails or the value is falsy. |
| `Enhancer.EmptyLinesContributeNothing` | app/routes/api.enhancer.ts:46 | Dropping empty lines does not change the output. |
| `Enhancer.Characterization` | app/routes/api.enhancer.ts:43-59 | The output for the newline-join of some lines is the in-order concatenation of the lines' contributions. |
| `Enhancer.NoTextPartNoOutput` | app/routes/api.enhancer.ts:50-54 | A chunk none of whose lines starts with `0:` yields the empty chunk. |
| `Enhancer.ExtractText` | app/routes/api.enhancer.ts:42-61 | A single left-to-right pass that emits each line's contribution at its newline computes exactly the split/filter/map/join output. |
| `Enhancer.TransformStream` | app/routes/api.enhancer.ts:41-63 | Every input chunk gives exactly one output chunk, possibly empty, and each output chunk depends on its own input chunk alone. |
| `Enhancer.StreamAppend` | app/routes/api.enhancer.ts:41-63 | Transforming two streams one after the other equals transforming their concatenation. |
| `Enhancer.SplitLineLosesText` | app/routes/api.enhancer.ts:42-45 | A text part cut by a chunk boundary right after `0:` loses its text, though the same line in one chunk yields it: chunks are not re-joined into lines. |
| `Chrome129.DigitRunEnd` | vite.config.ts:44 | The digit group is greedy. It ends at the first non-digit, or at the end of the string. |
| `Chrome129.MatchAt` | vite.config.ts:44 | A match at a position has a non-empty digit group. `MatchAtIff` states exactly which positions match and with which digits. |
| `Chrome129.FirstMatch` | vite.config.ts:44 | It returns the leftmost position where the pattern matches, with its digits. It returns nothing exactly when no position matches. |
| `Chrome129.MatchAtIff` | vite.config.ts:44 | The scanner matches at a position with digits `d` if and only if `"Chrome/" + d + "."` or `"Chromium/" + d + "."` occurs there, with `d` a non-empty digit string. |
| `Chrome129.Blocked` | vite.config.ts:44-45 | The blocking condition. `BlockedIff` states it: a user agent is present, its leftmost match exists, and that match's digits read as 129. |
| `Chrome129.BlockedIff` | vite.config.ts:44-45 | A user agent is blocked if and only if it has a match whose digits read as 129 and no match starts further left. |
| `Chrome129.DecimalValue` | vite.config.ts:45 | `parseInt(d, 10)` on a digit string. `Value129Iff` states which digit strings read as 129, and `ZeroValue` which read as 0. |
| `Chrome129.Value129Iff` | vite.config.ts:45 | Digits read as 129 exactly when they are `129` after any number of leading zeros. |
| `Chrome129.Middleware` | vite.config.ts:43-53 | Exactly one outcome happens. A blocked request gets the `text/html` notice and no `next()`. Any other request, including one without a user agent, goes to `next()` with no response written. |
| `Chrome129.ChromiumBlocked` | vite.config.ts:44-45 | `"Chromium/129."` is blocked. |
| `Chrome129.LeadingZeroBlocked` | vite.config.ts:45 | `"Chrome/0129."` is blocked, because `parseInt` ignores leading zeros. |
| `Chrome129.LongerVersionPasses` | vite.config.ts:44 | `"Chrome/1290."` is not blocked, because the digit group takes the whole run. |
| `Chrome129.MissingDotPasses` | vite.config.ts:44 | `"Chrome/129"` with no dot after the digits is not blocked. |
| `Chrome129.OnlyFirstMatchCounts` | vite.config.ts:44 | `"Chrome/128. Chrome/129."` is not blocked: only the first match counts. A missing user agent is not blocked either. |

## Left out

- The switchable stream's implementation is not part of this model. Its byte
  forwarding, hard cut-over, backpressure and cancellation are only the
  assumption stated above. So is the consumer's view of the concatenated
  bytes.
- The provider client `streamText`: network calls. Its output streams are
  opaque `Source` values. A continuation call that throws inside `onFinish`
  is not modelled: the route itself neither calls `close()` nor errors the
  stream. What the rejected callback does to the consumer stream depends on
  the provider client and the switchable stream, which are not modelled.
- Request messages are typed as user/assistant text messages. The route
  accepts any array and passes its elements on unchecked; no proved
  property depends on the element type.
- `MAX_TOKENS` appears only in a log line. That line and all other `console`
  output are left out.
- async/await and callback scheduling. Handler invocations are sequential
  events, as the route's one-call-at-a-time structure guarantees.
- `request.json()`, `JSON.parse`, `TextEncoder`/`TextDecoder` and
  `stripIndents`: library calls. The body is a `RequestBody` value, the
  parser a parameter, and chunks are strings rather than bytes.
- A truthy `value` without a string form makes `join('')` throw outside
  the `try`, so the transform can fail. The parser parameter assumes every
  truthy value has one.
- The rest of `enhancerAction` (building the prompt, the provider call, its
  500 catch) is left out. It is I/O around the transform.
- Remix `Request`/`Response` objects. A response is a status, a status text,
  a body tag and headers.
- `app/lib/.server/env.ts` is a plain environment lookup. The key is an
  input of `ChatRoute.ChatAction`.
- The rest of `vite.config.ts` (polyfill aliases, Remix future flags, the
  plugin list) is static build configuration.
- Floating-point `parseInt`: it returns a double. This does not matter
  here: a digit string rounds to exactly 129 only when its value is 129.
