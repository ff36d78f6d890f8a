# Streaming tool-call agent loop

A Dafny model of the chat server in `server.js`. It covers:

- `POST /api/chat`: validates the user's message, then runs `streamWithTools`. This is a
  bounded recursion that streams one model turn per call. Each turn's text deltas are folded
  into a running text, and each streamed text delta is written to the client as a `content`
  event. Its tool-call fragments are folded into an index-keyed array of builders.
- A turn whose finish reason is `tool_calls` (with at least one builder) is a tool turn. The
  loop records the calls and runs them one by one through `executeTool`. Every parse or tool
  failure becomes an `error` event and an `{error}` tool message. The loop then recurses with
  one iteration less.
- A plain turn ends the loop with its text.
- On success the request files a record in the in-memory `responseStore`, then writes `done`
  and `[DONE]`. On failure it writes a single `error` event.
- `GET /api/conversation/:id`: reads the store back.

Modules:

- `Protocol` (`protocol.dfy`): the values exchanged: chunks and fragments, tool calls,
  messages, events, the stored record.
- `Accumulator` (`accumulator.dfy`): the per-turn delta accumulator. It has a declarative
  reference definition of the builders array (one slot at a time: first id, last non-empty
  name, concatenated arguments) and the method that folds one fragment at a time. It also
  defines the content events and where a turn stops.
- `Tools` (`tools.dfy`): `executeTool`'s dispatch, the handling of one call, and the loop over
  a turn's calls. That loop stops at the first hole of a sparse builders array.
- `Orchestrator` (`orchestrator.dfy`): the loop. It has two forms:
  - a specification, `Run` (`Iterate` over `TurnStep`);
  - an imperative `ChatSession` class whose fields are the history, the tool-call log and the
    event stream. It also has a ghost log of the histories sent to the model service, used only
    in proofs. Its methods are proved equal to the specification.
- `Server` (`server.dfy`): the request handler as a function of the store (`ChatResponse`),
  and its imperative form (`PostChat`) over a `ResponseStore` class.

Things outside the program are parameters (`Env`):

- the model service, a function from the history it is sent to one streamed `Turn`: the chunks,
  then an optional fault raised after them;
- the JSON parser;
- the two tool bodies;
- the generated conversation id and the timestamp.

## Model

| member | source | states |
|---|---|---|
| Accumulator.Store | server.js:167-176 | Writing slot `i` of a JavaScript array, at an array index: the slot holds the value, a write past the end extends the array with holes, and every other slot is unchanged. |
| Accumulator.MentionsSnoc | server.js:164-168 | One more fragment names a slot exactly when it or an earlier fragment does. |
| Accumulator.LengthBounds | server.js:165-176 | The builders array is exactly as long as the largest slot named requires. Every named slot lies below its length, and the last slot is named. The array is empty only when there are no fragments. |
| Accumulator.MentionsBelowLength | server.js:165-176 | Every slot a fragment names lies inside the builders array. |
| Accumulator.LastSlotMentioned | server.js:165-176 | The last slot of a non-empty builders array is named by some fragment, and the array is empty exactly when there are no fragments. |
| Accumulator.FirstIdSnoc | server.js:167-170 | A slot's id is fixed by the first fragment naming it. A later fragment changes it only when it creates the slot. |
| Accumulator.MergedSnoc | server.js:165-184 | Merging a fragment into its slot. A new builder takes the fragment's id, name and arguments. An existing one keeps its id, takes a non-empty name, and appends the arguments. |
| Accumulator.NoMentionEmpty | server.js:172-184 | A slot that no fragment names has no name and no arguments. |
| Accumulator.MergedOther | server.js:164-185 | A fragment for another slot leaves a slot's merged call unchanged. |
| Accumulator.FirstIdStable | server.js:167-170 | Once a slot has a builder, no later fragment changes its id. |
| Accumulator.ArgumentsAppend | server.js:182-184 | A slot's arguments are the concatenation of its argument fragments in arrival order. Nothing is dropped or reordered. |
| Accumulator.LastNameAppend | server.js:178-180 | A slot's name is the last non-empty name among its fragments. An empty name never overwrites one. |
| Accumulator.AddToolCallFragment | server.js:165-184 | The body of the fragment loop takes the builders array for fragments `ds` to the reference builders array for `ds + [d]`. |
| Accumulator.BuildersSnoc | server.js:164-185 | One more fragment creates or updates its slot, extending the array with holes when needed, and leaves every other slot as it was. |
| Accumulator.ContentEventsSpellText | server.js:189-197 | Concatenating the deltas of a turn's content events, in order, gives the turn's running text. |
| Accumulator.StreamedTextSnoc | server.js:193-197 | One more event extends what a client rebuilds by that event's delta, if it is a content event. |
| Accumulator.TextPrefix | server.js:190 | The running text only grows. |
| Accumulator.ContentEventsRunning | server.js:189-197 | Every content event carries a non-empty delta, and an `accumulated` text that ends with that delta and is a prefix of the final text. |
| Accumulator.DeltasPrefix | server.js:156-186 | The fragments of a shorter prefix of chunks are a prefix of those of a longer one. |
| Accumulator.FirstStop | server.js:201 | It finds the first chunk whose finish reason is `tool_calls` while the builders array is non-empty, and no earlier chunk stops the turn. |
| Accumulator.Consumed | server.js:156-201 | A turn reads no chunk after the one that ends it as a tool turn. |
| Accumulator.NoFragmentsNoToolTurn | server.js:201-280 | A turn without tool-call fragments is never a tool turn, whatever its finish reason. It ends with its text, or with its fault. |
| Accumulator.ToolTurnNonEmpty | server.js:201 | A tool turn's builders array is non-empty and its last slot is filled. |
| Tools.ExecuteTool | server.js:70-98 | Any name other than the two tools is answered with an `{error: "Unknown tool: <name>"}` object, not a failure. Only the two tool bodies can fail. |
| Tools.Invoke | server.js:233-234 | A success returns the parsed arguments and the tool's result on them. A failure carries the parser's message, or the tool's message when parsing succeeded. |
| Tools.EmptyArgumentsAsObject | server.js:233 | A call with an empty argument buffer is run exactly as if it had sent `{}`. |
| Tools.HandleCall | server.js:230-265 | A call without a name is skipped. A named call adds exactly one tool message carrying its id, and one event. That event is an error event exactly when parsing or running the call failed. On success the message carries the tool's result, and the event carries the tool name, the parsed arguments and the result. On failure the message is `{error: e}` and the event is `Tool execution failed: e`, with the same `e`. |
| Tools.DispatchSnoc | server.js:230-265 | The calls are handled one after another: handling one more call appends its messages and events. |
| Tools.DispatchCorrelates | server.js:230-265 | Failures never cut a turn short. The `j`-th tool message and the `j`-th event answer the `j`-th named call. The message carries that call's id, and the message and event carry that call's result, or `{error: e}` and `Tool execution failed: e`. Every event is a tool-call or error event. |
| Tools.FirstHole | server.js:230-231 | The position where the loop over the calls reaches a hole is within the array. |
| Tools.FilledSnoc | server.js:206-227 | Extending an array prefix by a filled slot appends that call to the calls `map` and `forEach` visit. |
| Tools.FirstHoleIsFirst | server.js:230-231 | Every slot before the first hole holds a call, and the first hole is a hole. |
| Tools.FirstHoleAt | server.js:230-231 | A slot reached without passing a hole is the first hole exactly when it is one. |
| Tools.FilledDense | server.js:206-227 | Without holes, the listed calls are the slots' calls, one per slot, in slot order. |
| Tools.ReachedAll | server.js:218-231 | Without a hole, the loop over the calls handles exactly the calls that are listed and logged. |
| Orchestrator.ExtendsReflexive | server.js:139-281 | The growth relation of the loop state is reflexive. |
| Orchestrator.ExtendsTransitive | server.js:139-281 | The growth relation of the loop state is transitive. |
| Orchestrator.OpenTurnExtends | server.js:144-198 | Opening and reading a turn logs the history it was sent. It writes only content events, and leaves the history and the tool-call log unchanged. |
| Orchestrator.AfterToolTurnExtends | server.js:201-265 | A tool turn's bookkeeping only appends to the history, the log and the stream. It writes only tool-call and error events. |
| Orchestrator.ToolTurnShape | server.js:201-265 | Take a tool turn without holes. The history gains one assistant message listing every call, then one tool message per named call, in order, each answering that call's id with its result or error. The new events are paired with those messages one to one. The log gains exactly the calls. |
| Orchestrator.TurnStepExtends | server.js:139-269 | Every iteration opens exactly one turn and only appends. Every turn is sent the whole history accumulated so far. |
| Orchestrator.IteratePreserves | server.js:139-268 | A reflexive, transitive relation that every iteration establishes holds across the whole bounded recursion. |
| Orchestrator.RunExtends | server.js:139-281 | Whatever the model service answers, the loop only appends to the history, the tool-call log and the stream. It never writes `done` or `[DONE]`. Each turn it opens is sent a history that extends the starting one. |
| Orchestrator.IterateCounts | server.js:139-268 | A bounded recursion whose steps each add one to a counter takes at most `n` steps, and none when `n <= 0`. |
| Orchestrator.RunTurnBound | server.js:139-268 | With `n` iterations left, at most `n` turns are opened. With `n <= 0` none is opened and nothing changes. |
| Orchestrator.RunawayExhausts | server.js:139-268 | A model service that always answers with a hole-free tool turn makes the loop open exactly `n` turns and then fail with "Maximum tool call iterations reached". |
| Orchestrator.WeatherEveryTurnExhausts | server.js:139-268 | A concrete service that asks for the weather on every turn exhausts the default ten iterations: ten turns are opened, then the loop fails with the iteration error. |
| Orchestrator.CompletedTurnSpellsAnswer | server.js:189-280 | A completed turn's content events spell exactly the text the loop returns. |
| Orchestrator.TurnStepSuccess | server.js:273-280 | An iteration that ends the loop with an answer ends it with its own turn's text. That text is appended to the history when non-empty, and the turn's content events end the stream. |
| Orchestrator.RunSuccess | server.js:139-281 | On success, the answer is the text of the last turn opened. The final history is the one sent to that turn plus the answer, when the answer is non-empty. The stream ends with that turn's content events. |
| Orchestrator.TurnStepFailure | server.js:156-231 | An iteration that fails does so on a hole, or on the fault the model service raised on its turn. |
| Orchestrator.RunFailure | server.js:139-281 | A failing loop fails with the iteration error, the hole error, or the model service's fault on the last turn opened. |
| Orchestrator.AddToolCallFragments | server.js:163-186 | The inner fragment loop folds a chunk's fragments, in order, into the reference builders array. |
| Orchestrator.ChatSession.constructor | server.js:127-136 | A session starts from the given history, with an empty tool-call log, event stream and request log. |
| Orchestrator.ChatSession.Emit | server.js:307-321 | Writing an event appends it to the stream. |
| Orchestrator.ChatSession.ReadChunk | server.js:157-198 | One pass of the chunk loop keeps the running text and the builders array equal to their reference definitions over the chunks read, and writes that chunk's content event, if any. |
| Orchestrator.ChatSession.ConsumeTurn | server.js:153-201 | The chunk loop returns the reference ending of the turn: tool turn, completion or fault. It writes exactly the content events of the chunks it reads. |
| Orchestrator.ChatSession.HandleToolCall | server.js:231-264 | Handling one call appends exactly what the reference handling of that call appends, to the history and to the stream. |
| Orchestrator.ChatSession.DispatchToolCalls | server.js:230-265 | The loop over the calls handles every call before the first hole, in order, as the reference dispatch does. It reports completion exactly when there is no hole. |
| Orchestrator.ChatSession.HandleToolTurn | server.js:201-265 | A tool turn's bookkeeping leaves the session in exactly the reference state after the tool turn. It reports a hole exactly when there is one. |
| Orchestrator.ChatSession.StreamWithTools | server.js:139-281 | The recursive method leaves the session in the final state of the reference loop and returns its result. |
| Server.RefusedIffNoMessage | server.js:105-107 | A request is refused with 400 "Message is required" exactly when its message is missing or empty. A refused request leaves the store unchanged. |
| Server.OutcomeExclusive | server.js:284-323 | An accepted request ends in exactly one of two ways. (1) The stream ends with `done`, carrying the id and the record filed under it, then `[DONE]`; neither appears earlier, and the store gains that record. (2) The stream ends with one error event; it holds no `done` or `[DONE]`, and the store is unchanged. |
| Server.SuccessFilesTheAnswer | server.js:110-304 | A successful request files, under the client's id or the generated one, a record with the whole history, the tool-call log and the answer. The history starts with the system and user messages. The answer is the last turn's text, spelled by the content events that end the stream before `done`. Other records are kept. |
| Server.FailureReportsCause | server.js:316-323 | A failed request writes the loop's events followed by one error event. Its message is the iteration error, the hole error, or the model service's fault. |
| Server.RunawayNeverFiles | server.js:139-323 | A service that always asks for tools is cut off after exactly ten turns. The stream ends with the iteration error and nothing is filed. |
| Server.ResponseStore.constructor | server.js:24 | The store starts empty. |
| Server.ResponseStore.Set | server.js:304 | Filing a record replaces any earlier record under that id and keeps all others. |
| Server.ResponseStore.Get | server.js:329 | The stored record under an id, or nothing. |
| Server.PostChat | server.js:102-324 | The handler's reply and the store afterwards are exactly those of the reference `ChatResponse`, so all the `Server` lemmas hold of it. |
| Server.GetConversation | server.js:327-336 | The record stored under the id, or 404 "Conversation not found". |

## Left out

- Output and transport are not modelled. That covers the Server-Sent Events framing, `res.write`/`res.end`, the status codes (beyond the `BadRequest`/`NotFound` distinction) and the headers. The stream is the list of events written.
- The OpenAI client and the network are replaced by `Env.upstream`, a function from the history sent to one streamed turn. Randomness and timing of the service are therefore not modelled. A fault is raised only after the turn's chunks, or instead of any chunk when the stream cannot be opened.
- Accumulator.Length: a fragment's index is taken to be a JavaScript array index, an integer from 0 to 2^32 − 2. An index of 2^32 − 1 or more, a negative index or a fraction only sets a plain property in the source. The array's `length` then does not grow, and `map`, `forEach` and `for...of` never visit that call. The model instead treats such an index as a slot and extends the array with holes. `ToolCallDelta.index` is a `nat`, so negative and fractional indices cannot even be written.
- Server.ChatResponse: the request's `message` and `conversationId` are taken to be strings, or absent. The source accepts any JSON value there. `!message` also refuses `0`, `false` and `null`, and accepts a number, `true` or an object as the user content. A truthy non-string `conversationId`, such as `42`, becomes the id and is filed under a number key. `GET /api/conversation/:id` always looks up a string, so it answers 404 for that record. None of this is modelled.
- A chunk whose first choice has no `delta` object is not modelled: such a chunk would raise a `TypeError` in the source.
- Tools.ExecuteTool: the tool bodies are abstract (`Toolbox`). The random temperature, the `Function(...)` evaluation and its catch, and a `TypeError` on `null` arguments become arbitrary results or failures.
- JSON parsing and serialization are abstract (`Parser`). Tool results are kept as `Json` values rather than their `JSON.stringify` text. Numbers are integers only.
- The conversation id and the timestamp are parameters: `Date.now()`, `Math.random()` and `new Date()` are not modelled.
- Console logging is not modelled.
- Concurrency is not modelled: each request runs against the store alone. The order of the store write before the `done` event follows only from statement order in `PostChat`.
- The assistant message of a tool turn lists the present calls (`Filled`). In the source, `map` over a sparse builders array keeps the holes, which serialize as `null` entries.
- The error message for a hole is V8's `TypeError` text, written as a constant (`HoleError`).
- The `tools` schema declarations sent to the service (server.js:27-67), the express setup, the static files and the port are not modelled.
