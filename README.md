# sse-checkpointing-consumer, modelled in Dafny

This project models the consumer in `lib/index.js` of sse-checkpointing-consumer.
A consumer reads a Server-Sent-Events stream. Each chunk goes through a
three-stage pipeline:

1. The parser (`parseJSON`) turns chunks into `{id, event, data}` records.
2. The hook stage (`tryCallback`) offers each record to the user's hook under
   a retry operation.
3. The checkpoint counter (`createRedis`) counts the records. Once a store
   is configured and the count reaches the limit `messages`, it writes
   `{lastProcessed, id}` to the key `"checkpoint"` and resets the count.
   - From a count below a limit n >= 1, this is a write every n records.
   - A count left at or above the limit writes on the next record. Such a
     count comes from records before `checkpoint`, or from a larger earlier
     limit.
   - A negative `messages` writes on every record.

The consumer object itself is modelled with its guards:

- `checkpoint` configures the store,
- `consume` attaches the stream made by a constructor function,
- `onEvent` registers the hook.

## Modules

- `wrappers.dfy` (`Wrappers`): `Option` and `Result`.
- `js_text.dfy` (`JsText`): the JavaScript string operations the parser relies on.
- `event_parser.dfy` (`EventParser`): the parser as a pure step function and as
  the class `LineParser`, whose fields are the three closure variables
  `dataBuf`, `id` and `event`. Fold lemmas over sequences of lines sit beside them.
- `checkpointing.dfy` (`Checkpointing`): the counter rule of `createRedis`,
  with the writes it issues over any sequence of records.
- `hook_ack.dfy` (`HookAck`): which attempt of the hook stage pushes a record
  or gives up on it.
- `consumer.dfy` (`SseConsumer`): the class `Consumer`, with the fields
  `messageCount`, `messageLimit`, `redisClient`, `stream` and `eventHook`,
  plus the pipeline of the latest `consume`. It also holds the composition
  of the three stages, per chunk (`Consumer.Receive`) and over a whole
  stream (`Pipe`).

## How the code behaves

These are facts about the code and its tests, and the model follows the code.

- No line splitter stands in front of the parser. `split` is called only to
  build the module-level `parse` stream, which is never placed in the
  pipeline. The parser therefore treats every chunk as one line.
  `line.replace('\n', '')` removes only the first line feed of the chunk.
- A `data:` line adds a `"\n"` separator only when the buffer is already
  non-empty. So empty payloads at the front of a record vanish: `data: ` then
  `data: x` buffers `"x"`. `EventParser.DataLinesJoin` states the rule for a
  run of data lines. `EventParser.BlockBuffer` and `EventParser.BlockRecord`
  extend it to blocks that mix in `id: `, `event: ` and other lines.
- The `event:` value is cut with `slice(6)` after the 7-character prefix
  `"event: "`, so it keeps a leading space. The `id:` value drops the whole
  `"id: "` prefix.
- There is no special handling of heartbeat or "ticker" event types. There is
  no `retry:` handling in the live parser. Comment lines are not treated
  specially; they just match no prefix.
- `id` and `event` are never cleared by a dispatch.
- `options.messages || 3` makes a missing or zero limit 3. A second
  `checkpoint` call replaces the limit but keeps the existing store client.
- Before `checkpoint` the limit is `undefined`. `count >= undefined` is false,
  so nothing is written, and without a client nothing is written either. The
  count still grows.
- The hook stage pushes a record when the hook returns a truthy non-thenable,
  or a thenable that fulfils truthy. It asks for a retry on a falsy result, a
  rejection, or a falsy fulfilment.
- When no retry is left, `operation.retry` returns false. For a falsy
  fulfilment the code then falls through and pushes the record anyway. For a
  synchronous falsy result or a rejection nothing is pushed: the record is
  abandoned.
- A promise rejected with a falsy reason (`Promise.reject()`, say) passes that
  falsy reason to `operation.retry`, which then schedules nothing. The record
  is abandoned after that attempt, even if retries are left.
- A later `onEvent` replaces the hook.
- `consume` does not reset the message count. It does not look up or pass a
  resume id, and there is no reconnection.

## Model

| member | source | states |
|---|---|---|
| JsText.StripFirstNewline | lib/index.js:48 | defines `replace('\n', '')` on a string; `JsText.StripRemovesFirst` proves that it removes exactly the first line feed |
| JsText.IndexOf | lib/index.js:48 | the first position of a character in a string, or -1 exactly when it does not occur |
| JsText.StripRemovesFirst | lib/index.js:48 | `replace('\n','')` removes the first line feed and only that one; a string without one is unchanged |
| JsText.DropLeadingEmpty | lib/index.js:60 | the suffix left after dropping empty strings in front: it starts with a non-empty string or is empty, and everything dropped is empty |
| EventParser.StepLine | lib/index.js:49-63 | defines one line's effect on `dataBuf`, `id` and `event` and the record it pushes; `Dispatch`, `BlankOnEmptyBuffer`, `DataLineStep` and `LineParser.Feed` state its cases |
| EventParser.Step | lib/index.js:47-63 | defines one raw chunk through the parser: its first line feed removed, then the line rules |
| EventParser.RunLines | lib/index.js:47-64 | defines a sequence of lines through the parser, records in order; `RunAppend`, `RunSnoc`, `RunHeaders`, `NoBlankNoEvents` and `DataLinesJoin` characterise it |
| EventParser.Run | lib/index.js:47-64 | defines a sequence of raw chunks through the parser, each chunk one line with its first line feed removed; `RunChunkSnoc` relates it to `Step` |
| EventParser.LineParser.constructor | lib/index.js:43-45 | a new pipeline's buffer, id and event type start empty |
| EventParser.LineParser.Feed | lib/index.js:47-64 | one chunk: a blank line on an empty buffer changes nothing; on a non-empty buffer it emits `{id, event, data}` and clears only the buffer; otherwise the `data: `, `id: ` and `event: ` rules apply independently, and a line matching none changes nothing |
| EventParser.RunAppend | lib/index.js:47-64 | running two sequences of lines in turn is running their concatenation, records in order |
| EventParser.RunSnoc | lib/index.js:47-64 | one more line continues from the state the earlier lines left, and its record comes last |
| EventParser.RunChunkSnoc | lib/index.js:47-64 | the same for one more raw chunk |
| EventParser.RunHeaders | lib/index.js:61-62 | id and event type are sticky: after any lines they hold the value of the last `id: ` / `event: ` line, across dispatches, or the earlier value |
| EventParser.Dispatch | lib/index.js:49-58 | a blank line after buffered data emits exactly one record, carrying the last headers and the buffer, and clears only the buffer |
| EventParser.BlankOnEmptyBuffer | lib/index.js:50 | a blank line while the buffer is empty emits nothing and changes nothing |
| EventParser.NoBlankNoEvents | lib/index.js:49-63 | lines none of which is blank emit no record |
| EventParser.AppendPayloadJoin | lib/index.js:60 | one data line's append agrees with joining buffer and payloads by line feeds after dropping leading empty strings |
| EventParser.DataLineStep | lib/index.js:60-63 | a `data: ` line matches neither of the other prefixes: it only appends its payload, with a separator when the buffer is non-empty, and emits nothing |
| EventParser.DataLinesJoin | lib/index.js:60 | a run of data lines emits nothing, keeps id and type, and leaves in the buffer the old buffer and the payloads joined by line feeds, leading empty strings dropped |
| EventParser.DataPayloads | lib/index.js:60 | defines the values of the `data: ` lines of a block in order; `id: `, `event: ` and unrecognised lines give none |
| EventParser.BlockBuffer | lib/index.js:60-62 | within a block with no blank line, whatever other lines it mixes in, the buffer ends as the earlier buffer and the data values joined by line feeds, empty strings in front dropped |
| EventParser.BlockRecord | lib/index.js:49-62 | a block that starts after a dispatch and ends in a blank line emits one record, with the data values joined by line feeds and the latest `id: ` and `event: ` values, or nothing when that join is empty |
| Checkpointing.Tally | lib/index.js:95-101 | defines one record through `createRedis`: the count goes up by one, and with a client and a reached limit it goes back to 0 with one write of that record's id and time |
| Checkpointing.TallyAll | lib/index.js:95-101 | defines a sequence of records through `createRedis`, writes in order; `NoClientNoWrites`, `PeriodicWrites`, `KthWrite` and `EveryNthEvent` characterise it |
| Checkpointing.NoClientNoWrites | lib/index.js:96-97 | without a store client nothing is ever written and the count grows by one per record |
| Checkpointing.PeriodicWrites | lib/index.js:95-101 | with a client and limit n >= 1 from a count c < n: the count stays below n, count + n * writes = c + records, and the k-th write records the id and time of record n(k+1) - c - 1 |
| Checkpointing.PeriodicCount | lib/index.js:96-98 | the count half of PeriodicWrites: the count stays below n and count + n * writes = c + records |
| Checkpointing.PeriodicIndex | lib/index.js:97-100 | the index half of PeriodicWrites: the k-th write records record WriteIndex(n, c, k) = n(k+1) - c - 1 |
| Checkpointing.KthWrite | lib/index.js:97-100 | for one k below the number of writes: that record exists and the k-th write records its id and time |
| Checkpointing.TallyAppend | lib/index.js:95-101 | two runs of records in turn are one run of their concatenation: the second starts from the count the first leaves, and the writes follow one another |
| Checkpointing.OverLimitFirstWrites | lib/index.js:96-100 | from a count c with c + 1 >= n, including a count left over from before `checkpoint`, the first record is written and the rest is counted from 0 |
| Checkpointing.LimitAtMostOneWritesEvery | lib/index.js:96-100 | with a limit of 1 or less, such as a negative `messages`, every record is written, in order, and the count stays at 0 |
| Checkpointing.EveryNthEvent | lib/index.js:95-101 | from a fresh count, m records give m / n writes and leave the count at m % n |
| Checkpointing.ExampleLimitOne | lib/index.js:95-101 | with limit 1, records "0", "1", "2" give three writes, the last recording "2" |
| Checkpointing.ExampleLimitTwo | lib/index.js:95-101 | with limit 2, records "0" to "5" give writes for "1", "3", "5" |
| HookAck.Attempt | lib/index.js:72-91 | a record is never passed through once a hook is set; it takes between 1 and 1 + retries attempts, none before the last acknowledged or rejected with a falsy reason; pushed means acknowledged, or a falsy fulfilment on the last attempt; abandoned means a rejection with a falsy reason, or a falsy result or rejection on the last attempt |
| HookAck.Deliver | lib/index.js:72-91 | defines a record offered under a fresh `retry.operation()`: attempt 0 with the whole retry budget left; `SyncDelivery`, `AbandonedOnlyAfterBudget` and `PushedAtFirstAcknowledgement` characterise it |
| HookAck.SyncDelivery | lib/index.js:85-90 | with synchronous answers only, a record is pushed exactly when some attempt within the budget returns truthy, right after the first one; otherwise it is abandoned after 1 + retries attempts |
| HookAck.AbandonedOnlyAfterBudget | lib/index.js:72-91 | an abandoned record was acknowledged by no attempt, and, unless some attempt was rejected with a falsy reason, took the whole 1 + retries attempts |
| HookAck.PushedAtFirstAcknowledgement | lib/index.js:72-91 | the first acknowledging attempt within the budget, with no falsy rejection reason before it, is the one after which the record is pushed |
| SseConsumer.Message | lib/index.js:20-120 | defines the message of each thrown error: lines 20, 21, 30, 35, 38, 118 and 120 |
| SseConsumer.MessagesDistinct | lib/index.js:20-120 | two errors carry the same message exactly when they are the same error |
| SseConsumer.Offer | lib/index.js:67-70 | without a hook a record passes through untouched; with one, 1 to 1 + retries attempts are made |
| SseConsumer.Handle | lib/index.js:104-107 | defines one chunk through parser, hook stage and counter; `Consumer.Receive` is proved to compute it |
| SseConsumer.Through | lib/index.js:104-107 | defines how one chunk extends what a stream has done: parser state, count, delivered records, arrivals and writes |
| SseConsumer.Pipe | lib/index.js:104-107 | defines a sequence of chunks through the pipeline; `PipeTally`, `PipeNeverAbandoned`, `NoHookPassesAll` and `WritesRecordDelivered` characterise it |
| SseConsumer.PipeTally | lib/index.js:104-107 | the checkpoint stage sees exactly the records that got through the hook, in order with their arrival times, and the final count and writes are what the counter gives for them |
| SseConsumer.ThroughNeverAbandoned | lib/index.js:66-93 | one chunk, when the hook never gives up: the parser's record, if any, is delivered |
| SseConsumer.PipeNeverAbandoned | lib/index.js:104-107 | when the hook never gives up on a record, every record the parser emits is delivered, in order, and the parser ends as it would alone |
| SseConsumer.NoHookPassesAll | lib/index.js:67-70 | without a hook every record the parser emits reaches the checkpoint stage |
| SseConsumer.PeriodicRecords | lib/index.js:95-101 | for a limit n >= 1 and a start count 0 <= c < n, the counter's writes for arrivals that stand for delivered records follow every n-th of those records |
| SseConsumer.WritesRecordDelivered | lib/index.js:95-107 | over a whole stream, with a client, a limit n >= 1 and a start count 0 <= c < n, the k-th write records the id and time of delivered record n(k+1) - c - 1 |
| SseConsumer.OverLimitStreamWrites | lib/index.js:95-107 | over a whole stream, with a client and a start count c with c + 1 >= n: the first delivered record is written at once, and the rest of the stream writes as from a count of 0 |
| SseConsumer.Consumer.constructor | lib/index.js:164-169 | a new consumer has count 0 and no limit, client, stream or hook |
| SseConsumer.Consumer.Checkpoint | lib/index.js:19-25 | no options or a falsy URL throw and change nothing; otherwise the limit becomes the given one, or 3 when missing or zero, an existing client is kept, otherwise one is made for the URL, and the consumer is returned |
| SseConsumer.Consumer.Consume | lib/index.js:27-45 | a non-function, a throwing constructor and a non-stream result each throw their error and change nothing; the constructor is called exactly when it is a function; a stream is attached with a fresh empty parser, and count, store and hook carry over |
| SseConsumer.Consumer.OnEvent | lib/index.js:117-124 | before `consume`, or on a stream without `on`, it throws and changes nothing; otherwise the hook is replaced and the consumer returned |
| SseConsumer.Consumer.TryCallback | lib/index.js:66-93 | the loop of attempts, tested in the callback's order (acknowledged, rejected with a falsy reason, retries left, falsy fulfilment at the end), ends in exactly the delivery `Attempt` gives |
| SseConsumer.Consumer.CreateRedis | lib/index.js:95-102 | the count and the writes follow the counter rule; the configuration is unchanged |
| SseConsumer.Consumer.Receive | lib/index.js:104-107 | one chunk through parser, hook stage and counter gives the pipeline's step; a write happens only for a record that got through, and leaves the count at 0 |

## Left out

- Stream plumbing (highland `consume`, `through`, `each`, `resume`,
  backpressure) is not modelled. Chunks are handed to `Consumer.Receive` one
  at a time, and the pipeline is their fold, `Pipe`.
- A pipeline built by an earlier `consume` keeps running in the code. The
  model keeps only the latest one.
- Two paths never call `next()`: the parser on a blank line with an empty
  buffer, and the hook stage on an abandoned record. Both stall the stream.
  The model goes on with the next chunk instead.
- The `err` argument that highland passes along with a chunk is not
  modelled.
- The store is out of scope: Redis I/O, `JSON.stringify` of the checkpoint,
  and the promise `set` returns. A write is modelled as the value passed to
  `set`. A failing write is not modelled.
- `Date.now()` is a parameter of each chunk (`Incoming.now`).
- The retry library's backoff, jitter and timers are left out.
- `retry.operation()` is called with no options (lib/index.js:72), so every
  record gets the library's one default retry budget. The default lives in
  the `retry` package, which is not part of this model. `retries` in
  `Consumer.TryCallback`, `Consumer.Receive` and `Config` stands for that
  fixed number.
- The hook is modelled by what it returns on each attempt for each record.
  Its side effects, and a truthy handler that is not a function (which would
  throw when called), are left out. So are a hook that throws, a truthy `then`
  that is not a function, and an exception thrown by `push` or `next` inside
  the fulfilment handler (the `.catch` would take that as a rejection).
- `EventHook`: what a hook answers depends only on the record's value and the
  attempt number. Equal records (a repeated payload under a sticky id) always
  get the same answers, and a hook whose answers depend on earlier calls, such
  as a counter or a flag, cannot be expressed.
- `Consumer.TryCallback` reads the hook once per record. The code reads
  `consumer.eventHook` again at every attempt, and later attempts run from
  retry timers, so an `onEvent` between attempts switches the hook partway
  through a record. The model does not capture that.
- `HookAck.Settlement` has no case for a promise that never settles. Such a
  record is neither pushed nor abandoned, and the stream stalls.
- `destroyStream`, the module-level `parse` built with `split` and
  `handleEvent` are dead code and are not part of this model.
- `messages` is modelled as an integer or absent. Other falsy values count as
  absent. Non-integer numbers and strings are not modelled.
- A falsy `redisUrl` is modelled as the empty string.
- JavaScript numbers are doubles. The count is an unbounded integer here;
  the two differ only past 2^53 records.
- The `on`-listener guard of `onEvent` cannot fail for a stream set by
  `consume`, since highland streams always have `on`. The field records the
  capability so that the guard is still modelled.
- There is no `getLastProcessedTime`: its `describe` block in
  test/sse.spec.js:162-164 is empty. There is no resuming from a stored id
  either: the stream constructor is called with no arguments
  (lib/index.js:33). There is no reconnection. With no code for these, there
  is nothing to model.
