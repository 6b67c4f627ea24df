# Execution pipeline: model and proofs

A Dafny model of the asynchronous workflow pipeline and of everything that watches it:

- **the retry protocol** — a run queue, a retry queue with a ten-second time to live, any number of consumers that
  hold one message each, the broker's `x-death` list entry by entry, connection losses at any moment;
- **the step engine** — one recursive meaning of "run these steps", and the three hand-written loops (synchronous,
  streaming, legacy in-process) proved to carry it out;
- **the event stream** — the JSON text of the events, the stream handler's substring test for the end, server-sent
  event framing and a client parser that follows section 9.2.6 of the WHATWG HTML Living Standard, AI token streams;
- **the cache-aside workflow store** and **the minute scheduler**.

The protocol, the execution rows and the engine calls are then put together into one state machine (`System.dfy`) in
which every effect of every engine call interleaves with everything else, and in which an RPC error may arrive before,
during or after the call it belongs to.

`dafny verify dfyconfig.toml` verifies the project.

| file | content |
|---|---|
| `Json.dfy`, `Events.dfy`, `Sse.dfy`, `StreamHandler.dfy`, `Wire.dfy` | string escaping (section 7 of RFC 8259) and compact objects, event texts and the end test, frames and their parser, the stream handler, the texts key by key |
| `AiRunner.dfy`, `Engine.dfy`, `EngineFacts.dfy`, `Outcomes.dfy`, `Delivery.dfy` | token loops, step engines, what their runs guarantee, what rows and events tell of the runners, what a connected client receives |
| `Topology.dfy`, `Protocol.dfy`, `ProtocolFacts.dfy`, `Messages.dfy`, `Worker.dfy`, `Producers.dfy` | broker topology and dead-lettering, the protocol and its theorems, message bodies and headers, the consumer, the two producers |
| `System.dfy`, `SystemFacts.dfy` | the whole pipeline and its theorems |
| `GiveUp.dfy`, `Verdicts.dfy`, `Runs.dfy` | what a worker's giving up on a call can lead to, which executions reach a verdict, and runs in which promises fail |
| `Channels.dfy` | the channels of the whole pipeline and the clients that listen to them |
| `Sequences.dfy` | shared facts about sequences |
| `Scheduler.dfy`, `WorkflowStore.dfy`, `CacheTiming.dfy` | minute scheduler, cache-aside store, the store under interleaving |

## What holds, and where it stops

- **Terminal statuses.** "Every execution reaches success or failed" is false in two ways: three failing row lookups
  drop the message (`Runs.ExhaustedRun`), and a publish that fails after the row was stored leaves no message at all
  (`Verdicts.OrphanRun`); both rows stay pending for good (`Runs.PendingForGood`, `Verdicts.OrphanForGood`). The exact
  condition: call a run strictly honest towards a message as long as no worker gives up on a live call of it, not even by
  its last rejection. In a drained run that is strictly honest towards its message, an execution has a verdict exactly
  when its message was accepted and settled with a death count below the limit, and is pending otherwise
  (`Verdicts.VerdictExactly`). Strict honesty is needed: after any other step some continuation, without any further
  giving up, settles the message against its count (`Verdicts.StrictlyExactly`).
- **At most once.** A worker gives up on an engine call when an error reply reaches it or it loses its connection. In
  every reachable state, some continuation then calls the engine again for the same execution if and only if the message
  has a delivery left: always after a connection loss, and after an error reply unless it was the last rejection
  (`GiveUp.CalledAgainExactly`). If the call was live and all was honest before, the same condition decides whether some
  continuation overwrites the execution's verdict (`GiveUp.GiveUpExactly`). If it can, it can without any further trigger
  or fault, and both calls can store all their rows (`GiveUp.RunsAgain`). For every workflow there is a run with one
  worker, one trigger and one error reply as its only fault in which this happens (`Runs.OverwrittenRun`), because the
  engine does not look at the status before it sets it. A run without such a give-up on an execution's message is called
  honest towards it; then its rows come from one attempt and its verdict stays, whatever happens to all other messages
  (`SystemFacts.AtMostOnce`, `SystemFacts.VerdictStays`).
- **End of a stream.** Without other executions the client sees the end of its execution exactly when its subscription
  precedes the finish publication or its row was read after the status was stored (`Delivery.EndIsSeenExactly`). The
  channel is per workflow: with others, it sees it exactly when that end is the first finish, of any execution, after the
  subscription (`Delivery.OwnEndExactly`). The former holds at every moment of every run of the whole pipeline that is
  honest towards the execution's message, as long as no other execution of the workflow ends (`Channels.EndIsSeenInRun`)
  or publishes (`Channels.LoneInRun`) in between.
- **Scheduler.** A check fires in a minute the expression does not match exactly when the expression has no match up to
  the cron library's horizon: the library then returns its zero time, which lies before every instant
  (`Scheduler.FiresExactly`, `Scheduler.ImpossibleDateAlwaysFires`). The comment in `scheduler-service/cron/scheduler.go:130`
  calls the window "[minuteAgo, now)"; the code's window is the minute `now` itself, and the model follows the code.
- **Cache.** `docs/stage-4-walkthrough.md:158-159` says that invalidating on write avoids the race and that a miss always
  reads the database. The code can still cache a value read before the update (`CacheTiming.InvalidationRaces`). After
  a write a hit is stale exactly when the last change to the cache was a successful `SetEx` of a request that had read the
  row before the write, or nothing has changed what was cached before, which a successful Redis delete rules out
  (`CacheTiming.StaleHitExactly`); and the age of what is served is bounded in any case (`CacheTiming.BoundedStaleness`).

Assumptions taken from the environment: the engine's database writes after its loads succeed, publishes to Redis reach the
channel, durations are not negative, RabbitMQ keeps one `x-death` entry per queue and reason with the newest in front and
dead-letters the head of a queue once it has waited the time to live that the queue was declared with, if any, and the
gap between a reader's database read and its `SetEx` is at most a parameter `delta`. What a step's runner returns, what a
provider streams, which loads and replies fail and when connections are lost are free inputs.

## Model

| member | source | states |
|---|---|---|
| Json.QuoteRoundTrip | execution-engine/internal/server/server.go:249-258 | any string, escaped as the services' JSON encoder does, is read back exactly by an RFC 8259 reader, whatever follows it |
| Json.ObjectRoundTrip | execution-engine/internal/server/server.go:241-258 | a compact object of strings, naturals and booleans is read back member by member |
| Json.EscapeTable | execution-engine/internal/server/server.go:249-258 | the encoder character by character: which are escaped, how, and that no other is |
| Events.EventRoundTrip | execution-engine/internal/server/server.go:241-258 | a subscriber decodes every published event to exactly the event published, for arbitrary step ids, statuses and tokens and with zero fields omitted |
| Events.SerialisedOneLine | execution-engine/internal/server/server.go:249-258 | no event text contains a raw line break |
| Wire.FinishedText | execution-engine/internal/server/server.go:241-258 | the exact text of a finished event, key by key |
| Wire.StepDoneText | execution-engine/internal/server/server.go:241-258 | the exact text of a step event, with an empty id and a zero duration left out |
| Wire.TokenText | execution-engine/internal/runner/ai_runner.go:31-36 | the exact text of a token event |
| Events.IsFinishedExact | api-gateway/internal/handler/executionstreamhandler.go:81-84 | the substring test on an event's text holds if and only if the event is a finish, whatever its ids and token texts contain |
| Events.SubstringTestExact | api-gateway/internal/handler/executionstreamhandler.go:81-84 | for any compact object with harmless keys the substring test holds if and only if some member is type = finished |
| Events.HostileKeyFoolsTest | api-gateway/internal/handler/executionstreamhandler.go:81-84 | the condition on the keys is needed: a key can be chosen that fools the test |
| Sse.StreamRoundTrip | api-gateway/internal/handler/executionstreamhandler.go:60-72 | parsing the written frames yields exactly the payloads, in order, one message each |
| Sse.TruncatedStream | api-gateway/internal/handler/executionstreamhandler.go:60-76 | a connection cut anywhere yields a prefix of the payloads, never a partial or altered one |
| Sse.FrameIntactExactly | api-gateway/internal/handler/executionstreamhandler.go:67 | one frame parses to its payload if and only if the payload has no line break |
| StreamHandler.ExecutionStream | api-gateway/internal/handler/executionstreamhandler.go:26-76 | the not-found, already-over, no-flusher or forwarded response with its error message, and that the stream ends exactly on the first payload that passes the end test |
| StreamHandler.Forwarded | api-gateway/internal/handler/executionstreamhandler.go:60-76 | what is forwarded is a contiguous prefix of the channel from the subscription on, through the first finish |
| StreamHandler.ClientReceives | api-gateway/internal/handler/executionstreamhandler.go:46-76 | the client decodes exactly the channel's events through the first finished event |
| StreamHandler.OwnPayloadIsPublished | api-gateway/internal/handler/executionstreamhandler.go:34-42 | the text the handler formats for a finished execution equals the event the engine would have published |
| AiRunner.PublishToken | execution-engine/internal/runner/ai_runner.go:153-164 | one token event goes to the channel, or nothing when streaming is off |
| AiRunner.RunAnthropic | execution-engine/internal/runner/ai_runner.go:93-119 | for any chunk sequence publishes the non-empty text deltas in order and the end marker only without a stream error, and returns the joined text or the error |
| AiRunner.RunOpenAI | execution-engine/internal/runner/ai_runner.go:121-149 | the same for chunks with or without choices |
| AiRunner.TokenStreamIsOutput | execution-engine/internal/runner/ai_runner.go:93-149 | published tokens concatenate to the returned output and are followed by exactly one end marker on success, by none on a stream error |
| AiRunner.DeltaExtends | execution-engine/internal/runner/ai_runner.go:104-112 | for any chunks so far, one more chunk of type text_delta appends its text to the output and publishes it as one token unless empty; any other chunk changes neither |
| AiRunner.ChoiceExtends | execution-engine/internal/runner/ai_runner.go:132-142 | the same with the first choice of a chunk, or nothing without choices |
| AiRunner.NothingStreamed | execution-engine/internal/runner/ai_runner.go:93-149 | without chunks the output is empty and only the end marker is published |
| AiRunner.FailingStream | execution-engine/internal/runner/ai_runner.go:113-115 | a stream that fails publishes the same tokens without the marker and returns the provider's error |
| AiRunner.AllTextIsReturned | execution-engine/internal/runner/ai_runner.go:104-119 | if every chunk is text, the output document reads back as the chunks' texts in order |
| AiRunner.AllChoicesAreReturned | execution-engine/internal/runner/ai_runner.go:132-149 | the same for first choices |
| Engine.Perform | execution-engine/internal/runner/runner.go:32-49 | a step succeeds, or fails with a null output; before it is over it publishes tokens only |
| Engine.Server.RunStep | execution-engine/internal/runner/runner.go:32-49 | dispatch and run of one step: unknown type, bad configuration, prompt error, stream or plain result |
| Engine.Server.FinishExecution | execution-engine/internal/server/server.go:232-239 | stores the status first, then publishes the finish |
| Engine.Server.RunSteps | execution-engine/internal/server/server.go:151-215 | the synchronous loop performs exactly the effects of the recursive meaning, appends its rows and returns its status and error |
| Engine.Server.RunExecution | execution-engine/internal/server/server.go:39-72 | a failed load has no effect at all; otherwise running, then the whole run |
| Engine.Server.StreamExecution | execution-engine/internal/server/server.go:75-147 | same effects on rows, logs and channel as the synchronous call, the stated sequence to the caller, and as result the load error, nothing after a failed step, or the last send's result |
| Engine.Server.StreamSteps | execution-engine/internal/server/server.go:93-146 | the streaming loop performs the effects of the recursive meaning and sends one message per step and one at the end |
| Engine.Server.RunWorkflow | api-gateway/internal/engine/executor.go:29-97 | the legacy loop performs the meaning taken with the factory that knows no AI step |
| Outcomes.RowsTellOutcomes | execution-engine/internal/server/server.go:168-208 | for the rows of every loop, from what each runner did: one of the five common kinds succeeds with the runner's document or fails with its error, an AI step as its prompt and stream did, an unknown kind or a refused configuration with its message; a failed row has a null output, is the last, and its error is the failed run's |
| Outcomes.EventsTellRows | execution-engine/internal/server/server.go:193-215 | a run's events are, step by step, the tokens of the step's stream and the status and duration of its row, and then the verdict |
| EngineFacts.LogsDetermineStatus | execution-engine/internal/server/server.go:151-239 | success iff every parsed step has a success row, failed iff the last row is the failed one; rows follow the steps, start from the empty object and chain output to input |
| EngineFacts.ScriptEndsOnce | execution-engine/internal/server/server.go:39-72 | a run's status is pending, then running, then, from the second to last effect on, its verdict; it publishes one finish, last |
| EngineFacts.LegacyAgrees | api-gateway/internal/engine/runner.go:21-36 | the legacy loop equals the engine's run if that does not reach an AI step; else it shares rows and events before it, logs that step as failed and stops |
| EngineFacts.GrpcMirrorsChannel | execution-engine/internal/server/server.go:120-147 | the streaming call's messages are the channel's non-token events with each row's error added |
| EngineFacts.ListenerRebuildsOutputs | execution-engine/internal/runner/ai_runner.go:93-149 | the events of a lone execution determine the logged output of every successful AI step |
| Delivery.ClientRebuildsOutputs | api-gateway/internal/handler/executionstreamhandler.go:60-76 | so a client that connects before the first publication rebuilds those outputs from the bytes it receives |
| Delivery.StreamDelivery | api-gateway/internal/handler/executionstreamhandler.go:26-76 | for a lone execution, every moment of reading the row and of subscribing: what the client gets, and that an end it sees carries the status already stored |
| Delivery.EndIsSeenExactly | api-gateway/internal/handler/executionstreamhandler.go:27-76 | the client sees the end if and only if it subscribed before the finish publication or read the row after the status was stored |
| Delivery.OwnEndExactly | api-gateway/internal/handler/executionstreamhandler.go:46-72 | for every sequence of messages of any executions, the client sees its own execution's end if and only if it is the first finish after the subscription |
| Delivery.OtherExecutionEndsStream | api-gateway/internal/handler/executionstreamhandler.go:46-72 | if another execution finishes first, at any position, the client gets everything up to there and never its own end |
| Channels.AnnouncedExactly | execution-engine/internal/server/server.go:232-239 | in every reachable state an end is on the channel if and only if some call of that execution has run to that end |
| Channels.EndIsSeenInRun | api-gateway/internal/handler/executionstreamhandler.go:27-76 | in every run of the pipeline honest towards the execution's message, if no other execution of the workflow ends meanwhile: the client sees an end if and only if it is the verdict stored when the row was read, or was published after the subscription |
| Channels.LoneInRun | api-gateway/internal/handler/executionstreamhandler.go:26-76 | if no other execution of the workflow publishes meanwhile, that client gets exactly what Delivery.StreamDelivery says, for the effects performed when the handler read and subscribed |
| Channels.EndIsStored | execution-engine/internal/server/server.go:232-239 | an end on the channel carries the status that the row has, and it is terminal |
| Topology.AmqpChannel.DeclareTopology | api-gateway/internal/queue/publisher.go:121-157 | succeeds exactly on a compatible broker, and leaves the pipeline's exchanges, queues and bindings |
| Topology.DeclaredObjects | api-gateway/internal/queue/publisher.go:38-48 | what a new broker then holds, literally: two exchanges, two queues with their dead-letter routes and the 10000 ms on the retry queue alone, two bindings |
| Topology.RedeclaringIsHarmless | scheduler-service/cron/scheduler.go:168-197 | gateway and scheduler can declare in any order and again |
| Topology.PipelineRoutes | api-gateway/internal/queue/publisher.go:131-153 | published and expired messages reach the run queue alone, rejected ones the retry queue alone |
| Topology.OneTrip | api-gateway/internal/worker/executionworker.go:139-153 | after each rejection and expiry the front entry of x-death carries the number of rejections |
| Protocol.StepKeepsInv | api-gateway/internal/worker/executionworker.go:62-137 | every delivery, decision, reply, expiry, connection loss and restart keeps counts, back-off, conservation and queue order |
| Protocol.ReachableInv | api-gateway/internal/worker/executionworker.go:40-84 | so they hold after every run, for any number of workers |
| ProtocolFacts.MessageConservation | api-gateway/internal/worker/executionworker.go:86-137 | each accepted message is in exactly one position of one queue, one worker's hands or settled; nothing else is anywhere |
| ProtocolFacts.RetryCountExact | api-gateway/internal/worker/executionworker.go:86-91 | whenever a worker holds a message, the count it reads is the number of rejections, at most three, and ten seconds have passed for each, by the time to live that the retry queue was declared with |
| ProtocolFacts.HeadExpiresExactly | api-gateway/internal/queue/publisher.go:143-154 | on the declared queues the head of the retry queue can expire exactly from 10000 ms after its rejection on, moves to the end of the run queue alone, and nothing else expires |
| ProtocolFacts.RejectedExpiresExactly | api-gateway/internal/queue/publisher.go:143-154 | a message rejected while nothing waits can come back exactly from 10000 ms after its rejection on |
| ProtocolFacts.CallsBounded | api-gateway/internal/worker/executionworker.go:86-91 | engine calls of a settled message are at most three plus its connection losses; it is dropped as exhausted exactly at the limit |
| ProtocolFacts.RetryQueueIsFifo | api-gateway/internal/queue/publisher.go:143-154 | messages leave the retry queue in the order they were rejected |
| ProtocolFacts.WorkDecreases | api-gateway/internal/worker/executionworker.go:86-137 | each protocol step other than a trigger or a connection loss uses up a measure of the work left |
| ProtocolFacts.DrainTerminates | api-gateway/internal/worker/executionworker.go:86-137 | without those, every run is finite in protocol steps and can only come to rest with both queues and all hands empty |
| Messages.MessageRoundTrip | api-gateway/internal/queue/publisher.go:85-97 | the worker reads back the ids and payload published, whatever the payload |
| Wire.MessageText | api-gateway/internal/queue/publisher.go:50-55 | the exact text of the message, key by key |
| Messages.OddBodies | api-gateway/internal/worker/executionworker.go:93-98 | missing keys read as zeros, an id of the wrong kind makes the body unreadable |
| Messages.CountIsDeathCount | api-gateway/internal/worker/executionworker.go:139-153 | through the header table the worker reads the front entry's count |
| Messages.HeaderReads | api-gateway/internal/worker/executionworker.go:139-153 | the reading of an x-death header entry by entry: the first entry's integer count, and zero for a missing header, an empty list or any other shape |
| Messages.TraceHeadersHarmless | api-gateway/internal/queue/publisher.go:15-36 | trace headers set in place do not disturb that reading |
| Worker.Consumer.Handle | api-gateway/internal/worker/executionworker.go:86-137 | with others acting while it works and its own connection possibly lost before it acknowledges, every path settles or rejects the delivery as the protocol decides or returns it to the queue, and asks for the row and the run that the body names |
| Worker.Consumer.Consume | api-gateway/internal/worker/executionworker.go:62-84 | the loop, with arbitrary steps of everyone else before and during each delivery, performs one protocol round per delivery, one delivery at a time, ends when its channel is lost and closes it on cancellation |
| Worker.QueriesName | api-gateway/internal/worker/executionworker.go:109-127 | for a published message with retries left the handler looks up the row of its execution, and calls the engine with its ids and payload if there is one |
| Worker.OneVerdict | api-gateway/internal/worker/executionworker.go:86-137 | each delivery that is not lost is settled or rejected, never both: rejected exactly when its header counts less than three, its body can be read, and the lookup failed or the engine call that the row led to did; the engine is called once if there is a row, else not |
| Worker.ConsumerKeepsProtocol | api-gateway/internal/worker/executionworker.go:62-137 | a consumer's rounds keep the protocol's invariant |
| Producers.Producer.TriggerWorkflow | api-gateway/internal/logic/executionlogic.go:31-71 | nothing without a workflow or a stored row; a pending row; a message that the worker reads as its ids and the given payload, or an empty object for an empty one; a failed publish leaves the row; each error's message |
| Producers.Producer.TriggerScheduled | scheduler-service/cron/scheduler.go:138-166 | the scheduler's copy: pending row, the fixed payload in what the worker reads, errors swallowed |
| Producers.AttemptIsTrigger | api-gateway/internal/logic/executionlogic.go:47-65 | an attempt that stores a row is a trigger step of the system, and its publication is the message that step enqueues |
| Producers.StoreMirrors | scheduler-service/cron/scheduler.go:138-166 | over every run the rows and publications of the producers stay those of the system, with the payloads asked for, whatever workers, engine and broker do in between |
| Producers.ProducersMessagesAreHandled | api-gateway/internal/worker/executionworker.go:93-98 | after every run the publications of its triggers are exactly the accepted messages, and each reads back as the ids of a stored row of its workflow and the payload its trigger asked for, with a zero count |
| System.StepKeepsInv | api-gateway/internal/worker/executionworker.go:111-136 | every step of the whole pipeline keeps referential integrity, call counts and the match of rows to calls, and what is known of one watched message as long as the step is honest towards it |
| System.Reached | execution-engine/internal/server/server.go:39-72 | so they hold in every reachable state |
| SystemFacts.ReferentialIntegrity | api-gateway/internal/worker/executionworker.go:111-118 | every message names an existing row of its own workflow, no two the same row, and none is dropped as unreadable or rowless, whatever fails |
| SystemFacts.AttemptDecomposition | execution-engine/internal/server/server.go:151-230 | the rows tagged with one call follow the steps, chain, and succeed except possibly the last; a completed call has them all |
| SystemFacts.AttemptsBounded | api-gateway/internal/worker/executionworker.go:86-91 | at most three engine calls per message plus one for each connection loss of that very message |
| SystemFacts.AttemptsInRun | api-gateway/internal/worker/executionworker.go:86-91 | hence at most three plus the connection losses of the run |
| SystemFacts.AtMostOnce | api-gateway/internal/worker/executionworker.go:124-136 | in a run honest towards one message all rows of its execution are those of one attempt's performed part, or there are none |
| SystemFacts.StatusMoves | execution-engine/internal/server/server.go:62-64 | its row only moves from pending to running to a verdict |
| SystemFacts.VerdictStays | execution-engine/internal/server/server.go:232-239 | over a whole such run its status never moves back and its verdict is never overwritten |
| SystemFacts.SettledExactly | api-gateway/internal/worker/executionworker.go:87-91 | the row of a settled message to which the run was strictly honest has a verdict, with exactly that attempt's rows, if and only if its count is below the limit; else it is pending with no rows |
| GiveUp.CalledAgainExactly | api-gateway/internal/worker/executionworker.go:129-133 | in every state that the invariant describes, after a worker gives up on any engine call some continuation calls the engine again for the message if and only if it was a connection loss or not the last rejection |
| GiveUp.GiveUpInRun | api-gateway/internal/worker/executionworker.go:129-133 | so in every state that any run reaches, whatever has failed before |
| GiveUp.GiveUpExactly | api-gateway/internal/worker/executionworker.go:129-133 | if the call was live and all was honest towards its message, the same condition decides whether some continuation overwrites the execution's verdict; for any queue contents and any state of the call |
| GiveUp.OverwrittenInRun | api-gateway/internal/worker/executionworker.go:129-133 | the same in every state that a run honest towards the message reaches |
| GiveUp.HonestExactly | api-gateway/internal/worker/executionworker.go:129-133 | a step is honest towards a message if and only if no continuation in which no worker gives up on a call overwrites its execution's verdict, and if and only if none without any trigger or fault at all does |
| GiveUp.RunsAgain | execution-engine/internal/server/server.go:62 | without any further trigger, error reply, connection loss, failed lookup or refused call the verdict can be stored, set back to running by a second run of the same steps, and both calls leave their complete sets of rows |
| Runs.OverwrittenRun | execution-engine/internal/server/server.go:62 | for every workflow and every behaviour of its steps there is such a run from the initial state: one worker, one trigger, one error reply as the only fault, two calls of the one execution |
| Runs.ExhaustedRun | api-gateway/internal/worker/executionworker.go:87-91 | for every workflow a run from the initial state with one trigger and three failed row lookups as its only faults, in which the message is dropped at the limit and its row is pending |
| Runs.PendingForGood | api-gateway/internal/worker/executionworker.go:87-91 | whatever follows, that row stays pending |
| Verdicts.VerdictExactly | api-gateway/internal/worker/executionworker.go:87-91 | in every drained run an execution to whose message the run was strictly honest has a verdict if and only if that message was accepted and settled below the limit; otherwise it is pending |
| Verdicts.OrphansArePending | api-gateway/internal/logic/executionlogic.go:47-65 | in every run a row that no accepted message names is pending |
| Verdicts.OrphanForGood | api-gateway/internal/logic/executionlogic.go:63-65 | and stays without a message and pending, whatever follows |
| Verdicts.OrphanRun | scheduler-service/cron/scheduler.go:161-163 | for every workflow the run of one trigger whose publish fails: drained, strictly honest, no message settled, its row pending |
| Verdicts.StrictlyExactly | api-gateway/internal/worker/executionworker.go:87-91 | a step is strictly honest towards a message if and only if no continuation in which no worker gives up on a call settles the message against its death count |
| Verdicts.Exhaust | api-gateway/internal/worker/executionworker.go:111-118 | from any state in which a message is queued, failed row lookups alone, one for each rejection left, lead to its being dropped at the limit, with its row as before |
| Scheduler.FiresExactly | scheduler-service/cron/scheduler.go:115-134 | a check fires iff its minute matches or nothing matches up to the library's horizon |
| Scheduler.FiresOnMatchesExactly | scheduler-service/cron/scheduler.go:130-134 | firing equals matching in a minute iff the expression has a match ahead |
| Scheduler.FieldsDecide | scheduler-service/cron/scheduler.go:130-134 | given a match ahead, which minutes fire, field by field: minute, hour and month bind, and the two day fields as the standard five-field rule has it |
| Scheduler.ImpossibleDateAlwaysFires | scheduler-service/cron/scheduler.go:130-134 | the thirtieth of February fires at every check |
| Scheduler.Scheduler.CheckAndTrigger | scheduler-service/cron/scheduler.go:106-136 | triggers the due rows of the table in order, each once, and changes the store by exactly those attempts |
| Scheduler.Scheduler.Run | scheduler-service/cron/scheduler.go:86-104 | one check at once and one per tick, nothing else |
| Scheduler.HowOftenCounts | scheduler-service/cron/scheduler.go:118-134 | the number of triggers of a workflow in a minute, counted in the list the loops produce |
| Scheduler.PunctualExactly | scheduler-service/cron/scheduler.go:90-102 | the checks visit the minutes one by one iff no tick's lag leaves its minute |
| Scheduler.FiresExactlyOnce | scheduler-service/cron/scheduler.go:86-136 | over any number of such ticks every minute triggers each row of its table once if due, else not at all |
| Scheduler.MatchingMinuteFiresOnce | scheduler-service/cron/scheduler.go:86-136 | an active schedule is triggered once in each minute it matches and not in the others, given a match ahead |
| Scheduler.BarredNeverFires | scheduler-service/cron/scheduler.go:107-119 | over arbitrary checks, a workflow that is inactive, deleted, not scheduled or without a cron expression in the tables of a minute is triggered 0 times in it |
| Scheduler.ActiveScheduleFiresOnce | scheduler-service/cron/scheduler.go:107-136 | in any check, an active undeleted schedule whose expression matches the minute is triggered once |
| Scheduler.NoOtherWorkflowFires | scheduler-service/cron/scheduler.go:107-113 | a workflow without a row in the table of a minute is not triggered in it |
| Scheduler.NoOtherMinuteFires | scheduler-service/cron/scheduler.go:86-104 | no minute before the start or after the last tick triggers anything |
| Scheduler.VisitedExactly | scheduler-service/cron/scheduler.go:92-102 | for arbitrary lags, a minute is checked if and only if it is the first, or its own tick or an earlier one lands in it |
| Scheduler.LateTickLosesMinute | scheduler-service/cron/scheduler.go:92-102 | a tick received over the end of its minute loses that minute for every workflow, unless an earlier tick was so late that it landed there |
| Scheduler.AttemptsAreTriggers | scheduler-service/cron/scheduler.go:138-166 | a check's attempts are exactly the trigger steps of the system for the due rows that could be stored, in order, each message with the schedule payload |
| WorkflowStore.ItemRoundTrip | api-gateway/internal/logic/workflowlogic.go:93-99 | an item survives its cached text unchanged |
| WorkflowStore.Store.GetWorkflow | api-gateway/internal/logic/workflowlogic.go:89-124 | for any cache contents: a readable entry is answered after the owner check, anything else by the database, and only the latter is cached, for 300 seconds; only an admin is ever served a deleted row, another user's row, or anything while the database is down; a coherent cache stays so and answers as the database alone would, except on a hit while the database read fails |
| WorkflowStore.Store.UpdateWorkflow | api-gateway/internal/logic/workflowlogic.go:138-168 | refusals and database errors change nothing; each given field goes to its own column, empty ones are kept, the flag is set, owner and deleted flag stay; a coherent cache stays coherent iff the update failed, the delete succeeded, nothing was cached or the item is unchanged |
| WorkflowStore.UpdateRewrites | api-gateway/internal/logic/workflowlogic.go:138-168 | which updates succeed, with which error others end, and that no other row changes |
| WorkflowStore.UpdateThenGet | api-gateway/internal/logic/workflowlogic.go:151-162 | whoever is served the item after an update sees the given text of each field, or the old one if none was given, and the given flag |
| WorkflowStore.GetShowsRow | api-gateway/internal/logic/workflowlogic.go:103-115 | a get serves exactly the live rows that are open, one's own, or asked for by an admin, column by column; anything else is not found or forbidden |
| WorkflowStore.OthersAreRefused | api-gateway/internal/logic/workflowlogic.go:217-258 | another user's workflow is neither served nor changed, whatever the cache and the database do |
| WorkflowStore.Store.DeleteWorkflow | api-gateway/internal/logic/workflowlogic.go:182-199 | soft delete with the same checks and errors; a coherent cache stays coherent iff it failed, the delete succeeded or nothing was cached |
| WorkflowStore.DeleteMarks | api-gateway/internal/logic/workflowlogic.go:182-199 | which deletes succeed, and that one marks its row alone and changes nothing else of it |
| WorkflowStore.DeleteThenGet | api-gateway/internal/logic/workflowlogic.go:182-199 | after it nobody is served the row, and every other get answers as before |
| WorkflowStore.Store.CreateWorkflow | api-gateway/internal/logic/workflowlogic.go:32-45 | a fresh active row owned by the caller, or nothing when the insert fails; the cache stays coherent |
| WorkflowStore.CreateThenGet | api-gateway/internal/logic/workflowlogic.go:32-45 | the creator is then served the given fields, active, under the answered id |
| WorkflowStore.Store.CheckOwnership | api-gateway/internal/logic/workflowlogic.go:217-258 | admins pass, ownerless rows are open, a failed load reads as not found |
| WorkflowStore.CachedForFiveMinutes | api-gateway/internal/logic/workflowlogic.go:119-121 | what a get caches is there until 300 seconds later and no longer |
| WorkflowStore.PerformAll | api-gateway/internal/logic/workflowlogic.go:89-199 | over any sequence of calls, expiries, Redis misses and database errors whose Redis deletes succeed, every answer equals the uncached one, except that a hit may answer a get whose database read fails |
| CacheTiming.BoundedStaleness | api-gateway/internal/logic/workflowlogic.go:89-124 | under any interleaving, even if no Redis delete succeeds, an item served at t was the row's value at some instant in [t - 300 - delta, t] |
| CacheTiming.StaleHitExactly | api-gateway/internal/logic/workflowlogic.go:118-121 | operation by operation: after a write and anything but another write, with or without its delete, a hit serves an older version iff the last step to change the cache was a successful SetEx of a request that had read the row before the write, or nothing has changed what was cached before; with a delete, iff the former |
| CacheTiming.UpToDateServesCurrent | api-gateway/internal/logic/workflowlogic.go:92-100 | while everything cached or about to be cached is the latest version, every step but a write keeps it so and a hit serves the latest item |
| CacheTiming.InvalidationRaces | api-gateway/internal/logic/workflowlogic.go:118-121 | for every delta and every wait under 300 seconds there is a run that serves the old item that long after an update whose delete succeeded |

## Left out

- HTTP, gRPC, AMQP, Redis and database transport, routing of requests, authentication: user, role and every outcome are inputs.
- The outputs of HTTP, transform, delay, condition and email steps, prompt templates and provider SDKs: a runner returns an arbitrary document or error; step timeouts appear as such errors.
- General JSON: documents are kept as their text, and the readers accept compact objects of strings, naturals and booleans; duplicate or differently cased keys and invalid UTF-8 are not modelled.
- The reader of RFC 8259 strings does not combine surrogate pairs, which the services' encoder never writes; the event-stream parser ignores the retry field, which the handler never writes.
- The engine's model of a workflow declares a numeric user id where the gateway stores text; a load that fails for this reason is one of the refused calls.
- The cron parser: expressions are given as parsed fields, a workflow whose configuration or expression is invalid as one without; descriptors such as `@every`, time zones and clock shifts are not modelled.
- Topic wildcards, publisher confirms, broker restarts and queue limits: the declared bindings use no wildcard, and an accepted message stays until it is settled.
- Negative ids in request paths, which never name a row, and the wrap-around of machine integers.
- The listing endpoints, tracing spans, graceful shutdown beyond closing an idle channel, and the errors of dialling at start-up.
- The bodies that the web framework writes for its error answers, beyond their messages.
- The moment between the client's disconnect and the handler's return, beyond the prefix property of a cut connection.
