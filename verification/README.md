# A verified model of the LLM call logger

The repository logs every LLM call as one event and promises "one call, one event, one row, whatever
fails". This project models the four parts that promise rests on and proves what they keep:

- **Ingestion** (`Events`, `Store`, `Broker`, `IngestionProtocol`, `IngestionSafety`,
  `IngestionConfluence`, `IngestionTurns`, `IngestionStranding`, `IngestionWitnesses`,
  `IngestionWorker`). A transition system of request handlers that commit a turn, call the provider and
  publish their record, a bounded stream with its consumer group, any number of workers that can stop
  between any two awaits, aborted transactions, redelivery, lost groups and lost streams, and the
  tables. Safety is proved for every reachable state and confluence for every pair of runs; the headline
  itself is `IngestionTurns.OneCallOneRow`. The producers in it are those of `Publishing`, step by step,
  and what they publish is the record that `Instrumentation.StreamChat` computes. The worker,
  the broker client, the repositories and the unit of work are classes whose methods are proved to be
  runs of that system (`IngestionWorker.WorkerRunsAreRuns`), exceptions at every await included.
- **The call and the turn** (`Instrumentation`, `Publishing`, `ChatStream`, `Conversations`, `History`,
  `UserTurn`).
  What the wrapper passes on and records; the shielded publish under any number of cancellations; the
  streamed turn with its two transactions; gap-free `seq` allocation under concurrent transactions; the
  history window.
- **Server-Sent Events** (`Json`, `ChatEvents`, `SseWire`, `SseQueue`). Printer and incremental parser
  down to the characters, chunking independence, and the bounded queue between the generation and the
  response as a state machine of producer, watcher and consumer. The framing is a subset of sections
  9.2.5 and 9.2.6 of the WHATWG HTML Living Standard; that JSON strings hold no raw control characters
  is section 7 of RFC 8259, and it is proved of the encoder here rather than assumed.
- **Reading back** (`Paging`): keyset paging against the sorted list, on fixed and on changing tables.

`EndToEnd` joins the turn, the printer, the queue and the parser into one statement about what the
user's screen shows.

Concurrency is modelled by labels: one label is one stretch of code between two suspension points, so
theorems over all label sequences are theorems over all interleavings. Times are integers.

## Where the code and its own description differ

The model follows the code. The differences are stated as theorems, with the exact condition under which
the description holds and an input on which it does not.

- "The batch was not acked, so Redis will redeliver it" (`backend/app/worker/consumer.py:78-80`, also
  `:16-18`). `poll` reads only `">"` and nothing claims pending entries, so a delivery dropped by an
  exception is pending forever unless the group is lost or somebody hands it out from outside:
  `IngestionStranding.AbandonStrandsTheRest`, `IngestionStranding.StrandedStaysStranded`, and the run
  `IngestionWitnesses.AStrandedDeliveryIsReachable`. Redelivery is therefore a step of the environment
  (`Redeliver`), and only safety is claimed.
- "Always signals completion ... so the consumer below can never be left waiting on a dead producer"
  (`backend/app/api/sse.py:95-98`). The marker is dropped when the queue is full, and then the response
  never ends by itself: `SseQueue.ResponseEndsIffQueueHadRoom`, with the run
  `SseQueue.ExactlyFullSourceHangs` for every capacity.
- The teardown awaits the producer so that its cleanup runs (`backend/app/api/sse.py:112-117`), and that
  wait can be for ever as well. A source that swallows the cancellation and yields again, as the turn does when it
  reports a provider error after `_persist_partial` (`backend/app/services/chat.py:364-365` and
  `:389-392`), blocks on a full queue that nobody reads any more:
  `SseQueue.TeardownEndsIffSourceStops`, with the run `SseQueue.SourceThatYieldsOnHangsTheTeardown`, and
  that run with the frames of such a turn, `EndToEnd.TurnHangsItsTeardown`.
- "Keep whatever they already saw so the transcript matches the screen" (`backend/app/services/chat.py:355-357`)
  holds only where the cancellation is raised inside the provider loop. One that lands on `queue.put`
  never reaches the turn, which is closed at its yield and stores nothing:
  `EndToEnd.InterruptedPutKeepsNothing`, `EndToEnd.ShownButNotStored`.
- "Errors and cancellations produce exactly one of these too" (`backend/app/domain/events.py:35-41`)
  needs the event to be constructible. `Instrumentation.ConstructibleExactly` gives the condition; when
  it fails, nothing is published and the call's own outcome is replaced by the validation error:
  `Instrumentation.EmptyMessageIsRefused`, `Instrumentation.ClockStepBackIsRefused`.
- "The service calls the same `complete()` either way and has no idea it is being logged"
  (`backend/app/services/chat.py:131-132`). The publish wait in the wrapper's `finally` is one more place
  where a cancellation can land, and it then replaces the call's own ending:
  `Instrumentation.CompleteInstrumented` (if and only if), `Instrumentation.InterruptedWaitHidesTheEnding`.
- The usage in the response is the last report whole, the usage in the log is merged per field.
  `Instrumentation.ResponseUsageAgreesWithLog` says exactly when they agree, and
  `Instrumentation.SplitUsageDisagrees` shows that the Anthropic adapter's two-part report is a case
  where they do not.
- A JSON `null` decodes to `None` and is treated as malformed; any other JSON value that is not an object
  raises in `_extract_id` (`backend/app/worker/consumer.py:153`), so it is never acknowledged and stops
  its batch: `IngestionSafety.AckedIsAccountedFor`, `IngestionWitnesses.NonObjectStrandsItsNeighbour`.
- The event model bounds its integers from below only, the columns are four bytes wide:
  `Events.TableRefusesOnlyWideIntegers`, `IngestionWitnesses.WideCounterNeverLands`.

`recent_window` with a limit of 0 would send the whole history, because `history[-0:]` is the whole list
(`History.ZeroLimitIsNoLimit`); the settings admit no limit below 2 (`backend/app/core/config.py:149`), so the
service never asks for it.

## Model

| member | source | states |
|---|---|---|
| Events.TableRefusesOnlyWideIntegers | backend/app/db/models.py:162-228 | Among events that validate, the columns and CHECKs of `inference_logs` refuse exactly those with an integer that does not fit four bytes. |
| Events.ValidatesExactly | backend/app/domain/events.py:43-89 | The schema accepts a payload if and only if it has a usable id, every declared field with a parsable value and no other key, the one event type or none spelled out, and values within the bounds; the event is then the payload's. |
| Store.RawEventRepository.Record | backend/app/db/repositories/raw_events.py:23-37 | Inserts a PENDING row unless the id is there, says which, and raises exactly when the event type is wider than its column. |
| Store.RawEventRepository.MarkProcessed | backend/app/db/repositories/raw_events.py:39-48 | Sets the status of the row with this id, if any, and touches nothing else. |
| Store.RawEventRepository.MarkFailed | backend/app/db/repositories/raw_events.py:50-61 | Sets the status of the row with this id, if any, and touches nothing else. |
| Store.InferenceLogRepository.Upsert | backend/app/db/repositories/inference_logs.py:18-35 | Insert-if-absent: never overwrites, returns true exactly when a row was added, raises exactly on a refused value or, for a new row, a missing conversation. |
| Store.LandIsIdempotent | backend/app/db/repositories/inference_logs.py:21-28 | Handling the same payload again leaves the tables as they are: redelivery is absorbed. |
| Store.LandCommutes | backend/app/worker/consumer.py:117-145 | Two payloads with different ids land in either order with the same tables. |
| Store.TransactionFailsExactly | backend/app/worker/consumer.py:117-145 | The transaction fails if and only if the event type is longer than 64 characters, or an accepted event has a counter above 2147483647 or names a missing conversation in a new row. |
| Store.DeleteForgetsOnlyTheName | backend/app/db/models.py:145-151 | Deleting a conversation takes from the log rows that named it nothing but that name, and leaves every other log row and every raw row alone. |
| Broker.PublishKeepsTheNewest | backend/app/events/redis_bus.py:45-54 | A publish adds one entry, touches neither group nor letters, and trims none of the newest `maxlen`. |
| Broker.WhatLossesTake | backend/app/events/redis_bus.py:115-119 | Losing the stream takes its entries and its group, losing the group alone takes no entry, and neither takes a dead letter. |
| IngestionWorker.RedisEventStream.EnsureGroup | backend/app/events/redis_bus.py:88-97 | Creates a missing group at id 0 and leaves an existing one untouched. |
| IngestionWorker.RedisEventStream.Ack | backend/app/events/redis_bus.py:139-140 | Moves the delivery from pending to acknowledged, or changes nothing and raises. |
| IngestionWorker.RedisEventStream.SendLetter | backend/app/events/redis_bus.py:142-149 | Appends the payload and its reason to the dead-letter stream, or changes nothing and raises. |
| IngestionWorker.RedisEventStream.ReadGroup | backend/app/events/redis_bus.py:104-111 | Hands out as pending the next consecutive positions neither offered before nor trimmed: `count` of them, or all there are when there are fewer. |
| IngestionWorker.RedisEventStream.Decode | backend/app/events/redis_bus.py:127-135 | A malformed entry is lettered before it is acknowledged and yields nothing; any other is passed on untouched. |
| IngestionWorker.RedisEventStream.Poll | backend/app/events/redis_bus.py:99-137 | The cursor moves on by `count` or to the end of the stream; returned is the decodable part of what it passed, in order, the rest having been lettered and acknowledged; a missing group is recreated and nothing returned; and all this is a run of the protocol even when an await raises in the middle. |
| IngestionWorker.PollTakesTheNext | backend/app/events/redis_bus.py:104-111 | What a poll is offered is the next `count` entries or all that are left, and nothing only if nothing was asked for or there is no backlog. |
| IngestionWorker.RedisEventStream.DecodeAll | backend/app/events/redis_bus.py:125-137 | The loop of `poll`: the batch is the decodable entries in order, the broker is what lettering and acknowledging the others one after the other gives. |
| IngestionWorker.DecodingAcksTheRest | backend/app/events/redis_bus.py:127-135 | Whatever does not join the batch has been acknowledged. |
| IngestionWorker.DecodedExactly | backend/app/events/redis_bus.py:126-137 | The batch holds each offered entry as often as it was offered, unless it has no data field, no JSON in it, or `null`. |
| IngestionWorker.DecodedInOrder | backend/app/events/redis_bus.py:126-137 | And in the order in which the entries were offered. |
| IngestionWorker.IngestionWorker.Write | backend/app/worker/consumer.py:121-145 | The statements inside the session amount to `Land` on the session's own view; a rejected payload's dead letter goes out before the commit; the counter moved is the one for the payload's fate. |
| IngestionWorker.IngestionWorker.Handle | backend/app/worker/consumer.py:106-149 | One delivery: it succeeds exactly when no await fails and the payload is not poison, and then its rows are committed, it is acknowledged and one counter moved; whatever fails, the tables are those before or those after it, and what happened is a run of the protocol, in which the ack comes after the commit. |
| IngestionWorker.IngestionWorker.HandleAll | backend/app/worker/consumer.py:92-93 | The loop over the batch: counters balance, `inserted` is the number of log rows added, everything handled is acknowledged, and it raises only for a failed await or a poison entry. |
| IngestionWorker.IngestionWorker.ProcessBatch | backend/app/worker/consumer.py:86-104 | A batch that returns has acknowledged every entry it was offered, `inserted + duplicates + rejected == received`, and there is one new dead letter for each payload counted as rejected and each entry that did not decode; with no other worker writing meanwhile, `inserted` equals the growth of `inference_logs`; and however it ends, the next batch can follow. |
| IngestionWorker.IngestionWorker.RunForever | backend/app/worker/consumer.py:70-84 | Any number of batches, failing or not, one after the other, are one run of the protocol that leaves the worker idle; if `ensure_group` fails nothing has changed. |
| IngestionConfluence.InsertedCountsAddUp | backend/app/worker/consumer.py:138-145 | With any number of interleaved workers, the commits counted as inserted are together exactly the log rows added. |
| IngestionWorker.HandlingCountsRows | backend/app/worker/consumer.py:135-145 | `inserted` moves exactly when a log row is added, and exactly one counter moves for each delivery. |
| IngestionWorker.IngestionWorker.Transact | backend/app/db/session.py:52-66 | The unit of work around one delivery is all or nothing: it succeeds exactly when no await fails and the payload can land, and then the tables are those after handling it; in every other case they are untouched. |
| IngestionWorker.WorkerRunsAreRuns | backend/app/worker/consumer.py:86-149 | What a worker's methods do alone is a run of the whole pipeline, so every reachable-state theorem applies to the states the code leaves behind. |
| IngestionSafety.NextKeepsInv | backend/app/worker/consumer.py:8-19 | Every step of every participant keeps the pipeline's invariant: accounting, table consistency, group conservation, and what each worker knows about its batch. |
| IngestionSafety.AckedIsAccountedFor | backend/app/worker/consumer.py:109-149 | In every reachable state: an acknowledged entry without decodable data, or without a usable id, has its dead letter; one with an id has a raw row, and a log row if it is well typed, of the one event type and within the bounds, and a dead letter if it is not; a non-object is never acknowledged. |
| IngestionSafety.CommittedTablesAgree | backend/app/worker/consumer.py:117-145 | In every reachable state no raw row is PENDING, PROCESSED implies a log row, a log row implies a raw row, and every log row's conversation is null or alive. |
| IngestionSafety.EveryRetainedEntryIsInOnePlace | backend/app/events/redis_bus.py:99-140 | Every entry still in the stream is in exactly one of undelivered, pending and acknowledged. |
| IngestionSafety.EnsureGroupSkipsNothing | backend/app/events/redis_bus.py:88-97 | A second `ensure_group` resets nothing; one after a loss offers every retained entry again. |
| IngestionSafety.EachEntryGoesToOneConsumer | backend/app/events/redis_bus.py:74-79 | While the group survives, no two reads of any workers hand out the same entry, and what was handed out is exactly what is pending or acknowledged. |
| IngestionConfluence.IngestionIsConfluent | backend/app/worker/consumer.py:106-149 | If an id determines its payload, two runs that committed the same ids and left the same conversations alive have the same tables, row for row: order, duplicates, crashes, aborts and the choice of worker leave no trace. |
| IngestionConfluence.RawRowsAreTheCommittedIds | backend/app/worker/consumer.py:121-125 | The raw rows are exactly the ids handled in a committed transaction, along any run. |
| IngestionConfluence.StatusTellsTheLogRow | backend/app/worker/consumer.py:127-139 | With determined payloads, a raw row is PROCESSED iff there is a log row and FAILED iff there is none. |
| IngestionConfluence.RejectedNeverShows | backend/app/worker/consumer.py:127-136 | With determined payloads, an id whose payload is not well typed, is of another event type or breaks the bounds has no log row, and its raw row says FAILED and keeps the payload. |
| IngestionConfluence.SharedIdIsOrderSensitive | backend/app/db/repositories/raw_events.py:26-37 | The premise of confluence is needed: two payloads sharing a fresh id commute if and only if they are the same payload. |
| IngestionSafety.NextKeepsNames | backend/app/services/chat.py:164-187 | Every step keeps: a turn whose first transaction has committed names a committed conversation, one still in it names a new conversation exactly if it creates it, and no other open turn names that one. |
| IngestionSafety.TurnCommitsExactly | backend/app/services/chat.py:173-187 | A turn gets past its first transaction exactly if its conversation is new or still there at the commit, which it then is; otherwise nothing has changed. |
| IngestionTurns.OneEntryPerCall | backend/app/instrumentation/wrapper.py:69-72 | Without foreign writers no two entries share an id; an entry with a call's id is that call's own record, there is one exactly if its publish landed, and it names the conversation that call's turn had committed. |
| IngestionTurns.CallCarriesItsRequest | backend/app/services/chat.py:325-336 | A turn calls the provider at most once, after its commit, for the conversation it committed, under an id no other call has and with the request's parameters. |
| IngestionTurns.OwnRunsHaveACatalogue | backend/app/instrumentation/wrapper.py:69-72 | So an id determines its payload in every such run, and the premise of confluence holds. |
| IngestionTurns.RowsComeFromCalls | backend/app/worker/consumer.py:128-139 | Every committed row belongs to exactly one call, whose publish landed, and shows that call's own record. |
| IngestionTurns.OneCallOneRow | backend/app/domain/events.py:35-51 | One call, one event, one row: a call that has ended has a row iff its id was handled in a committed transaction; the row equals the record of that very call in everything but the conversation, which is null exactly if the record names none or it is no longer there; no other call has that id; and once the calls are quiet the record has been published exactly once if it is constructible and never otherwise. |
| IngestionTurns.ForeignKeyFailsOnlyAfterDeletion | backend/app/db/models.py:149-151 | A transaction for one of our own events cannot commit if and only if a counter overflows its column, or the row is new and its conversation was deleted after the user turn committed. |
| IngestionStranding.StrandedStaysStranded | backend/app/events/redis_bus.py:105-111 | A pending delivery in no worker's hands stays pending, unacknowledged and unhanded in every run without an outside rescue. |
| IngestionStranding.AbandonStrandsTheRest | backend/app/worker/consumer.py:75-82 | An exception in a batch strands exactly the deliveries in that worker's hands that are still pending. |
| IngestionWitnesses.AStrandedDeliveryIsReachable | backend/app/worker/consumer.py:75-82 | A run of one turn and one worker in which a published event is stranded without a row. |
| IngestionWitnesses.NonObjectStrandsItsNeighbour | backend/app/worker/consumer.py:152-153 | A reachable batch with a non-object in front of a valid event: the worker can only give up, and both stay behind with neither row nor dead letter. |
| IngestionWitnesses.WideCounterNeverLands | backend/app/db/models.py:185-187 | A call with one token more than four bytes hold: its event is constructible, and its transaction fails against every state of the tables. |
| Publishing.EachCallPublishesOnce | backend/app/instrumentation/wrapper.py:187-215 | Once the loop is quiet, what each call has had published is its own record, once, if that is constructible, and nothing otherwise, whatever the outcome, interleaving and number of cancellations. |
| Publishing.RecordIsOfTheYields | backend/app/instrumentation/wrapper.py:90-102 | The chunks of a call's record are all those its consumer was given, in order, and no others. |
| Publishing.OutcomesAreTheWrappers | backend/app/instrumentation/wrapper.py:104-144 | Under every interleaving a call ends for its consumer as the wrapper's contract says: with `CancelledError` when a cancellation struck the wait for a constructible event, else with what the bus or the inner call raised, if anything. |
| Publishing.InflightHoldsEveryRunningTask | backend/app/instrumentation/wrapper.py:207-209 | A publish that has not finished is referenced by `_INFLIGHT`, in every reachable state. |
| Publishing.CreatedTasksSurvive | backend/app/instrumentation/wrapper.py:211-215 | From its creation a publish runs on or has published that very event, whatever cancellations follow. |
| Publishing.NothingGetsStuck | backend/app/instrumentation/wrapper.py:187-215 | In every reachable state, whatever has been cancelled, a running publish can finish and a call that is not over can move on by itself. |
| Instrumentation.StreamChat | backend/app/instrumentation/wrapper.py:68-144 | Yields the inner chunks in order and hands the bus the record of the call; the ending passes through unless the record is not constructible (validation error, nothing published) or the publish wait raises (a cancellation, or the bus itself). |
| Instrumentation.ConstructibleExactly | backend/app/domain/events.py:57-89 | The event can be constructed if and only if the wall clock did not step back, the names and reasons fit, the last counts are not negative, and a provider error carries a message. |
| Instrumentation.EmptyMessageIsRefused | backend/app/domain/events.py:87-88 | A provider error with an empty message: no event, and the consumer gets the validation error. |
| Instrumentation.ClockStepBackIsRefused | backend/app/domain/events.py:85-86 | A wall clock set back during a successful call: no event, and the consumer gets the validation error. |
| Instrumentation.InterruptedWaitHidesTheEnding | backend/app/instrumentation/wrapper.py:211-215 | A cancellation during the publish wait turns a success and a provider error alike into `CancelledError`. |
| Instrumentation.StatusTellsTheEnding | backend/app/instrumentation/wrapper.py:238-268 | Success iff exhausted, cancelled iff `CancelledError` or `GeneratorExit`; an error type only for errors, a message for everything but success. |
| Instrumentation.FailureIsRecorded | backend/app/instrumentation/wrapper.py:259-268 | For each kind of ending the exact error type and message: the vendor's own type where one was recorded, else the class name; the provider's message; the text or else the class name; "Cancelled by client" and no type; nothing for a success. |
| Instrumentation.CallIsRecorded | backend/app/instrumentation/wrapper.py:116-141 | Names, conversation, `streamed` and wall-clock times are the call's own; latency and TTFT are whole milliseconds, rounded down, from the start to the end and to the first chunk with text. |
| Instrumentation.UsageIsRecorded | backend/app/instrumentation/wrapper.py:218-235 | Each token count is the last one that any chunk reported, whichever chunk reported the other, and null if none did. |
| Instrumentation.ReasonIsRecorded | backend/app/instrumentation/wrapper.py:99 | The finish reason is the last one that is not empty. |
| Instrumentation.MetadataIsLast | backend/app/instrumentation/wrapper.py:100 | Merged metadata has the keys of all chunks, each with the value of the last chunk that has it. |
| Instrumentation.MetadataIsRecorded | backend/app/instrumentation/wrapper.py:141 | The record's metadata is that, or null exactly if no chunk has any. |
| Instrumentation.OutcomeExactly | backend/app/instrumentation/wrapper.py:104-144 | How the consumer's stream ends, case by case: the refused event first, then what the publish wait raises, then the call's own ending. |
| Instrumentation.TtftWithinLatency | backend/app/instrumentation/wrapper.py:91-95 | TTFT is null iff no text was emitted; otherwise it is the time of the first chunk with text and lies between 0 and the latency. |
| Instrumentation.LastSomeIsLast | backend/app/instrumentation/wrapper.py:218-223 | "The last non-null value" in quantifier form: a reported value after which nothing is reported. |
| Instrumentation.MergeIsAMonoid | backend/app/instrumentation/wrapper.py:218-235 | Merging usage reports is associative with the empty report as identity. |
| Instrumentation.ObservedStep | backend/app/instrumentation/wrapper.py:91-100 | One turn of the loop takes the closed-form record of a prefix of the chunks to that of the next prefix. |
| Instrumentation.Complete | backend/app/providers/base.py:169-193 | Returns the joined text, the last usage, the last finish reason and the merged metadata of whatever stream it drains, or raises just what that raises. |
| Instrumentation.CompleteInstrumented | backend/app/services/chat.py:131-152 | `complete()` through the wrapper has the same response or exception as on the bare adapter if and only if the event is constructible and the publish wait raises nothing new; in the two other cases it raises the validation error and what the wait raised. |
| Instrumentation.ResponseUsageAgreesWithLog | backend/app/providers/base.py:180-193 | Response and log agree on usage if and only if every field the last report omits was never reported. |
| Instrumentation.SplitUsageDisagrees | backend/app/providers/base.py:180-193 | A concrete two-part report on which they do not agree. |
| ChatStream.StreamingTurn.Stream | backend/app/services/chat.py:298-376 | The events yielded, the assistant messages attempted and those stored are those of the turn's script, for every ending of the provider, every outcome of the second transaction and every point where the consumer leaves. |
| ChatStream.StreamingTurn.ConsumeProvider | backend/app/services/chat.py:338-352 | The loop announces the first token once, just before the first non-empty delta, collects exactly the non-empty texts, and tells whether the consumer closed it at a yield. |
| ChatStream.StreamingTurn.PersistPartial | backend/app/services/chat.py:378-392 | Hands the stripped text to the shielded store unless it is blank, and raises only if that write fails without the wait being interrupted. |
| ChatStream.StripMeaning | backend/app/services/chat.py:385-387 | Stripping removes whitespace at both ends and nothing else, and is empty iff the text is blank. |
| ChatStream.SpacesExactly | backend/app/services/chat.py:385 | Which characters count as whitespace there. |
| ChatStream.TracesObeyTheGrammar | backend/app/services/chat.py:298-376 | Every trace is a prefix of `Failed` or `Started (FirstToken Delta+)? (Completed or Failed)`. |
| ChatStream.TurnEndsExactly | backend/app/services/chat.py:354-376 | For a consumer that stays: `done`, with the stored message's id, comes last iff the provider came to its end and the reply was committed uninterrupted; a provider's error comes last, with its code and message, iff storing the partial reply raised nothing; an application error always does; nothing else closes a turn. |
| ChatStream.UnrecordedTurn | backend/app/services/chat.py:309-319 | A turn that could not be recorded reports just that error, or raises without a word, and stores nothing. |
| ChatStream.StoredExactly | backend/app/services/chat.py:354-372 | What is stored once the loop is left: the whole reply after the provider's end, the stripped part after a cancellation or a provider error unless blank, nothing after any other exception. |
| ChatStream.CompletedMeansStored | backend/app/services/chat.py:372-376 | When the completion event is out, the only stored message is the concatenation of the deltas sent. |
| ChatStream.InterruptionKeepsWhatWasShown | backend/app/services/chat.py:354-366 | After a cancellation in the loop or a provider error, what is handed to the store is the stripped concatenation of what was shown, nothing when blank, and never twice. |
| Conversations.ConversationRepository.AppendMessage | backend/app/db/repositories/conversations.py:53-87 | Locks and appends with the next `seq`; raises iff the conversation does not exist; and is the run Lock, Append of the transaction whose session it is, whose rows it still shows. |
| Conversations.ConversationRepository.Messages | backend/app/db/repositories/conversations.py:89-95 | Exactly the conversation's rows, which the table holds in no order, by ascending `seq`; as many as there are, numbered by position, when the rows are numbered. |
| Conversations.ConversationRepository.NextSeqOf | backend/app/db/repositories/conversations.py:72-78 | One above every `seq` in use, and 0 when there is none. |
| Conversations.NumberedNext | backend/app/db/repositories/conversations.py:60-80 | On rows numbered without gaps that is the number of rows. |
| Conversations.ConversationRepository.Delete | backend/app/db/repositories/conversations.py:117-119 | Removes the conversation and its messages; raises iff it does not exist. |
| UserTurn.RecordUserTurn | backend/app/services/chat.py:164-197 | Records the message behind everything the conversation holds and returns the window of that transcript with the message last, although other transactions move between the insert and the query; raises iff the given conversation does not exist. |
| UserTurn.ReadBack | backend/app/db/repositories/conversations.py:89-95 | On a later snapshot the query returns exactly the transcript the transaction saw when it inserted. |
| Conversations.SequenceNumbersHaveNoGaps | backend/app/db/repositories/conversations.py:60-82 | Under every interleaving of appends, commits, rollbacks and deletions the committed `seq` values are exactly 0..n-1 without duplicates. |
| Conversations.CommitAppends | backend/app/db/repositories/conversations.py:62-66 | A commit puts the transaction's messages behind everything committed before, makes the conversations it created appear with exactly what it wrote there, and changes nothing else. |
| Conversations.OnlyCommitsShow | backend/app/db/session.py:52-66 | No other step of a transaction, a rollback included, changes anything committed; a deletion removes one conversation. |
| Conversations.TranscriptsOnlyGrow | backend/app/db/repositories/conversations.py:60-82 | Along every run that does not delete the conversation, what was committed stays in place as a prefix: `seq` order is commit order. |
| Conversations.OwnMessageIsLast | backend/app/services/chat.py:182-187 | Whenever a turn reads after its insert, and whatever others append, commit, roll back or delete in between, it sees what the conversation held when it inserted with its own message last, numbered without gaps, and nobody else has an uncommitted message there. |
| History.RecentWindow | backend/app/services/chat.py:75-86 | Returns a suffix that is within the bounds, or one message, and that one more message would take out of them. |
| History.CharsAdd | backend/app/services/chat.py:77-82 | The size charged to the budget is additive over messages. |
| History.CharsOfOne | backend/app/services/chat.py:82 | And for one message it is the length of its content. |
| History.WindowIsLongest | backend/app/services/chat.py:64-73 | For a positive limit that suffix is the longest within both bounds, or the newest message alone when it exceeds the budget, and it is unique. |
| History.ZeroLimitIsNoLimit | backend/app/services/chat.py:75 | For every history a limit of 0 gives the window of a limit that is not reached. |
| SseQueue.NextKeepsInv | backend/app/api/sse.py:79-117 | Every step of producer, watcher and consumer keeps frame conservation and the control invariant. |
| SseQueue.DeliveryIsAPrefixOfTheSource | backend/app/api/sse.py:88-108 | Delivered, queued and in-put frames are together a prefix of the source, and all of it unless a cancellation hit a put, which loses that one frame; the queue never exceeds its capacity; the marker is enqueued at most once in the run, and stands last. |
| SseQueue.CancellationsAreBounded | backend/app/api/sse.py:53-76 | The watcher cancels at most once and so does the teardown; more than two happen only if the response is itself cancelled while it awaits the producer; a finished response has a finished producer. |
| SseQueue.ThirdCancellation | backend/app/api/sse.py:109-117 | A run with three cancellations, for every capacity. |
| SseQueue.MarkedQueueDrains | backend/app/api/sse.py:104-108 | With the marker queued every run without outside interference is bounded, can stop only when the response has finished, and has then delivered every queued frame. |
| SseQueue.ResponseEndsIffQueueHadRoom | backend/app/api/sse.py:94-98 | After the producer ends with the response open and left alone, every interleaving finishes it within a known number of steps if and only if the queue had a free slot when the producer's `finally` ran; otherwise none ever does. |
| SseQueue.OpenResponseStandsStillExactly | backend/app/api/sse.py:88-108 | In every reachable state an open response is at a standstill iff the producer has ended without its marker and every frame has been handed out; in particular a put that waits for room gets it. |
| SseQueue.TeardownEndsIffSourceStops | backend/app/api/sse.py:109-117 | However the response is left, every teardown left alone is finite, and one at a standstill has finished if and only if the source did not yield into a full queue after the teardown cancelled it. |
| SseQueue.SourceThatYieldsOnHangsTheTeardown | backend/app/api/sse.py:92-93 | For every capacity, a run in which the client leaves, the cancelled source yields once more into the full queue, and the teardown waits forever. |
| SseQueue.ExactlyFullSourceHangs | backend/app/api/sse.py:90-108 | For every capacity, a normal source of exactly that many frames has a run with a connected client after which no interleaving ends the response. |
| Json.ObjectRoundTrip | backend/app/api/sse.py:50 | Every flat object of strings and counts reads back as itself from what `json.dumps` prints, whatever characters it holds. |
| Json.DumpsIsOneLine | backend/app/api/sse.py:44-50 | What is printed is printable ASCII without a raw newline. |
| Json.PlainIsVerbatim | backend/app/api/sse.py:50 | Printable ASCII other than the quote and the backslash is written as it is. |
| Json.ShortEscapesOnTheWire | backend/app/api/sse.py:50 | The quote, the backslash and the usual controls have escapes of one letter. |
| Json.UnicodeEscapesOnTheWire | backend/app/api/sse.py:50 | Characters beyond it are written as their UTF-16 code units in lower-case hexadecimal, shown for one of each length. |
| SseWire.DeltaOnTheWire | backend/app/api/chat.py:74-75 | A chunk frame, character by character, for every text that needs no escapes. |
| SseWire.SplitMeaning | frontend/src/api/stream.ts:89-90 | Splitting loses nothing, cuts at every blank line leftmost first, and leaves a residue without one. |
| SseWire.SplitResumes | frontend/src/api/stream.ts:84-90 | Splitting what has arrived and later the residue with the rest finds the same frames and residue as splitting the whole. |
| SseWire.Dispatch | frontend/src/api/stream.ts:103-137 | The handler called is the one for the last `event` line with the last `data` line parsed; nothing when either is empty, an exception when the data is not a flat JSON object of strings and counts. |
| SseWire.LinesMeaning | frontend/src/api/stream.ts:107 | Splitting into lines loses nothing but the newlines. |
| SseWire.FieldIsTheLast | frontend/src/api/stream.ts:107-110 | A field is the rest of the last line with its prefix, and empty when no line has it. |
| SseWire.IgnoredExactly | frontend/src/api/stream.ts:112-135 | A frame is ignored iff a field is missing or empty or the event is of an unknown kind. |
| SseWire.FrameRoundTrip | backend/app/api/chat.py:54-82 | The client's handler gets the very event the service emitted, for each kind of event. |
| SseWire.StreamMessage | frontend/src/api/stream.ts:75-101 | Whatever way the text is cut into chunks, the handlers fire as for the whole text and the buffer holds what follows the last blank line; a frame that throws ends the reading. |
| SseWire.StreamRoundTrip | backend/app/api/sse.py:44-50 | Parsing everything printed fires exactly the events it was printed from, in order, with an empty residue. |
| EndToEnd.ScreenMatchesTranscript | backend/app/services/chat.py:342-376 | Once the client has seen `done`, on any interleaving and any cutting of the bytes, its accumulated text is the concatenation of the deltas and the content of the one committed assistant message. |
| EndToEnd.ClientSeesAPrefixOfTheTurn | backend/app/api/sse.py:88-108 | Whatever happens in between, the events the client handles are a prefix of the turn's. |
| EndToEnd.ReadTurn | frontend/src/api/stream.ts:75-101 | The same for the code itself: the turn run to its end and the client's loop over the chunks received. |
| EndToEnd.InterruptedPutKeepsNothing | backend/app/services/chat.py:354-359 | On every run in which a cancellation interrupted a put, the turn stores nothing unless the frame lost is its closing one, and the branch for a cancelled turn is not entered. |
| EndToEnd.ShownButNotStored | backend/app/services/chat.py:354-359 | For every capacity, a disconnect after which the client shows text and no message is stored. |
| EndToEnd.TurnHangsItsTeardown | backend/app/services/chat.py:361-366 | For every capacity of at least 2, a turn whose own frames, ending with a provider error, drive the teardown into waiting forever. |
| Paging.SortedIsUnique | backend/app/db/repositories/inference_logs.py:100 | There is exactly one listing of a set in the order (started_at DESC, id DESC). |
| Paging.SelectedExactly | backend/app/db/repositories/inference_logs.py:73-82 | A row is selected, under its own time, iff it has each value that was asked for and did not start before `since`. |
| Paging.ScanWalks | backend/app/api/metrics.py:299-307 | The endpoint's requests walk the matching keys behind the cursor, and a cursor is missing exactly on a short page. |
| Paging.NextCursorContinues | backend/app/db/repositories/inference_logs.py:93-96 | Behind a full page's cursor lies exactly what the page left out, in order. |
| Paging.PagesAreTheSortedList | backend/app/api/metrics.py:265-307 | On a fixed table the pages concatenate to the full sorted list, in exactly n / limit + 1 requests. |
| Paging.EveryLastingRowAppearsOnce | backend/app/db/repositories/inference_logs.py:54-66 | On a table changed in any way between requests, the rows seen are strictly decreasing and every row that matches throughout is seen exactly once. |
| Paging.TimeOnlyCursorSkipsTies | backend/app/db/repositories/inference_logs.py:60-66 | Continuing with the time alone skips exactly the remaining rows with the boundary timestamp. |

## Left out

- HTTP routing, dependency wiring, health probes, logging, settings, migrations, deployment and the React user interface: plumbing around the modelled parts.
- Vendor adapters and the mock provider: a provider is an arbitrary sequence of chunks with an arbitrary ending.
- Redaction and the input and output previews: they need a regular-expression engine; the model's events carry no previews.
- The aggregates of `backend/app/db/repositories/metrics.py`, `summary` and percentiles: counting identities over one snapshot that would only add easy members.
- `request_stop`, the pause after a failed batch and liveness of ingestion: `RunForever` is given its rounds; nothing is claimed about eventual ingestion.
- `drain_pending_publishes` and process exit: the publish theorems are about a live process.
- `message_id` and its foreign key (always null from the producer), `schema_version` (always 1 from the producer), `processed_at`, `processing_error`, `ingested_at`, titles, conversation status and `updated_at`: columns nothing modelled here reads.
- U+0000 in texts, which PostgreSQL refuses: the model's tables accept every text that fits.
- Parsing of UUIDs and of typed fields: `IdField` and `wellTyped` say how it went, and one `IdField` stands for both `uuid.UUID` and the event model's own parser.
- JSON beyond flat objects of strings and non-negative integers, and byte decoding: what the server prints is ASCII.
- Row locks on the raw id and the conversation inside the worker's transaction: a transaction takes effect at its commit, which is where those locks serialise it.
- Redis trimming on whole nodes: any trimming that keeps the newest `maxlen` entries is allowed; the dead-letter stream is an untrimmed history.
- Uniqueness of `uuid4`: `StartCall` and `CreateInTurn` mint unused ids.
- Network failures: an await that raises changes nothing on the other side; a write that took effect although its reply was lost is not modelled for the class methods.
- Cancellation of the producer before its first step, and exceptions raised by `is_disconnected`.
- The interval between two polls of the watcher: it may look at any time.
- IngestionWorker.RedisEventStream.Poll: `ReadGroup`, `Decode` and `DecodeAll` are parts of the one method in the source, split so that each step is proved by itself; likewise `Transact`, `Write`, `Reject` and `Insert` for `_handle`, `Sorted` and `First` for the ordered query, and `Show`, `ConsumeProvider` for `stream`.
- UserTurn.RecordUserTurn: looking the conversation up and locking it are one step, when the lock is granted; the title is not modelled; `Insert` and `ReadBack` are its two halves.
- Instrumentation.ConstructibleExactly: exact for texts of Unicode scalar values; a Python `str` can also hold lone surrogates, which the event model refuses and no text of the model contains.
- SseWire.Dispatch: throws on JSON other than flat objects of strings and counts, where `JSON.parse` would accept it; the server prints nothing else.
- IngestionWorker.IngestionWorker.ProcessBatch: the methods are proved with nobody else moving; interleaved workers are the transition system's, where `IngestionConfluence.InsertedCountsAddUp` is the same count.
- SseQueue.CancellationsAreBounded: counts calls of `cancel()` and how many surface in the source, not how the source reacts; a source that survives a cancellation is allowed.
