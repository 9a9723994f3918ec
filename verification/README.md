# The Taktflow delivery queue, modelled and proved

Taktflow delivers events to consumers through a lease-based work queue in three tables: `events`,
`event_deliveries` and `dead_letter_events`. Push workers, pulling consumers, two reapers, producers,
a scheduler and the replay of dead letters all step it at the same time. Nearly every write that ends
a claim is unconditional by row id, so what the queue guarantees comes from the protocol between its
actors and not from single statements. This project models that protocol and proves what it keeps,
together with two parts that its guarantees rest on: the canonical JSON behind the payload checksum,
and the metrics accumulator with the shutdown of its timers.

`dafny verify dfyconfig.toml` checks everything.

## How the model is laid out

| files | what they hold |
|---|---|
| `schema.dfy`, `claim.dfy` | the tables, one function for the effect of each SQL statement, and the row selection of a claim |
| `columns.dfy`, `step_columns.dfy` | what each statement, and each step of the protocol, leaves in each column; the functions and the classes are both held to it |
| `queue_engine.dfy`, `delivery_service.dfy`, `api_services.dfy`, `produce_service.dfy` | the source's classes: their methods update a database in place and are proved against those functions |
| `overlapping_claims.dfy`, `poll_interleavings.dfy` | claim transactions that select, lock and commit at different times; the attempts of one poll in any order of their turns |
| `protocol.dfy` | the transition system: each statement or transaction is one step, a run is any history of enabled steps |
| `agreement.dfy`, `event_status.dfy`, `first_claim.dfy` | what every run keeps, with no hypothesis on the actors |
| `lease.dfy`, `dead_letters.dfy`, `once.dfy`, `retries.dfy`, `backoff.dfy`, `bounded_wait.dfy` | what runs keep under the hypotheses below |
| `witness.dfy` | runs showing that each hypothesis is needed |
| `produce.dfy`, `produce_witness.dfy` | interleaved produce calls: idempotency and the plan limit |
| `json.dfy`, `json_printing.dfy`, `json_example.dfy`, `key_order.dfy`, `canonical_equality.dfy`, `checksum.dfy` | JSON values, printing, the key sort, and the checksum |
| `metrics.dfy`, `recurring_task.dfy`, `worker.dfy` | the accumulator, the timer state machine, and the shutdown |
| `options.dfy`, `finite_sets.dfy` | helpers |

`acknowledge` is not a transaction: its row update and its event sync are two steps, and other steps
may come between them. A claim hands out a snapshot, and its holder later decides on that snapshot's
attempt number. `moveToDeadLetter` is one step, which idealises the READ COMMITTED isolation that it
runs under.

## Hypotheses

Three predicates on runs are assumed where a statement says so, and only there.

* H1 (lease): a claim's holder makes its closing write before the stuck threshold has passed since
  the claim, or never.
* H2 (own acknowledge): an API acknowledge reads and writes atomically, and the one delivery of the
  event that is processing or awaiting its acknowledge is the caller's own. The code looks the
  delivery up by event id alone.
* H3 (atomic replay): a replay checks, inserts and marks in one step. The code awaits between them.

Each is needed. Without H1 a row can end up `awaiting_ack` with no start time, which no reaper ever
matches. Without H2 a delivered row can go back to `awaiting_ack`. Without H3 a consumer can be sent
one event twice. `HypothesesNeeded` builds these runs for every configuration, each keeping the other
two hypotheses.

## What turned out false

* The scheduler hashes `JSON.stringify(payload)`, the worker checks the hash of the canonical text. With an
  injective hash a fired event passes the check exactly when its payload is in canonical key order at
  every depth; otherwise every delivery of it goes to the dead letters unsent, with no failure counted.
* The plan limit is not a limit under concurrency: `k` overlapping calls can exceed it by `k - 1`, and by
  no more.
* Starting a recurring task while a stop is pending leaves two timers behind; any other start is safe.
* A dead letter for a missing consumer or a bad checksum is not counted as a failure in the metrics.

## Model

| member | source | states |
|---|---|---|
| QueueEngine.PostgresQueueEngine.Enqueue | src/taktflow-persistence/queue/postgres-queue-engine.ts:28-40 | inserts one pending row with exactly the given columns, due at the given time, and changes nothing else; nothing at all when a key is violated |
| ClaimSelection.SelectionAllowed | src/taktflow-persistence/queue/postgres-queue-engine.ts:45-54 | filter, sort and limit, in whatever order the table is read, give distinct claimable rows in schedule order, min(limit, claimable) of them, none later than one left out |
| QueueEngine.PostgresQueueEngine.SelectForUpdate | src/taktflow-persistence/queue/postgres-queue-engine.ts:45-57 | the selection is an allowed one and each result is the snapshot of its row and event |
| QueueEngine.PostgresQueueEngine.ClaimScope | src/taktflow-persistence/queue/postgres-queue-engine.ts:42-78 | the claim transaction: an allowed selection, its snapshots, and the two updates, or nothing when no row is due |
| QueueEngine.PostgresQueueEngine.Claim | src/taktflow-persistence/queue/postgres-queue-engine.ts:42-78 | a worker's claim: at most limit distinct rows that are pending, due and unlocked, in schedule order, each shown as it and its event were; a due row is left out only by a full claim that took nothing due later; exactly these rows and their pending events are taken |
| QueueEngine.PostgresQueueEngine.ClaimForConsumer | src/taktflow-persistence/queue/postgres-queue-engine.ts:80-117 | a pull: the same, of the given consumer's rows in the given tenant and of no others, and of all of them that are due |
| QueueEngine.ClaimTakesExactly | src/taktflow-persistence/queue/postgres-queue-engine.ts:59-74 | exactly the taken rows change, to processing now; exactly their still-pending events change, to processing |
| QueueEngine.PollMeans | src/taktflow-persistence/queue/postgres-queue-engine.ts:45-54 | what an allowed selection is, said of the rows' columns |
| QueueEngine.PullMeans | src/taktflow-persistence/queue/postgres-queue-engine.ts:83-93 | an allowed pull takes rows of its own consumer and tenant only, and leaves a due one of them only when it is full |
| QueueEngine.TakingMeans | src/taktflow-persistence/queue/postgres-queue-engine.ts:59-76 | exactly the claimed rows, and exactly their pending events, change, in the stated columns |
| OverlappingClaims.OverlappingClaimsDisjoint | src/taktflow-persistence/queue/postgres-queue-engine.ts:43-77 | open claim transactions hold disjoint rows, and a commit takes each from pending at the retry count it returns, whatever happened since the selection |
| QueueEngine.PostgresQueueEngine.MarkDelivered | src/taktflow-persistence/queue/postgres-queue-engine.ts:119-130 | the row is delivered now, whatever it was, and no other column or row changes; the event it returns is the row's |
| QueueEngine.PostgresQueueEngine.SyncEventStatus | src/taktflow-persistence/queue/postgres-queue-engine.ts:205-223 | the event is processing, with its processed time as it was, while one of its deliveries is open; otherwise it is failed exactly when one has failed and delivered when none has, processed now; nothing else changes |
| QueueEngine.PostgresQueueEngine.Acknowledge | src/taktflow-persistence/queue/postgres-queue-engine.ts:119-132 | the row is delivered now, and then its event follows its deliveries in the same way; nothing at all when no row matched |
| QueueEngine.PostgresQueueEngine.MarkAwaitingAck | src/taktflow-persistence/queue/postgres-queue-engine.ts:134-139 | only the status changes, whatever it was |
| QueueEngine.PostgresQueueEngine.ReleaseToPending | src/taktflow-persistence/queue/postgres-queue-engine.ts:141-146 | pending without a start time, the schedule and count kept |
| QueueEngine.PostgresQueueEngine.ScheduleRetry | src/taktflow-persistence/queue/postgres-queue-engine.ts:148-158 | the row is pending, due at now plus the given delay, with one retry more than its own count; its start time and every other row stay |
| QueueEngine.PostgresQueueEngine.MoveToDeadLetter | src/taktflow-persistence/queue/postgres-queue-engine.ts:160-203 | one record copied from the row and its event, the row failed, and the event following its deliveries; nothing when the row or its event is missing |
| Columns.SyncMeans | src/taktflow-persistence/queue/postgres-queue-engine.ts:205-223 | how an event follows its deliveries, said of the rows |
| Columns.WriteMeans | src/taktflow-persistence/queue/postgres-queue-engine.ts:119-203 | what each of the five closing writes leaves in each column |
| Columns.DelayDoubles | src/taktflow-utils/helpers/retry.helper.ts:1-3 | the first delay is the base and each further one doubles it |
| QueueEngine.EventDeliveryRepository.ResetTimedOutAcks | src/taktflow-persistence/repositories/event-delivery-repository.ts:99-112 | exactly the timed-out awaiting rows return to pending now with one retry more |
| QueueEngine.EventDeliveryRepository.ReleaseStuckDeliveries | src/taktflow-persistence/repositories/event-delivery-repository.ts:114-129 | exactly the overdue processing rows return to pending without a start time, and the result counts the rows that changed |
| DeliveryServices.RetryService.ScheduleRetryOrDeadLetter | src/taktflow-worker/services/retry-service.ts:44-60 | below the configured attempts the row is due again at now + base * 2^attempt and nothing is recorded; from them on it is dead-lettered and one failure recorded, both on the snapshot's attempt |
| DeliveryServices.DeliveryService.HandleResponse | src/taktflow-worker/services/delivery-service.ts:127-163 | for 202, any other 2xx, 4xx and every other status: the row's exact columns and the exact record |
| DeliveryServices.DeliveryService.Deliver | src/taktflow-worker/services/delivery-service.ts:60-125 | by case: no event, nothing; no consumer, dead-lettered and unrecorded; paused, pull or without a url, released as scheduled and unrecorded, whatever the response; wrong checksum, dead-lettered and unrecorded; otherwise by the status or the exception |
| DeliveryServices.AttemptMeans | src/taktflow-worker/services/delivery-service.ts:60-163 | the functions that the interleaved attempts and the protocol are stated with do what those cases say |
| BoundedWait.OutcomesFit | src/taktflow-worker/services/delivery-service.ts:67-91 | what an attempt ends in agrees with the consumer row, as the bounded wait takes it to |
| DeliveryServices.DeliveryService.ClaimAndDeliver | src/taktflow-worker/services/delivery-service.ts:49-58 | after a poll every claimed row is closed by its own outcome on its claimed attempt, no other row has changed, and the metrics gained exactly the attempts' records |
| PollInterleavings.InterleavedPollCloses | src/taktflow-worker/services/delivery-service.ts:49-58 | the same for attempts that run together: whatever the order of their decisions, writes and syncs, once all have settled every claimed row is closed by its own outcome, no other row has changed, and the metrics count the same |
| DeliveryServices.AttemptIsClose | src/taktflow-worker/services/delivery-service.ts:60-125 | an uninterrupted attempt is the protocol's closing step, with the sync step after a delivery |
| DeliveryServices.RecordsMatchWrites | src/taktflow-worker/services/delivery-service.ts:141-155 | a success is recorded exactly for a delivered row, a failure exactly for a row given up after a request was sent |
| DeliveryServices.ProducedEventsPassIntegrity | src/taktflow-worker/services/delivery-service.ts:83-91 | an API event never ends in a bad checksum, however its payload was reordered in storage |
| DeliveryServices.ScheduledEventsDeadLetterIff | src/taktflow-worker/services/scheduler-service.ts:53-55 | a fired event due at a consumer that can receive it is dead-lettered unsent exactly when its payload is not in canonical key order |
| ApiServices.ConsumerService.Consume | src/taktflow-application/services/consumer.service.ts:133-137 | an unknown, deleted or foreign consumer changes nothing; otherwise it is a pull of that consumer's rows in that tenant, and of no others |
| ApiServices.ConsumerService.FindTaken | src/taktflow-application/services/consumer.service.ts:143-146 | the first listed row that is processing or awaiting its acknowledge |
| ApiServices.ConsumerService.Acknowledge | src/taktflow-application/services/consumer.service.ts:139-163 | not found exactly when no row is processing or awaiting; otherwise the first such row is delivered and its event follows, or it is due again at now + base * 2^count below the limit, or dead-lettered from the limit on |
| ApiServices.AckIsAtomicStep | src/taktflow-application/services/consumer.service.ts:143-162 | under H2 the row found is the caller's, and an uninterrupted call is the protocol's atomic acknowledge |
| ApiServices.DeadLetterService.Replay | src/taktflow-application/services/dead-letter.service.ts:33-53 | each answer has its cause in the order of the checks, and only a success changes anything: one first attempt for the letter's event and consumer, due now, and the letter marked |
| ApiServices.ReplayIsAtomicStep | src/taktflow-application/services/dead-letter.service.ts:33-53 | in a reachable state an uninterrupted replay succeeds exactly when the protocol's atomic replay is enabled |
| ProduceServices.UsageService.GetPlanLimit | src/taktflow-application/services/usage.service.ts:19-23 | a known tenant has the limit configured for its plan, and zero for a plan that is not configured |
| ProduceServices.UsageService.GetPayloadLimit | src/taktflow-application/services/usage.service.ts:25-29 | a tenant's own override comes first, then its plan's limit, then zero |
| ProduceServices.UsageService.AssertWithinLimit | src/taktflow-application/services/usage.service.ts:31-40 | passes exactly when the count and the incoming events fit the plan limit |
| ProduceServices.FanOut | src/taktflow-application/services/event.service.ts:65-81 | adds exactly one pending row for each target and leaves every other row alone |
| ProduceServices.EventService.Produce | src/taktflow-application/services/event.service.ts:29-84 | each answer has its exact cause, in the order of the checks; an existing event is the tenant's own under the same key, and nothing is stored then; a success stores the event with the canonical checksum when the tenant has none under the key, gives each active consumer of the page one first attempt, and changes nothing else; keys stay unique per tenant |
| ProduceServices.EventService.Screen | src/taktflow-application/services/event.service.ts:30-46 | the checks in their order, and a lookup within the tenant |
| ProduceServices.EventService.FindByIdempotencyKey | src/taktflow-persistence/repositories/event-repository.ts:50-59 | an event of the tenant under the key, and none only when the tenant has none |
| ProduceServices.Store | src/taktflow-application/services/event.service.ts:61-81 | one event more, one first attempt per target, nothing else |
| ProduceServices.SchedulerService.Fire | src/taktflow-worker/services/scheduler-service.ts:50-86 | stores one event without a key, with the plain checksum, and gives each consumer of the page, paused ones included, one first attempt |
| ProduceServices.FanOutIsRun | src/taktflow-application/services/event.service.ts:61-81 | the tables after a produce or a fire are those of a protocol run of one insert, one read of the consumers and one enqueue per target |
| StepColumns.CloseMeans | src/taktflow-worker/services/delivery-service.ts:60-163 | what each outcome of a closing step leaves in the tables, column by column |
| StepColumns.AckAtomicMeans | src/taktflow-application/services/consumer.service.ts:143-162 | what an atomic acknowledge step leaves, on the row's own count |
| StepColumns.AckWriteMeans | src/taktflow-application/services/consumer.service.ts:150-162 | what the write of a split acknowledge leaves, on the count it read before |
| StepColumns.SyncStepMeans | src/taktflow-persistence/queue/postgres-queue-engine.ts:131 | the sync step leaves the event following its deliveries |
| StepColumns.GiveUpStepMeans | src/taktflow-persistence/queue/postgres-queue-engine.ts:160-203 | any give-up dead-letters its row and leaves its event following its deliveries |
| StepColumns.ClaimStepMeans | src/taktflow-persistence/queue/postgres-queue-engine.ts:45-54 | a claim step takes due rows only, a pull its own only, and leaves one only when it is full |
| StepColumns.ClaimStepTakes | src/taktflow-persistence/queue/postgres-queue-engine.ts:59-76 | exactly these rows are processing since now, each held once at its own retry count |
| StepColumns.ReaperStepsMean | src/taktflow-persistence/repositories/event-delivery-repository.ts:99-129 | which rows each reaper changes, and how |
| StepColumns.ReplayStepMeans | src/taktflow-application/services/dead-letter.service.ts:41-52 | what a replay inserts and marks; its three separate steps with nothing between them do the same |
| StepColumns.EnqueueStepMeans | src/taktflow-application/services/event.service.ts:69-79 | an original delivery starts as a first attempt |
| RowAgreement.StepExtends | src/taktflow-persistence/queue/postgres-queue-engine.ts:28-203 | no step removes a row or changes what it is about |
| RowAgreement.RunsAgree | src/taktflow-application/services/event.service.ts:52-81 | in every run a delivery and its dead letters have the tenant of their event and consumer, the consumer's topic is the event's, and a dead letter repeats its delivery and payload |
| EventQuiescence.QuiescentEventStatus | src/taktflow-persistence/queue/postgres-queue-engine.ts:205-223 | in every run an event whose deliveries are all closed, with no acknowledge left to sync, is failed when one of them failed and delivered otherwise |
| FirstClaim.PendingUntilFirstClaim | src/taktflow-persistence/queue/postgres-queue-engine.ts:70-74 | over all runs an event is pending exactly when it has no start time, exactly when none of its deliveries was ever claimed |
| FirstClaim.StartTimeIsWrittenOnce | src/taktflow-persistence/queue/postgres-queue-engine.ts:109-113 | only the first claim, by either path, writes the start time, and an event never returns to pending |
| Leases.LeasedWrite | src/taktflow-persistence/queue/postgres-queue-engine.ts:119-203 | under H1 and H2 an unconditional closing write meets a row that is taken and leaves no live holder on it |
| Leases.LeasesHold | src/taktflow-persistence/queue/postgres-queue-engine.ts:42-158 | under H1 and H2 each row has at most one live holder, whose row is processing at the holder's attempt and claim time, and every taken row has a start time |
| Leases.ClosedRowsAbsorb | src/taktflow-persistence/queue/postgres-queue-engine.ts:119-203 | under H1 and H2 a delivered or failed row never changes again in any continuation |
| Leases.NoDeliveryIsLost | src/taktflow-persistence/repositories/event-delivery-repository.ts:99-129 | under H1 and H2 every open row has a wake-up time, and a claim or reaper matches it exactly from then on |
| DeadLetters.FailedMeansDeadLettered | src/taktflow-persistence/queue/postgres-queue-engine.ts:176-199 | in every run, stale holders included, a failed delivery has a dead letter |
| DeadLetters.DeadLetterBijection | src/taktflow-persistence/queue/postgres-queue-engine.ts:160-203 | under H1 and H2 a delivery is failed exactly when exactly one dead letter names it, with the delivery's identifiers and the event's payload |
| AtMostOnce.TokensHold | src/taktflow-application/services/dead-letter.service.ts:33-53 | under H1 to H3 a pair's awaited insert, unfailed rows and unreplayed dead letters number one when a fan-out covered it, and zero otherwise |
| AtMostOnce.RowsPerPair | src/taktflow-application/services/dead-letter.service.ts:33-53 | under H1 to H3 the rows of a pair number its original plus its replayed dead letters, and at most one has not failed |
| AtMostOnce.DeliveredAtMostOnce | src/taktflow-application/services/event.service.ts:63-81 | under H1 to H3 at most one row of an event and consumer is ever delivered, over the whole run |
| RetryLadder.BackoffSum | src/taktflow-utils/helpers/retry.helper.ts:1-3 | the delays so far and the next one sum to the next power of two, less one, times the base |
| Backoff.PendingRowWaits | src/taktflow-persistence/queue/postgres-queue-engine.ts:50 | under H1 and H2 a pending row stays exactly as it is until the clock reaches its schedule, over every continuation |
| Backoff.WorkerBackoffIsWaited | src/taktflow-worker/services/retry-service.ts:57-58 | after a retryable failure on attempt a the row is left alone, and out of every claim, until base * 2^a after the write |
| Backoff.ApiBackoffIsWaited | src/taktflow-application/services/consumer.service.ts:162 | the same after a failure that a consumer acknowledges, on the row's own retry count |
| RetryLadder.RetryCountBounded | src/taktflow-application/services/consumer.service.ts:157-162 | under H1 and H2 a retry count is at most the larger configured limit plus the row's acknowledge timeouts |
| RetryLadder.PushDeliveryCloses | src/taktflow-worker/services/retry-service.ts:44-60 | under H1 and H2 a push delivery never answered by a 202 is claimed, and so sent, at most once more than the configured retries plus the stuck reaper's releases of it, holders that never wrote included; it is closed once it was answered that once more |
| RetryLadder.ClaimsBalanced | src/taktflow-worker/services/retry-service.ts:44-71 | under H1 and H2 the claims of such a row are its answered requests, plus the stuck reaper's releases of it, plus the claim still going on |
| RetryLadder.RetriesExhausted | src/taktflow-worker/services/retry-service.ts:44-60 | if every request fails retryably, the row goes back to pending exactly W times, the times from those writes to when it was due again sum to base * (2^W - 1), and one dead letter follows |
| BoundedWait.CycleServes | src/taktflow-worker/services/delivery-service.ts:73-81 | a poll cycle in which nobody claims a due row takes at least batch - stuck rows off the backlog and leaves the row as it was, whatever else is pulled meanwhile |
| BoundedWait.ClaimedWithinBound | src/taktflow-persistence/queue/postgres-queue-engine.ts:42-78 | a due deliverable row is claimed within ceil(backlog / (batch - stuck)) poll cycles: by a poll, or by a pull that comes first; pulls of any row may go on between the polls |
| BoundedWait.ClaimedWithinPendingBound | src/taktflow-worker/services/delivery-service.ts:49-58 | when nobody holds a deliverable row at the first poll, the backlog is just the deliverable pending rows scheduled no later |
| HypothesesNeeded.LeaseNeeded | src/taktflow-persistence/queue/postgres-queue-engine.ts:134-139 | without H1 a row can stay open for ever with nothing that matches it |
| HypothesesNeeded.OwnAckNeeded | src/taktflow-application/services/consumer.service.ts:143-146 | without H2 a delivered row can leave delivered |
| HypothesesNeeded.AtomicReplayNeeded | src/taktflow-application/services/dead-letter.service.ts:36-52 | without H3 two rows of one event and consumer can both be delivered |
| ProduceCalls.ProduceIsIdempotent | src/taktflow-application/services/event.service.ts:43-81 | under any interleaving one event per tenant and key, all successful calls with a key return it, and no consumer gets two originals |
| ProduceCalls.InsertKeepsKeys | src/taktflow-persistence/migrations/0008_unique_idempotency_key.sql:1-3 | the partial unique index keeps keys unique when the lookup came too early |
| ProduceCalls.StepKeepsKeys | src/taktflow-application/services/event.service.ts:43-81 | every step of every call keeps keys unique, and each call that has an event has one of its own tenant and key |
| ProduceCalls.LookUpAnswers | src/taktflow-persistence/repositories/event-repository.ts:50-59 | a lookup finds an event of the call's own tenant and key, and misses exactly when there is none |
| ProduceCalls.InsertAnswers | src/taktflow-persistence/migrations/0008_unique_idempotency_key.sql:1-3 | an insert is refused exactly when an event of the call's own tenant and key is there |
| ProduceCalls.CheckAnswers | src/taktflow-application/services/usage.service.ts:31-40 | the check passes exactly when the tenant's events of this month are fewer than its limit |
| ProduceCalls.OvershootBounded | src/taktflow-application/services/usage.service.ts:31-40 | with at most k calls of a tenant in flight its API events of the month stay within limit + k - 1, and there are none under a limit of zero |
| OvershootWitness.OvershootReached | src/taktflow-application/services/event.service.ts:30-61 | for every limit of at least one and every k some run reaches limit + k - 1, so with the case of zero the bound is exact |
| JsonPrinting.QuoteBodyUnambiguous | src/taktflow-utils/helpers/canonical-json.helper.ts:11-13 | escaped strings have one reading, whatever follows them |
| JsonPrinting.PrintInjective | src/taktflow-utils/helpers/canonical-json.helper.ts:11-13 | two values that print alike are the same value, member order included |
| Json.SortAscends | src/taktflow-utils/helpers/canonical-json.helper.ts:7 | sorting by a strict total order puts distinct keys in ascending order |
| KeyOrder.LessMeans | src/taktflow-utils/helpers/canonical-json.helper.ts:7 | the sort order of keys: a proper prefix first, otherwise the first code unit that differs |
| KeyOrder.IndexKeysAreNumbers | src/taktflow-utils/helpers/canonical-json.helper.ts:6-8 | the keys that are listed by number are the decimal texts of the numbers below 2^32 - 1 |
| KeyOrder.OwnOrderMeans | src/taktflow-utils/helpers/canonical-json.helper.ts:6-8 | readers list index keys first, by number, and then the names as inserted |
| KeyOrder.CanonicalListing | src/taktflow-utils/helpers/canonical-json.helper.ts:3-13 | canonical printing lists each key once: index keys by number, then names by code units |
| JsonExample.PrintedExample | src/taktflow-utils/helpers/canonical-json.helper.ts:12 | one printed text, written out: braces, brackets, quotes, separators and an escape |
| CanonicalEquality.SortKeysEquiv | src/taktflow-utils/helpers/canonical-json.helper.ts:3-9 | the key sort changes nothing but member order |
| CanonicalEquality.SortKeysForgetsOrder | src/taktflow-utils/helpers/canonical-json.helper.ts:3-9 | values equal up to key order have the same sorted form, although readers list integer-like keys first |
| CanonicalEquality.SortKeysIdempotent | src/taktflow-utils/helpers/canonical-json.helper.ts:3-9 | sorting twice reads as sorting once |
| CanonicalEquality.CanonicalTextDecides | src/taktflow-utils/helpers/canonical-json.helper.ts:3-13 | two payloads have the same canonical text exactly when they are equal up to key order at every depth |
| CanonicalEquality.StringifyIsCanonical | src/taktflow-worker/services/scheduler-service.ts:53-55 | the plain text is the canonical text exactly when every object's other keys are in ascending order |
| Checksum.ApiChecksumSurvivesStorage | src/taktflow-application/services/event.service.ts:48-50 | any reordering of a produced payload passes the worker's check, and with an injective hash nothing else does |
| Checksum.ScheduleChecksumCondition | src/taktflow-worker/services/scheduler-service.ts:53-55 | a fired payload passes if, and for an injective hash only if, it is in canonical order |
| Checksum.ScheduleChecksumCanFail | src/taktflow-worker/services/delivery-service.ts:187-192 | a concrete payload in `jsonb` order that the worker rejects |
| Metrics.TenantMetricsRepository.IncrementSuccessBatch | src/taktflow-persistence/repositories/tenant-metrics-repository.ts:61-83 | inserts or adds, column by column: today, total, successes and milliseconds grow, failures and other tenants stay |
| Metrics.TenantMetricsRepository.IncrementFailureBatch | src/taktflow-persistence/repositories/tenant-metrics-repository.ts:85-106 | inserts or adds, column by column: today, total and failures grow, the rest stays |
| Metrics.UpsertsKeepBalance | src/taktflow-persistence/repositories/tenant-metrics-repository.ts:61-106 | a batch call keeps total = successes + failures |
| WorkerShutdown.RunsKeepBalance | src/taktflow-persistence/repositories/tenant-metrics-repository.ts:61-106 | over whole worker runs, throws and shutdown included, a table that begins with total = successes + failures stays so |
| Metrics.MetricsService.RecordSuccess | src/taktflow-worker/services/metrics-service.ts:34-40 | one success and its milliseconds more for its tenant, nothing else |
| Metrics.MetricsService.RecordFailure | src/taktflow-worker/services/metrics-service.ts:42-44 | one failure more for its tenant, nothing else |
| Metrics.MetricsService.FlushSuccesses | src/taktflow-worker/services/metrics-service.ts:54-56 | the loop conserves every quantity of every tenant while records keep coming in, up to a call that throws |
| Metrics.MetricsService.FlushFailures | src/taktflow-worker/services/metrics-service.ts:58-60 | the same for the failure counts |
| Metrics.MetricsService.Flush | src/taktflow-worker/services/metrics-service.ts:46-61 | live + table afterwards = live + table before + recorded meanwhile, less what a throwing call drops; only what was recorded meanwhile is live; from any table, and a balanced one stays balanced |
| RecurringTasks.RecurringTask.Start | src/taktflow-worker/helpers/recurring-task.helper.ts:12-16 | arms a timer unless already started |
| RecurringTasks.RecurringTask.Stop | src/taktflow-worker/helpers/recurring-task.helper.ts:18-25 | disarms the timer and waits for the active run |
| RecurringTasks.RecurringTask.OnTimer | src/taktflow-worker/helpers/recurring-task.helper.ts:28-29 | a timer that goes off becomes the active run |
| RecurringTasks.RecurringTask.OnSettled | src/taktflow-worker/helpers/recurring-task.helper.ts:29-32 | a settled run arms the next timer unless stopped meanwhile |
| RecurringTasks.StartIsSafeIffNoStopPending | src/taktflow-worker/helpers/recurring-task.helper.ts:12-25 | a start keeps timers and runs exclusive exactly when no stop is pending; otherwise two timers end up armed |
| RecurringTasks.PendingStopHappens | src/taktflow-worker/helpers/recurring-task.helper.ts:12-33 | a pending stop is reached from a new task, and starting there breaks exclusivity |
| RecurringTasks.TaskStaysExclusive | src/taktflow-worker/helpers/recurring-task.helper.ts:12-42 | over every history without such a start, never two runs, two timers, or a run and a timer |
| RecurringTasks.StoppedTaskGoesQuiet | src/taktflow-worker/helpers/recurring-task.helper.ts:18-33 | a stopped task arms nothing, and one settled run leaves it quiet until the next start |
| WorkerShutdown.RunsStayOrderly | src/taktflow-worker/worker.ts:18-40 | in every run each task is exclusive, and recorded quantities = live + unwritten + table + what throwing calls dropped |
| WorkerShutdown.ShutdownIsClean | src/taktflow-worker/worker.ts:27-40 | after stop resolves nothing runs or is armed, and without a throwing call the table holds everything recorded |
| WorkerShutdown.Worker.Start | src/taktflow-worker/worker.ts:18-25 | every task is started |
| WorkerShutdown.Worker.StopServices | src/taktflow-worker/worker.ts:30-35 | every task but the flush is stopped, and their active runs are what is awaited |
| WorkerShutdown.Worker.StopFlushTask | src/taktflow-worker/services/metrics-service.ts:29-30 | only then the flush task is stopped and awaited |
| WorkerShutdown.Worker.LastFlush | src/taktflow-worker/services/metrics-service.ts:31 | unless a call throws, the table then holds everything that was accounted for |

## Left out

- HTTP: routes, middleware, `fetch`, headers and signatures. What a delivery attempt ends in is a parameter.
- SHA-256: any function of the text; injectivity is assumed only where a statement says so.
- Number printing and `jsonb` number normalisation: a number is its canonical text, so -0 and 0 are one.
- Database failures and process crashes between statements, except the failing metrics call. They break real guarantees: a crash after the event insert leaves an event without deliveries.
- READ COMMITTED anomalies inside `moveToDeadLetter` and inside bulk updates: each is one atomic step. Claims alone are also modelled as overlapping transactions, where the two updates and the commit are one step.
- Integer and floating-point ranges: counts, delays and times are unbounded integers, so a back-off beyond the range of a double or of an interval is not modelled.
- Two clocks: the delivered time comes from the application's clock in the source; here every write uses the database time of its step, and enqueue times are free.
- Columns that only report: response status and body, error texts, `updated_at`, names and secrets.
- Cleanup, partitions and purging: purging removes dead letters that a failed delivery still counts on.
- Cron arithmetic and schedule due times: a fire is given, with its payload and its page of consumers.
- Authentication, tenants, users, API keys, plain CRUD, validators, response mappers and pagination.
- Plan changes: a tenant's limit is fixed in the runs of `ProduceCalls`; events through the scheduler count towards it but skip the check, as in the source.
- DeliveryServices.DeliveryService.ClaimAndDeliver: runs its attempts one after the other, while the source runs them together; `PollInterleavings.InterleavedPollCloses` proves the same end for every interleaving of the attempts, and `Protocol` interleaves their writes with everything else.
- QueueEngine.PostgresQueueEngine.Acknowledge: says what its two statements do with nothing between them; the steps of `Protocol` come apart.
- ApiServices.ConsumerService.Acknowledge: is one uninterrupted call; the steps `AckRead` and `AckWrite` of `Protocol` come apart.
- ApiServices.DeadLetterService.Replay: is one uninterrupted call; the steps `ReplayCheck`, `ReplayEnqueue` and `ReplayMark` of `Protocol` come apart.
- ProduceServices.EventService.Produce: is one uninterrupted call; `ProduceCalls` interleaves its stretches. That every active consumer of a topic is reached holds only within one page of 100.
- BoundedWait.ClaimedWithinBound: assumes that no poll finds the waiting row itself locked by a claim that does not take it; rows that somebody still holds at the first poll count towards the backlog, since the stuck reaper can return them with their old time.
- EventQuiescence.QuiescentEventStatus: an event whose failed delivery was replayed stays failed, since the old row still counts; the aggregate is kept as it is written.
- WorkerShutdown.Worker.LastFlush: is a flush with nothing recorded meanwhile, as the delivery task has stopped by then.
