/** The queue tables, and the effect of each SQL statement on them. A statement runs at the
    database time `now`; statements that the source runs in one transaction are one function. */
module Schema {
  import opened Options
  import opened Json
  import opened Checksum

  type Id = nat
  type Time = int

  datatype DeliveryStatus = Pending | Processing | AwaitingAck | Delivered | Failed

  datatype EventStatus = EventPending | EventProcessing | EventDelivered | EventFailed

  datatype Event = Event(
    tenant: Id,
    topic: Id,
    payload: Value,
    checksum: Digest,
    key: Option<Id>,
    status: EventStatus,
    startedAt: Option<Time>,
    processedAt: Option<Time>)

  datatype Delivery = Delivery(
    tenant: Id,
    event: Id,
    consumer: Id,
    status: DeliveryStatus,
    retryCount: nat,
    scheduledAt: Time,
    startedAt: Option<Time>,
    deliveredAt: Option<Time>)
  {
    predicate Open() {
      status == Pending || status == Processing || status == AwaitingAck
    }
  }

  datatype DeadLetter = DeadLetter(
    tenant: Id,
    delivery: Id,
    event: Id,
    consumer: Id,
    payload: Value,
    replayed: bool)

  datatype Consumer = Consumer(tenant: Id, topic: Id, push: bool, hasUrl: bool, active: bool, deleted: bool)

  datatype Tables = Tables(
    events: map<Id, Event>,
    deliveries: map<Id, Delivery>,
    deadLetters: map<Id, DeadLetter>,
    consumers: map<Id, Consumer>)

  /** The claimed snapshot handed to a worker or to a pulling consumer. */
  datatype ClaimedEvent = ClaimedEvent(
    id: Id,
    event: Id,
    tenant: Id,
    topic: Id,
    consumer: Id,
    payload: Value,
    attempt: nat,
    scheduledAt: Time)

  // ---------------------------------------------------------------- the event aggregate

  predicate AnyOpen(deliveries: map<Id, Delivery>, event: Id) {
    exists d :: d in deliveries && deliveries[d].event == event && deliveries[d].Open()
  }

  predicate AnyFailed(deliveries: map<Id, Delivery>, event: Id) {
    exists d :: d in deliveries && deliveries[d].event == event && deliveries[d].status == Failed
  }

  function Aggregate(deliveries: map<Id, Delivery>, event: Id): EventStatus {
    if AnyOpen(deliveries, event) then EventProcessing
    else if AnyFailed(deliveries, event) then EventFailed
    else EventDelivered
  }

  function SyncEvent(t: Tables, event: Id, now: Time): Tables {
    if event !in t.events then t else
      var status := Aggregate(t.deliveries, event);
      var e := t.events[event];
      var processedAt := if status == EventProcessing then e.processedAt else Some(now);
      t.(events := t.events[event := e.(status := status, processedAt := processedAt)])
  }

  // ---------------------------------------------------------------- single-row updates

  function SetRow(t: Tables, d: Id, row: Delivery): Tables {
    t.(deliveries := t.deliveries[d := row])
  }

  function NewDelivery(tenant: Id, event: Id, consumer: Id, attempt: nat, scheduledAt: Time): Delivery {
    Delivery(tenant, event, consumer, Pending, attempt, scheduledAt, None, None)
  }

  /** The writes that end a claim, all of them unconditional by row id. */
  datatype Write =
    | Deliver                    // acknowledge, without its sync
    | Await                      // markAwaitingAck
    | Release                    // releaseToPending
    | Retry(delay: nat)          // scheduleRetry
    | GiveUp(letter: Id)         // moveToDeadLetter

  function WriteRow(row: Delivery, w: Write, now: Time): Delivery {
    match w
    case Deliver => row.(status := Delivered, deliveredAt := Some(now))
    case Await => row.(status := AwaitingAck)
    case Release => row.(status := Pending, startedAt := None)
    case Retry(delay) => row.(status := Pending, scheduledAt := now + delay, retryCount := row.retryCount + 1)
    case GiveUp(_) => row.(status := Failed)
  }

  /** The `moveToDeadLetter` transaction; `letter` is the new record's random id. */
  function DeadLetterRow(t: Tables, d: Id, letter: Id, now: Time): Tables {
    if d !in t.deliveries || t.deliveries[d].event !in t.events then t else
      var row := t.deliveries[d];
      var record := DeadLetter(row.tenant, d, row.event, row.consumer, t.events[row.event].payload, false);
      var failed := SetRow(t.(deadLetters := t.deadLetters[letter := record]), d, WriteRow(row, GiveUp(letter), now));
      SyncEvent(failed, row.event, now)
  }

  function Apply(t: Tables, d: Id, w: Write, now: Time): Tables {
    if w.GiveUp? then DeadLetterRow(t, d, w.letter, now)
    else if d !in t.deliveries then t
    else SetRow(t, d, WriteRow(t.deliveries[d], w, now))
  }

  // ---------------------------------------------------------------- bulk updates

  /** The UPDATE statements of a claim, on the selected rows. */
  function ClaimRows(t: Tables, rows: set<Id>, now: Time): Tables
    requires rows <= t.deliveries.Keys
  {
    var events := set d | d in rows :: t.deliveries[d].event;
    t.(deliveries := map d | d in t.deliveries ::
         if d in rows then t.deliveries[d].(status := Processing, startedAt := Some(now)) else t.deliveries[d],
       events := map e | e in t.events ::
         if e in events && t.events[e].status == EventPending then
           t.events[e].(status := EventProcessing,
                        startedAt := if t.events[e].startedAt.None? then Some(now) else t.events[e].startedAt)
         else t.events[e])
  }

  const MS_PER_HOUR := 3_600_000

  predicate AckTimedOut(row: Delivery, timeout: nat, now: Time) {
    row.status == AwaitingAck && row.startedAt.Some? && row.startedAt.value < now - timeout
  }

  function ResetTimedOutAcks(t: Tables, timeout: nat, now: Time): Tables {
    t.(deliveries := map d | d in t.deliveries ::
      var row := t.deliveries[d];
      if AckTimedOut(row, timeout, now)
      then row.(status := Pending, retryCount := row.retryCount + 1, scheduledAt := now)
      else row)
  }

  predicate Stuck(row: Delivery, threshold: nat, now: Time) {
    row.status == Processing && row.startedAt.Some? && row.startedAt.value < now - threshold
  }

  function ReleaseStuckDeliveries(t: Tables, threshold: nat, now: Time): Tables {
    t.(deliveries := map d | d in t.deliveries ::
      var row := t.deliveries[d];
      if Stuck(row, threshold, now) then row.(status := Pending, startedAt := None) else row)
  }

  function MarkReplayed(t: Tables, letter: Id): Tables {
    if letter !in t.deadLetters then t else
      t.(deadLetters := t.deadLetters[letter := t.deadLetters[letter].(replayed := true)])
  }

  // ---------------------------------------------------------------- retry delay

  function Pow2(n: nat): nat {
    if n == 0 then 1 else 2 * Pow2(n - 1)
  }

  /** `calcRetryDelay`, and `ConsumerService.getRetryDelay`. */
  function RetryDelay(attempt: nat, base: nat): nat {
    base * Pow2(attempt)
  }
}
