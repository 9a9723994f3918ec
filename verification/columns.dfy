/** What each write does to the tables, column by column: the statements that the functions of
    `Schema` and the methods on the database are held to. `t` is before, `u` after. */
module Columns {
  import opened Options
  import opened Schema

  /** Only the row `d` changes, to `row`. */
  ghost predicate OnlyRow(t: Tables, u: Tables, d: Id, row: Delivery) {
    u.deliveries == t.deliveries[d := row] && u.events == t.events && u.deadLetters == t.deadLetters
    && u.consumers == t.consumers
  }

  /** Delivered now; every other column stays. */
  ghost predicate MarkedDelivered(t: Tables, u: Tables, d: Id, now: Time) {
    if d !in t.deliveries then u == t
    else OnlyRow(t, u, d, t.deliveries[d].(status := Delivered, deliveredAt := Some(now)))
  }

  /** Awaiting its acknowledge; every other column stays. */
  ghost predicate MarkedAwaiting(t: Tables, u: Tables, d: Id) {
    if d !in t.deliveries then u == t else OnlyRow(t, u, d, t.deliveries[d].(status := AwaitingAck))
  }

  /** Pending without a start time; the schedule and the retry count stay. */
  ghost predicate Released(t: Tables, u: Tables, d: Id) {
    if d !in t.deliveries then u == t else OnlyRow(t, u, d, t.deliveries[d].(status := Pending, startedAt := None))
  }

  /** Pending, due at `due`, with one retry more. */
  ghost predicate Retried(t: Tables, u: Tables, d: Id, due: Time) {
    if d !in t.deliveries then u == t
    else
      var row := t.deliveries[d];
      OnlyRow(t, u, d, row.(status := Pending, scheduledAt := due, retryCount := row.retryCount + 1))
  }

  /** How an event follows its deliveries `rows`: it is processing while one of them is open, and
      otherwise failed when one has failed, and delivered when none has. Only a final status sets the
      processed time. */
  ghost predicate Follows(before: Event, after: Event, rows: map<Id, Delivery>, e: Id, now: Time) {
    && after == before.(status := after.status, processedAt := after.processedAt)
    && ((exists d :: d in rows && rows[d].event == e
           && (rows[d].status == Pending || rows[d].status == Processing || rows[d].status == AwaitingAck)) ==>
          after.status == EventProcessing && after.processedAt == before.processedAt)
    && ((forall d :: d in rows && rows[d].event == e ==> rows[d].status == Delivered || rows[d].status == Failed) ==>
          && after.processedAt == Some(now)
          && (after.status == EventFailed <==> exists d :: d in rows && rows[d].event == e && rows[d].status == Failed)
          && (after.status == EventDelivered <==>
                forall d :: d in rows && rows[d].event == e ==> rows[d].status == Delivered))
  }

  /** The event `e` follows its deliveries, and nothing else changes. */
  ghost predicate Synced(t: Tables, u: Tables, e: Id, now: Time) {
    if e !in t.events then u == t
    else
      && u.deliveries == t.deliveries && u.deadLetters == t.deadLetters && u.consumers == t.consumers
      && e in u.events && u.events == t.events[e := u.events[e]]
      && Follows(t.events[e], u.events[e], t.deliveries, e, now)
  }

  /** Delivered now, and its event follows. */
  ghost predicate Completed(t: Tables, u: Tables, d: Id, now: Time) {
    if d !in t.deliveries then u == t
    else
      var row := t.deliveries[d];
      && u.deliveries == t.deliveries[d := row.(status := Delivered, deliveredAt := Some(now))]
      && u.deadLetters == t.deadLetters && u.consumers == t.consumers
      && EventFollows(t, u, row.event, now)
  }

  ghost predicate EventFollows(t: Tables, u: Tables, e: Id, now: Time) {
    if e !in t.events then u.events == t.events
    else
      e in u.events && u.events == t.events[e := u.events[e]] && Follows(t.events[e], u.events[e], u.deliveries, e, now)
  }

  /** Failed, with one new record that copies the row's identifiers and its event's payload, and its
      event follows; nothing at all when the row or its event is missing. */
  ghost predicate DeadLettered(t: Tables, u: Tables, d: Id, letter: Id, now: Time) {
    if d !in t.deliveries || t.deliveries[d].event !in t.events then u == t
    else
      var row := t.deliveries[d];
      && u.deliveries == t.deliveries[d := row.(status := Failed)]
      && u.deadLetters == t.deadLetters[letter :=
           DeadLetter(row.tenant, d, row.event, row.consumer, t.events[row.event].payload, false)]
      && u.consumers == t.consumers
      && EventFollows(t, u, row.event, now)
  }

  // ---------------------------------------------------------------- the functions of Schema

  lemma SyncMeans(t: Tables, e: Id, now: Time)
    ensures Synced(t, SyncEvent(t, e, now), e, now)
  {
    if e in t.events {
      var u := SyncEvent(t, e, now);
      assert u.events == t.events[e := u.events[e]];
      if AnyOpen(t.deliveries, e) {
        var d :| d in t.deliveries && t.deliveries[d].event == e && t.deliveries[d].Open();
      }
    }
  }

  /** Each closing write, by its columns. */
  lemma WriteMeans(t: Tables, d: Id, w: Write, now: Time)
    ensures var u := Apply(t, d, w, now);
      match w
      case Deliver => MarkedDelivered(t, u, d, now)
      case Await => MarkedAwaiting(t, u, d)
      case Release => Released(t, u, d)
      case Retry(delay) => Retried(t, u, d, now + delay)
      case GiveUp(letter) => DeadLettered(t, u, d, letter, now)
  {
    if w.GiveUp? && d in t.deliveries && t.deliveries[d].event in t.events {
      var row := t.deliveries[d];
      var record := DeadLetter(row.tenant, d, row.event, row.consumer, t.events[row.event].payload, false);
      var failed := SetRow(t.(deadLetters := t.deadLetters[w.letter := record]), d, row.(status := Failed));
      SyncMeans(failed, row.event, now);
    }
  }

  /** The back-off starts at the base and doubles with each attempt. */
  lemma DelayDoubles(attempt: nat, base: nat)
    ensures RetryDelay(0, base) == base
    ensures RetryDelay(attempt + 1, base) == 2 * RetryDelay(attempt, base)
    ensures RetryDelay(attempt, base) == base * Pow2(attempt)
  {
    assert base * (2 * Pow2(attempt)) == 2 * (base * Pow2(attempt));
  }

  // ---------------------------------------------------------------- reapers

  /** Exactly the rows that await an acknowledge since before `since` are pending again, due now and
      with one retry more. */
  ghost predicate AcksReset(t: Tables, u: Tables, since: Time, now: Time) {
    && u.events == t.events && u.deadLetters == t.deadLetters && u.consumers == t.consumers
    && u.deliveries.Keys == t.deliveries.Keys
    && forall d :: d in t.deliveries ==>
         var row := t.deliveries[d];
         u.deliveries[d] ==
           if row.status == AwaitingAck && row.startedAt != None && row.startedAt.value < since
           then row.(status := Pending, retryCount := row.retryCount + 1, scheduledAt := now)
           else row
  }

  /** Exactly the rows in processing since before `since` are pending again, without a start time. */
  ghost predicate StuckReleased(t: Tables, u: Tables, since: Time) {
    && u.events == t.events && u.deadLetters == t.deadLetters && u.consumers == t.consumers
    && u.deliveries.Keys == t.deliveries.Keys
    && forall d :: d in t.deliveries ==>
         var row := t.deliveries[d];
         u.deliveries[d] ==
           if row.status == Processing && row.startedAt != None && row.startedAt.value < since
           then row.(status := Pending, startedAt := None)
           else row
  }

  // ---------------------------------------------------------------- claims

  /** Pending, due, not locked by others, and joined to its event. */
  ghost predicate Due(t: Tables, locked: set<Id>, now: Time, d: Id) {
    && d in t.deliveries && d !in locked
    && t.deliveries[d].status == Pending && t.deliveries[d].scheduledAt <= now && t.deliveries[d].event in t.events
  }

  /** The due rows of one consumer in one tenant. */
  ghost predicate DueFor(t: Tables, consumer: Id, tenant: Id, locked: set<Id>, now: Time, d: Id) {
    Due(t, locked, now, d) && t.deliveries[d].consumer == consumer && t.deliveries[d].tenant == tenant
  }

  /** A claimed event shows its row and its event as they were. */
  ghost predicate Shows(t: Tables, x: ClaimedEvent) {
    && x.id in t.deliveries && t.deliveries[x.id].event in t.events
    && var row := t.deliveries[x.id];
    && x.event == row.event && x.tenant == row.tenant && x.consumer == row.consumer
    && x.attempt == row.retryCount && x.scheduledAt == row.scheduledAt
    && x.topic == t.events[row.event].topic && x.payload == t.events[row.event].payload
  }

  /** At most `limit` distinct rows, in schedule order. */
  ghost predicate InOrder(claimed: seq<ClaimedEvent>, limit: nat) {
    && |claimed| <= limit
    && forall i, j :: 0 <= i < j < |claimed| ==>
         claimed[i].id != claimed[j].id && claimed[i].scheduledAt <= claimed[j].scheduledAt
  }

  /** The row `d` may be left out: the claim is full, and took nothing that is due later. */
  ghost predicate LeftForLater(claimed: seq<ClaimedEvent>, limit: nat, at: Time) {
    |claimed| == limit && forall x :: x in claimed ==> x.scheduledAt <= at
  }

  /** The result of a worker's claim. */
  ghost predicate Polled(t: Tables, locked: set<Id>, now: Time, limit: nat, claimed: seq<ClaimedEvent>) {
    && InOrder(claimed, limit)
    && (forall x :: x in claimed ==> Shows(t, x) && Due(t, locked, now, x.id))
    && (forall d :: Due(t, locked, now, d) ==>
          (exists x :: x in claimed && x.id == d) || LeftForLater(claimed, limit, t.deliveries[d].scheduledAt))
  }

  /** The result of a pull: that consumer's rows, and no others. */
  ghost predicate PulledFor(t: Tables, consumer: Id, tenant: Id, locked: set<Id>, now: Time, limit: nat,
                            claimed: seq<ClaimedEvent>) {
    && InOrder(claimed, limit)
    && (forall x :: x in claimed ==> Shows(t, x) && DueFor(t, consumer, tenant, locked, now, x.id))
    && (forall d :: DueFor(t, consumer, tenant, locked, now, d) ==>
          (exists x :: x in claimed && x.id == d) || LeftForLater(claimed, limit, t.deliveries[d].scheduledAt))
  }

  /** Exactly the claimed rows are processing since now, and so are exactly their events that were
      still pending; a start time that an event already has stays. */
  ghost predicate Taken(t: Tables, u: Tables, claimed: seq<ClaimedEvent>, now: Time) {
    && u.deadLetters == t.deadLetters && u.consumers == t.consumers
    && u.deliveries.Keys == t.deliveries.Keys && u.events.Keys == t.events.Keys
    && (forall d :: d in t.deliveries ==>
          u.deliveries[d] ==
            if exists x :: x in claimed && x.id == d
            then t.deliveries[d].(status := Processing, startedAt := Some(now)) else t.deliveries[d])
    && (forall e :: e in t.events ==>
          u.events[e] ==
            if t.events[e].status == EventPending && exists x :: x in claimed && x.event == e
            then t.events[e].(status := EventProcessing,
                              startedAt := if t.events[e].startedAt == None then Some(now) else t.events[e].startedAt)
            else t.events[e])
  }
}
