/** The queue engine and the delivery repository, statement by statement, on a database that they
    update in place. Each method does what its function in `Schema` says. */
module QueueEngine {
  import opened Options
  import opened FiniteSets
  import opened Schema
  import opened Columns
  import opened ClaimSelection

  class Database {
    var now: Time
    var events: map<Id, Event>
    var deliveries: map<Id, Delivery>
    var deadLetters: map<Id, DeadLetter>
    var consumers: map<Id, Consumer>

    constructor (now: Time)
      ensures this.now == now && Snapshot() == Tables(map[], map[], map[], map[])
    {
      this.now := now;
      events, deliveries, deadLetters, consumers := map[], map[], map[], map[];
    }

    function Snapshot(): Tables
      reads this
    {
      Tables(events, deliveries, deadLetters, consumers)
    }
  }

  /** `toClaimedEvent`, on a row and the columns joined from its event. */
  function ClaimedEventOf(t: Tables, d: Id): ClaimedEvent
    requires d in t.deliveries && t.deliveries[d].event in t.events
  {
    var row := t.deliveries[d];
    var e := t.events[row.event];
    ClaimedEvent(d, row.event, row.tenant, e.topic, row.consumer, e.payload, row.retryCount, row.scheduledAt)
  }

  function Ids(claimed: seq<ClaimedEvent>): (ids: seq<Id>)
    ensures |ids| == |claimed| && forall i :: 0 <= i < |ids| ==> ids[i] == claimed[i].id
  {
    seq(|claimed|, i requires 0 <= i < |claimed| => claimed[i].id)
  }

  /** What a claim returns: an allowed selection, and a snapshot of each selected row. */
  ghost predicate Selected(t: Tables, scope: Scope, locked: set<Id>, now: Time, limit: nat,
                           claimed: seq<ClaimedEvent>) {
    && ClaimAllowed(t, scope, locked, now, limit, Ids(claimed))
    && SnapshotsOf(t, claimed)
  }

  ghost predicate SnapshotsOf(t: Tables, claimed: seq<ClaimedEvent>) {
    forall i :: 0 <= i < |claimed| ==>
      && claimed[i].id in t.deliveries && t.deliveries[claimed[i].id].event in t.events
      && claimed[i] == ClaimedEventOf(t, claimed[i].id)
  }

  function Coalesce<T>(a: Option<T>, b: Option<T>): Option<T> {
    if a.Some? then a else b
  }

  class PostgresQueueEngine {
    const db: Database

    constructor (db: Database)
      ensures this.db == db
    {
      this.db := db;
    }

    /** INSERT under the primary key and the foreign keys; a violation throws. */
    method Enqueue(event: ClaimedEvent) returns (inserted: bool)
      modifies db
      ensures db.now == old(db.now)
      ensures inserted <==>
        event.id !in old(db.deliveries) && event.event in old(db.events) && event.consumer in old(db.consumers)
      ensures db.Snapshot() == if !inserted then old(db.Snapshot()) else
        SetRow(old(db.Snapshot()), event.id,
          NewDelivery(event.tenant, event.event, event.consumer, event.attempt, event.scheduledAt))
      ensures inserted ==> OnlyRow(old(db.Snapshot()), db.Snapshot(), event.id,
        Delivery(event.tenant, event.event, event.consumer, Pending, event.attempt, event.scheduledAt, None, None))
    {
      if event.id in db.deliveries || event.event !in db.events || event.consumer !in db.consumers {
        return false;
      }
      db.deliveries := db.deliveries[event.id :=
        Delivery(event.tenant, event.event, event.consumer, Pending, event.attempt, event.scheduledAt, None, None)];
      inserted := true;
    }

    /** SELECT ... FOR UPDATE OF ed SKIP LOCKED. `scan` is the order in which the database reads the
        rows, and `locked` the rows that other transactions hold. */
    method SelectForUpdate(scope: Scope, limit: nat, scan: seq<Id>,
                           locked: set<Id>) returns (claimed: seq<ClaimedEvent>)
      requires Distinct(scan) && forall d :: d in db.deliveries ==> d in scan
      ensures Selected(db.Snapshot(), scope, locked, db.now, limit, claimed)
    {
      var t := db.Snapshot();
      var rows := SelectRows(t, scope, locked, db.now, limit, scan);
      SelectionClaimed(t, scope, locked, db.now, limit, scan);
      claimed := seq(|rows|, i requires 0 <= i < |rows| => ClaimedEventOf(t, rows[i]));
      assert Ids(claimed) == rows;
    }

    /** The claim transaction. */
    method ClaimScope(scope: Scope, limit: nat, scan: seq<Id>, locked: set<Id>) returns (claimed: seq<ClaimedEvent>)
      requires Distinct(scan) && forall d :: d in db.deliveries ==> d in scan
      modifies db
      ensures db.now == old(db.now)
      ensures Selected(old(db.Snapshot()), scope, locked, db.now, limit, claimed)
      ensures db.Snapshot() == ClaimRows(old(db.Snapshot()), Elements(Ids(claimed)), db.now)
    {
      claimed := SelectForUpdate(scope, limit, scan, locked);
      if claimed == [] {
        NothingClaimed(db.Snapshot(), db.now);
        return;
      }
      ClaimedEventIds(db.Snapshot(), claimed);
      TakeRows(Ids(claimed));
      StartEvents(set c | c in claimed :: c.event);
    }

    /** UPDATE event_deliveries ... WHERE id IN (rows). */
    method TakeRows(rows: seq<Id>)
      modifies db`deliveries
      ensures db.deliveries == map d | d in old(db.deliveries) ::
        if d in Elements(rows) then old(db.deliveries)[d].(status := Processing, startedAt := Some(db.now))
        else old(db.deliveries)[d]
    {
      db.deliveries := map d | d in db.deliveries ::
        if d in rows then db.deliveries[d].(status := Processing, startedAt := Some(db.now)) else db.deliveries[d];
    }

    /** UPDATE events ... WHERE id IN (ids) AND status = 'pending'. */
    method StartEvents(ids: set<Id>)
      modifies db`events
      ensures db.events == map e | e in old(db.events) ::
        if e in ids && old(db.events)[e].status == EventPending then
          old(db.events)[e].(
            status := EventProcessing,
            startedAt := if old(db.events)[e].startedAt.None? then Some(db.now) else old(db.events)[e].startedAt)
        else old(db.events)[e]
    {
      db.events := map e | e in db.events ::
        if e !in ids || db.events[e].status != EventPending then db.events[e]
        else db.events[e].(status := EventProcessing, startedAt := Coalesce(db.events[e].startedAt, Some(db.now)));
    }

    method Claim(limit: nat, scan: seq<Id>, locked: set<Id>) returns (claimed: seq<ClaimedEvent>)
      requires Distinct(scan) && forall d :: d in db.deliveries ==> d in scan
      modifies db
      ensures db.now == old(db.now)
      ensures Selected(old(db.Snapshot()), Everyone, locked, db.now, limit, claimed)
      ensures db.Snapshot() == ClaimRows(old(db.Snapshot()), Elements(Ids(claimed)), db.now)
      ensures Polled(old(db.Snapshot()), locked, db.now, limit, claimed)
      ensures Taken(old(db.Snapshot()), db.Snapshot(), claimed, db.now)
    {
      ghost var t := db.Snapshot();
      claimed := ClaimScope(Everyone, limit, scan, locked);
      PollMeans(t, locked, db.now, limit, claimed);
      TakingMeans(t, claimed, db.now);
    }

    method ClaimForConsumer(consumer: Id, tenant: Id, limit: nat, scan: seq<Id>, locked: set<Id>)
      returns (claimed: seq<ClaimedEvent>)
      requires Distinct(scan) && forall d :: d in db.deliveries ==> d in scan
      modifies db
      ensures db.now == old(db.now)
      ensures Selected(old(db.Snapshot()), OneConsumer(consumer, tenant), locked, db.now, limit, claimed)
      ensures db.Snapshot() == ClaimRows(old(db.Snapshot()), Elements(Ids(claimed)), db.now)
      ensures PulledFor(old(db.Snapshot()), consumer, tenant, locked, db.now, limit, claimed)
      ensures Taken(old(db.Snapshot()), db.Snapshot(), claimed, db.now)
      ensures forall x :: x in claimed ==> x.consumer == consumer && x.tenant == tenant
    {
      ghost var t := db.Snapshot();
      claimed := ClaimScope(OneConsumer(consumer, tenant), limit, scan, locked);
      PullMeans(t, consumer, tenant, locked, db.now, limit, claimed);
      TakingMeans(t, claimed, db.now);
    }

    /** The row update of `acknowledge`, and the event it returns. */
    method MarkDelivered(d: Id) returns (event: Option<Id>)
      modifies db
      ensures db.now == old(db.now)
      ensures db.Snapshot() == Apply(old(db.Snapshot()), d, Deliver, db.now)
      ensures MarkedDelivered(old(db.Snapshot()), db.Snapshot(), d, db.now)
      ensures event == if d in old(db.deliveries) then Some(old(db.deliveries)[d].event) else None
    {
      if d !in db.deliveries { return None; }
      var row := db.deliveries[d];
      db.deliveries := db.deliveries[d := row.(status := Delivered, deliveredAt := Some(db.now))];
      event := Some(row.event);
    }

    method SyncEventStatus(e: Id)
      modifies db
      ensures db.now == old(db.now)
      ensures db.Snapshot() == SyncEvent(old(db.Snapshot()), e, db.now)
      ensures Synced(old(db.Snapshot()), db.Snapshot(), e, db.now)
    {
      SyncMeans(db.Snapshot(), e, db.now);
      if e !in db.events { return; }
      var open := set d | d in db.deliveries && db.deliveries[d].event == e && db.deliveries[d].Open();
      var failed := set d | d in db.deliveries && db.deliveries[d].event == e && db.deliveries[d].status == Failed;
      var status := if |open| > 0 then EventProcessing else if |failed| > 0 then EventFailed else EventDelivered;
      var row := db.events[e];
      assert |open| > 0 <==> AnyOpen(db.deliveries, e) by {
        if d :| d in db.deliveries && db.deliveries[d].event == e && db.deliveries[d].Open() { assert d in open; }
        if |open| > 0 { var d :| d in open; }
      }
      assert |failed| > 0 <==> AnyFailed(db.deliveries, e) by {
        if d :| d in db.deliveries && db.deliveries[d].event == e && db.deliveries[d].status == Failed {
          assert d in failed;
        }
        if |failed| > 0 { var d :| d in failed; }
      }
      var processedAt := if status == EventDelivered || status == EventFailed then Some(db.now) else row.processedAt;
      db.events := db.events[e := row.(status := status, processedAt := processedAt)];
    }

    /** Two statements, without a transaction: other steps may come between them. */
    method Acknowledge(d: Id)
      modifies db
      ensures db.now == old(db.now)
      ensures db.Snapshot() == Acknowledged(old(db.Snapshot()), d, db.now)
      ensures Completed(old(db.Snapshot()), db.Snapshot(), d, db.now)
    {
      var event := MarkDelivered(d);
      if event.Some? { SyncEventStatus(event.value); }
    }

    method MarkAwaitingAck(d: Id)
      modifies db
      ensures db.now == old(db.now)
      ensures db.Snapshot() == Apply(old(db.Snapshot()), d, Await, db.now)
      ensures MarkedAwaiting(old(db.Snapshot()), db.Snapshot(), d)
    {
      if d !in db.deliveries { return; }
      db.deliveries := db.deliveries[d := db.deliveries[d].(status := AwaitingAck)];
    }

    method ReleaseToPending(d: Id)
      modifies db
      ensures db.now == old(db.now)
      ensures db.Snapshot() == Apply(old(db.Snapshot()), d, Release, db.now)
      ensures Released(old(db.Snapshot()), db.Snapshot(), d)
    {
      if d !in db.deliveries { return; }
      db.deliveries := db.deliveries[d := db.deliveries[d].(status := Pending, startedAt := None)];
    }

    method ScheduleRetry(d: Id, delayMs: nat)
      modifies db
      ensures db.now == old(db.now)
      ensures db.Snapshot() == Apply(old(db.Snapshot()), d, Retry(delayMs), db.now)
      ensures Retried(old(db.Snapshot()), db.Snapshot(), d, db.now + delayMs)
    {
      if d !in db.deliveries { return; }
      var row := db.deliveries[d];
      db.deliveries := db.deliveries[d :=
        row.(status := Pending, scheduledAt := db.now + delayMs, retryCount := row.retryCount + 1)];
    }

    /** One transaction; `letter` is the new record's random id. */
    method MoveToDeadLetter(d: Id, letter: Id)
      modifies db
      ensures db.now == old(db.now)
      ensures db.Snapshot() == Apply(old(db.Snapshot()), d, GiveUp(letter), db.now)
      ensures DeadLettered(old(db.Snapshot()), db.Snapshot(), d, letter, db.now)
    {
      if d !in db.deliveries || db.deliveries[d].event !in db.events { return; }
      var row := db.deliveries[d];
      db.deadLetters := db.deadLetters[letter :=
        DeadLetter(row.tenant, d, row.event, row.consumer, db.events[row.event].payload, false)];
      db.deliveries := db.deliveries[d := row.(status := Failed)];
      SyncEventStatus(row.event);
    }
  }

  /** `acknowledge` with nothing between its two statements. */
  function Acknowledged(t: Tables, d: Id, now: Time): Tables {
    var u := Apply(t, d, Deliver, now);
    if d in t.deliveries then SyncEvent(u, t.deliveries[d].event, now) else u
  }

  lemma SelectionClaimed(t: Tables, scope: Scope, locked: set<Id>, now: Time, limit: nat, scan: seq<Id>)
    requires Distinct(scan) && forall d :: d in t.deliveries ==> d in scan
    ensures var rows := SelectRows(t, scope, locked, now, limit, scan);
      && ClaimAllowed(t, scope, locked, now, limit, rows)
      && forall i :: 0 <= i < |rows| ==> Claimable(t, scope, locked, now, rows[i])
  {
    SelectionAllowed(t, scope, locked, now, limit, scan);
    var rows := SelectRows(t, scope, locked, now, limit, scan);
    assert forall i :: 0 <= i < |rows| ==> rows[i] in rows;
  }

  lemma NothingClaimed(t: Tables, now: Time)
    ensures ClaimRows(t, Elements([]), now) == t
  {
    assert ClaimRows(t, {}, now).deliveries == t.deliveries && ClaimRows(t, {}, now).events == t.events;
    assert Elements([]) == {};
  }

  lemma ClaimedEventIds(t: Tables, claimed: seq<ClaimedEvent>)
    requires SnapshotsOf(t, claimed)
    ensures forall d :: d in Elements(Ids(claimed)) ==> d in t.deliveries
    ensures (set c | c in claimed :: c.event) == set d | d in Elements(Ids(claimed)) :: t.deliveries[d].event
  {
    var ids := Ids(claimed);
    var a := set c | c in claimed :: c.event;
    var b := set d | d in Elements(ids) && d in t.deliveries :: t.deliveries[d].event;
    forall e | e in a ensures e in b {
      var i :| 0 <= i < |claimed| && claimed[i].event == e;
      assert ids[i] in Elements(ids);
    }
    forall e | e in b ensures e in a {
      var i :| 0 <= i < |ids| && ids[i] in t.deliveries && t.deliveries[ids[i]].event == e;
      assert claimed[i] in claimed;
    }
  }

  lemma SelectedShow(t: Tables, scope: Scope, locked: set<Id>, now: Time, limit: nat, claimed: seq<ClaimedEvent>)
    requires Selected(t, scope, locked, now, limit, claimed)
    ensures InOrder(claimed, limit)
    ensures forall x :: x in claimed ==> Shows(t, x) && Claimable(t, scope, locked, now, x.id)
  {
    var ids := Ids(claimed);
    forall x | x in claimed ensures Shows(t, x) && Claimable(t, scope, locked, now, x.id) {
      var i :| 0 <= i < |claimed| && claimed[i] == x;
      assert ids[i] in ids;
    }
    forall i, j | 0 <= i < j < |claimed|
      ensures claimed[i].id != claimed[j].id && claimed[i].scheduledAt <= claimed[j].scheduledAt
    {
      assert ids[i] != ids[j] && ids[i] in ids && ids[j] in ids;
      assert t.deliveries[ids[i]].scheduledAt <= t.deliveries[ids[j]].scheduledAt;
    }
  }

  /** A claimable row that is left out of an allowed selection. */
  lemma UnselectedWaits(t: Tables, scope: Scope, locked: set<Id>, now: Time, limit: nat, claimed: seq<ClaimedEvent>,
                        d: Id)
    requires Selected(t, scope, locked, now, limit, claimed) && Claimable(t, scope, locked, now, d)
    ensures (exists x :: x in claimed && x.id == d) || LeftForLater(claimed, limit, t.deliveries[d].scheduledAt)
  {
    var ids := Ids(claimed);
    if d in ids {
      var i :| 0 <= i < |ids| && ids[i] == d;
      assert claimed[i] in claimed;
    } else {
      DistinctCount(ids);
      var due := ClaimableRows(t, scope, locked, now);
      assert d in due && Elements(ids) <= due - {d};
      SubsetSize(Elements(ids), due - {d});
      forall x | x in claimed ensures x.scheduledAt <= t.deliveries[d].scheduledAt {
        var i :| 0 <= i < |claimed| && claimed[i] == x;
        assert ids[i] in ids;
      }
    }
  }

  /** A worker's selection, said of the rows themselves. */
  lemma PollMeans(t: Tables, locked: set<Id>, now: Time, limit: nat, claimed: seq<ClaimedEvent>)
    requires Selected(t, Everyone, locked, now, limit, claimed)
    ensures Polled(t, locked, now, limit, claimed)
  {
    SelectedShow(t, Everyone, locked, now, limit, claimed);
    forall d | Due(t, locked, now, d)
      ensures (exists x :: x in claimed && x.id == d) || LeftForLater(claimed, limit, t.deliveries[d].scheduledAt)
    {
      UnselectedWaits(t, Everyone, locked, now, limit, claimed, d);
    }
  }

  /** A pull's selection: rows of its own consumer and tenant only, and all of them that are due. */
  lemma PullMeans(t: Tables, consumer: Id, tenant: Id, locked: set<Id>, now: Time, limit: nat,
                  claimed: seq<ClaimedEvent>)
    requires Selected(t, OneConsumer(consumer, tenant), locked, now, limit, claimed)
    ensures PulledFor(t, consumer, tenant, locked, now, limit, claimed)
  {
    SelectedShow(t, OneConsumer(consumer, tenant), locked, now, limit, claimed);
    forall d | DueFor(t, consumer, tenant, locked, now, d)
      ensures (exists x :: x in claimed && x.id == d) || LeftForLater(claimed, limit, t.deliveries[d].scheduledAt)
    {
      UnselectedWaits(t, OneConsumer(consumer, tenant), locked, now, limit, claimed, d);
    }
  }

  lemma TakingMeans(t: Tables, claimed: seq<ClaimedEvent>, now: Time)
    requires SnapshotsOf(t, claimed)
    ensures Elements(Ids(claimed)) <= t.deliveries.Keys
    ensures Taken(t, ClaimRows(t, Elements(Ids(claimed)), now), claimed, now)
  {
    ClaimedEventIds(t, claimed);
    var ids := Ids(claimed);
    forall d ensures d in Elements(ids) <==> exists x :: x in claimed && x.id == d {
      if d in Elements(ids) {
        var i :| 0 <= i < |ids| && ids[i] == d;
        assert claimed[i] in claimed;
      }
      if x :| x in claimed && x.id == d {
        var i :| 0 <= i < |claimed| && claimed[i] == x;
        assert ids[i] in ids;
      }
    }
    var events := set c | c in claimed :: c.event;
    forall e ensures e in events <==> exists x :: x in claimed && x.event == e {}
  }

  class EventDeliveryRepository {
    const db: Database

    constructor (db: Database)
      ensures this.db == db
    {
      this.db := db;
    }

    method ResetTimedOutAcks(hours: nat)
      modifies db
      ensures db.now == old(db.now)
      ensures db.Snapshot() == Schema.ResetTimedOutAcks(old(db.Snapshot()), hours * MS_PER_HOUR, db.now)
      ensures AcksReset(old(db.Snapshot()), db.Snapshot(), db.now - hours * 3_600_000, db.now)
    {
      db.deliveries := map d | d in db.deliveries ::
        var row := db.deliveries[d];
        if AckTimedOut(row, hours * MS_PER_HOUR, db.now)
        then row.(status := Pending, retryCount := row.retryCount + 1, scheduledAt := db.now)
        else row;
    }

    method ReleaseStuckDeliveries(thresholdMs: nat) returns (released: nat)
      modifies db
      ensures db.now == old(db.now)
      ensures db.Snapshot() == Schema.ReleaseStuckDeliveries(old(db.Snapshot()), thresholdMs, db.now)
      ensures StuckReleased(old(db.Snapshot()), db.Snapshot(), db.now - thresholdMs)
      ensures released == |set d | d in old(db.deliveries) && db.deliveries[d] != old(db.deliveries)[d]|
    {
      var matched := set d | d in db.deliveries && Stuck(db.deliveries[d], thresholdMs, db.now);
      db.deliveries := map d | d in db.deliveries ::
        var row := db.deliveries[d];
        if Stuck(row, thresholdMs, db.now) then row.(status := Pending, startedAt := None) else row;
      released := |matched|;
      assert matched == set d | d in old(db.deliveries) && db.deliveries[d] != old(db.deliveries)[d];
    }
  }

  // ---------------------------------------------------------------- what a claim changes

  /** A claim of pending rows changes the status of exactly those rows, and of exactly their
      events that were still pending; every other row and column stays as it was. */
  lemma ClaimTakesExactly(t: Tables, scope: Scope, locked: set<Id>, now: Time, limit: nat, rows: seq<Id>)
    requires ClaimAllowed(t, scope, locked, now, limit, rows)
    ensures var u := ClaimRows(t, Elements(rows), now);
      && u.deliveries.Keys == t.deliveries.Keys && u.events.Keys == t.events.Keys
      && (set d | d in t.deliveries && u.deliveries[d].status != t.deliveries[d].status) == Elements(rows)
      && (forall d :: d in rows ==>
            u.deliveries[d] == t.deliveries[d].(status := Processing, startedAt := Some(now)))
      && (forall d :: d in t.deliveries && d !in rows ==> u.deliveries[d] == t.deliveries[d])
      && (set e | e in t.events && u.events[e] != t.events[e]) == PendingEventsOf(t, rows)
      && (forall e :: e in PendingEventsOf(t, rows) ==> u.events[e].status == EventProcessing)
  {
    assert forall d :: d in rows ==> Claimable(t, scope, locked, now, d);
  }

  ghost function PendingEventsOf(t: Tables, rows: seq<Id>): set<Id> {
    set e | e in t.events && t.events[e].status == EventPending
            && exists d :: d in Elements(rows) && d in t.deliveries && t.deliveries[d].event == e
  }
}
