/** The API side of the queue: pulling, acknowledging and replaying, on the database that they
    update in place. */
module ApiServices {
  import opened Options
  import opened Schema
  import opened Columns
  import opened ClaimSelection
  import opened QueueEngine
  import opened Protocol
  import opened RowAgreement

  predicate ConsumerOf(t: Tables, c: Id, tenant: Id) {
    c in t.consumers && t.consumers[c].tenant == tenant && !t.consumers[c].deleted
  }

  // ---------------------------------------------------------------- pull and acknowledge

  datatype ConsumeResult = NoSuchConsumer | Pulled(claimed: seq<ClaimedEvent>)

  /** The rows of an event, in the order in which the database returns them. */
  ghost predicate ListsEvent(t: Tables, event: Id, tenant: Id, listing: seq<Id>) {
    forall d ::
      d in listing <==> d in t.deliveries && t.deliveries[d].event == event && t.deliveries[d].tenant == tenant
  }

  /** The tables after an acknowledge of row `d` that reads and writes without interruption. */
  function AfterAck(c: Config, t: Tables, d: Id, success: bool, letter: Id, now: Time): Tables
    requires d in t.deliveries
  {
    var w := AckDecision(c, t.deliveries[d].retryCount, success, letter);
    if w.Deliver? then Acknowledged(t, d, now) else Apply(t, d, w, now)
  }

  /** `d` is the first row of the listing that is processing or awaiting its acknowledge. */
  ghost predicate FirstTaken(t: Tables, event: Id, listing: seq<Id>, d: Id) {
    && Acknowledgeable(t, event, d)
    && exists k ::
         0 <= k < |listing| && listing[k] == d && forall i :: 0 <= i < k ==> !Acknowledgeable(t, event, listing[i])
  }

  /** What an acknowledge does to the row it found. */
  ghost predicate AckEnds(c: Config, t: Tables, u: Tables, d: Id, success: bool, letter: Id, now: Time)
    requires d in t.deliveries
  {
    var count := t.deliveries[d].retryCount;
    && (success ==> Completed(t, u, d, now))
    && (!success && count < c.apiAttempts ==> Retried(t, u, d, now + c.apiBaseDelay * Pow2(count)))
    && (!success && count >= c.apiAttempts ==> DeadLettered(t, u, d, letter, now))
  }

  class ConsumerService {
    const queue: PostgresQueueEngine
    const config: Config

    constructor (queue: PostgresQueueEngine, config: Config)
      ensures this.queue == queue && this.config == config
    {
      this.queue, this.config := queue, config;
    }

    method Consume(consumer: Id, tenant: Id, limit: nat, scan: seq<Id>, locked: set<Id>) returns (r: ConsumeResult)
      requires Distinct(scan) && forall d :: d in queue.db.deliveries ==> d in scan
      modifies queue.db
      ensures queue.db.now == old(queue.db.now)
      ensures r.NoSuchConsumer? <==> !ConsumerOf(old(queue.db.Snapshot()), consumer, tenant)
      ensures r.NoSuchConsumer? ==> queue.db.Snapshot() == old(queue.db.Snapshot())
      ensures r.Pulled? ==>
        && Selected(old(queue.db.Snapshot()), OneConsumer(consumer, tenant), locked, queue.db.now, limit, r.claimed)
        && queue.db.Snapshot() == ClaimRows(old(queue.db.Snapshot()), Elements(Ids(r.claimed)), queue.db.now)
      ensures r.NoSuchConsumer? <==>
        !(consumer in old(queue.db.consumers) && old(queue.db.consumers)[consumer].tenant == tenant
          && !old(queue.db.consumers)[consumer].deleted)
      ensures r.Pulled? ==>
        && PulledFor(old(queue.db.Snapshot()), consumer, tenant, locked, queue.db.now, limit, r.claimed)
        && Taken(old(queue.db.Snapshot()), queue.db.Snapshot(), r.claimed, queue.db.now)
        && forall x :: x in r.claimed ==> x.consumer == consumer && x.tenant == tenant
    {
      if !ConsumerOf(queue.db.Snapshot(), consumer, tenant) { return NoSuchConsumer; }
      var claimed := queue.ClaimForConsumer(consumer, tenant, limit, scan, locked);
      r := Pulled(claimed);
    }

    /** `all.find(...)`: the first row of the listing that is processing or awaiting its acknowledge. */
    method FindTaken(event: Id, listing: seq<Id>) returns (k: nat)
      requires forall d :: d in listing ==> d in queue.db.deliveries && queue.db.deliveries[d].event == event
      ensures k <= |listing|
      ensures k < |listing| ==> Acknowledgeable(queue.db.Snapshot(), event, listing[k])
      ensures forall i :: 0 <= i < k ==> !Acknowledgeable(queue.db.Snapshot(), event, listing[i])
      ensures forall i :: 0 <= i < k ==>
        queue.db.deliveries[listing[i]].status != Processing && queue.db.deliveries[listing[i]].status != AwaitingAck
      ensures k < |listing| ==>
        queue.db.deliveries[listing[k]].status == Processing || queue.db.deliveries[listing[k]].status == AwaitingAck
    {
      k := 0;
      while k < |listing|
        invariant k <= |listing|
        invariant forall i :: 0 <= i < k ==> !Acknowledgeable(queue.db.Snapshot(), event, listing[i])
      {
        var status := queue.db.deliveries[listing[k]].status;
        if status == Processing || status == AwaitingAck { return; }
        k := k + 1;
      }
    }

    /** The acknowledged row, or None when the event has none to acknowledge. */
    method Acknowledge(event: Id, tenant: Id, success: bool, listing: seq<Id>, letter: Id) returns (found: Option<Id>)
      requires ListsEvent(queue.db.Snapshot(), event, tenant, listing)
      modifies queue.db
      ensures queue.db.now == old(queue.db.now)
      ensures found.None? ==> queue.db.Snapshot() == old(queue.db.Snapshot())
      ensures found.None? <==> forall d :: d in listing ==> !Acknowledgeable(old(queue.db.Snapshot()), event, d)
      ensures found.Some? ==>
        && FirstTaken(old(queue.db.Snapshot()), event, listing, found.value)
        && queue.db.Snapshot() == AfterAck(config, old(queue.db.Snapshot()), found.value, success, letter, queue.db.now)
        && AckEnds(config, old(queue.db.Snapshot()), queue.db.Snapshot(), found.value, success, letter, queue.db.now)
    {
      var k := FindTaken(event, listing);
      if k == |listing| { return None; }
      var d := listing[k];
      found := Some(d);
      if success {
        queue.Acknowledge(d);
        return;
      }
      var retryCount := queue.db.deliveries[d].retryCount;
      if retryCount >= config.apiAttempts {
        queue.MoveToDeadLetter(d, letter);
        return;
      }
      queue.ScheduleRetry(d, RetryDelay(retryCount, config.apiBaseDelay));
    }
  }

  /** An uninterrupted acknowledge is the protocol's atomic step, followed by its sync step when
      the row was delivered. Under H2 the row found is the caller's. */
  lemma AckIsAtomicStep(c: Config, s: State, e: Id, d: Id, holder: Option<Hold>, success: bool, letter: Id,
                        listing: seq<Id>,
                        found: Id)
    requires Enabled(s, AckAtomic(e, d, holder, success, letter)) && OwnAck(s, AckAtomic(e, d, holder, success, letter))
    requires found in listing && Acknowledgeable(s.t, e, found)
    ensures found == d
    ensures var u := Next(c, s, AckAtomic(e, d, holder, success, letter));
      AfterAck(c, s.t, found, success, letter, s.now) ==
        if success then
          assert Enabled(u, Sync(e)); Next(c, u, Sync(e)).t
        else u.t
  {
  }

  // ---------------------------------------------------------------- replay

  datatype ReplayResult = NoSuchLetter | AlreadyReplayed | ConsumerGone | InsertFailed | Replayed

  /** Each answer has its cause, in the order of the checks. */
  ghost predicate ReplayAnswers(t: Tables, r: ReplayResult, letter: Id, tenant: Id, d: Id) {
    if letter !in t.deadLetters || t.deadLetters[letter].tenant != tenant then r == NoSuchLetter
    else if t.deadLetters[letter].replayed then r == AlreadyReplayed
    else
      var k := t.deadLetters[letter].consumer;
      if k !in t.consumers || t.consumers[k].deleted || t.consumers[k].tenant != tenant then r == ConsumerGone
      else r == if d in t.deliveries || t.deadLetters[letter].event !in t.events then InsertFailed else Replayed
  }

  /** A replay adds one first attempt for the letter's event and consumer, due now, and marks the letter. */
  ghost predicate ReplayEnds(t: Tables, u: Tables, letter: Id, d: Id, now: Time) {
    && letter in t.deadLetters
    && var l := t.deadLetters[letter];
    && u.deliveries == t.deliveries[d := Delivery(l.tenant, l.event, l.consumer, Pending, 0, now, None, None)]
    && u.deadLetters == t.deadLetters[letter := l.(replayed := true)]
    && u.events == t.events && u.consumers == t.consumers
  }

  class DeadLetterService {
    const queue: PostgresQueueEngine

    constructor (queue: PostgresQueueEngine)
      ensures this.queue == queue
    {
      this.queue := queue;
    }

    /** Check, enqueue, mark: three statements, here with nothing between them. */
    method Replay(letter: Id, tenant: Id, d: Id) returns (r: ReplayResult)
      modifies queue.db
      ensures queue.db.now == old(queue.db.now)
      ensures r == ReplayVerdict(old(queue.db.Snapshot()), letter, tenant, d)
      ensures queue.db.Snapshot() ==
        if r.Replayed? then MarkReplayed(ReplayRow(old(queue.db.Snapshot()), letter, d, queue.db.now), letter)
        else old(queue.db.Snapshot())
      ensures ReplayAnswers(old(queue.db.Snapshot()), r, letter, tenant, d)
      ensures r.Replayed? ==> ReplayEnds(old(queue.db.Snapshot()), queue.db.Snapshot(), letter, d, queue.db.now)
    {
      var db := queue.db;
      if letter !in db.deadLetters || db.deadLetters[letter].tenant != tenant { return NoSuchLetter; }
      var record := db.deadLetters[letter];
      if record.replayed { return AlreadyReplayed; }
      if !ConsumerOf(db.Snapshot(), record.consumer, tenant) { return ConsumerGone; }
      var topic := db.consumers[record.consumer].topic;
      var inserted := queue.Enqueue(
        ClaimedEvent(d, record.event, record.tenant, topic, record.consumer, record.payload, 0, db.now));
      if !inserted { return InsertFailed; }
      db.deadLetters := db.deadLetters[letter := record.(replayed := true)];
      r := Replayed;
    }
  }

  /** What a replay answers, in the order of its checks. */
  function ReplayVerdict(t: Tables, letter: Id, tenant: Id, d: Id): ReplayResult {
    if letter !in t.deadLetters || t.deadLetters[letter].tenant != tenant then NoSuchLetter
    else
      var record := t.deadLetters[letter];
      if record.replayed then AlreadyReplayed
      else if !ConsumerOf(t, record.consumer, tenant) then ConsumerGone
      else if d in t.deliveries || record.event !in t.events then InsertFailed
      else Replayed
  }

  /** In a reachable state a replay succeeds exactly when the protocol's atomic replay step is
      enabled for the caller's own letter. */
  lemma {:induction false} ReplayIsAtomicStep(c: Config, run: Run, letter: Id, tenant: Id, d: Id, at: Time)
    requires Possible(c, run)
    ensures var s := Final(c, run);
      ReplayVerdict(s.t, letter, tenant, d).Replayed? <==>
        Enabled(s, ReplayAtomic(letter, d, at)) && s.t.deadLetters[letter].tenant == tenant
  {
    RunsAgree(c, run);
  }
}
