/** The worker's delivery side: the retry service and the delivery service, on the database and
    the metrics that they update in place. An HTTP exchange is a parameter. */
module DeliveryServices {
  import opened Options
  import opened Json
  import opened CanonicalEquality
  import opened Checksum
  import opened Schema
  import opened Columns
  import opened ClaimSelection
  import opened QueueEngine
  import opened Protocol
  import M = Metrics

  /** What `fetch` and reading the body ended in. */
  datatype Response = Throws | Answered(status: int, durationMs: nat)

  /** A consumer as `findById` sees it: soft-deleted rows are not there. */
  predicate ConsumerFound(t: Tables, c: Id) {
    c in t.consumers && !t.consumers[c].deleted
  }

  function OutcomeOfResponse(r: Response): Outcome {
    match r
    case Throws => Exception
    case Answered(status, _) =>
      if status == 202 then Accepted
      else if 200 <= status < 300 then Success
      else if 400 <= status < 500 then ClientError
      else OtherStatus
  }

  /** What a delivery attempt ends in; None when the event is gone and nothing is written. */
  function OutcomeOf(hash: Hash, t: Tables, delivery: ClaimedEvent, r: Response): Option<Outcome> {
    if delivery.event !in t.events then None
    else if !ConsumerFound(t, delivery.consumer) then Some(NoConsumer)
    else
      var e, k := t.events[delivery.event], t.consumers[delivery.consumer];
      Some(
        if !k.active then Paused
        else if !k.push || !k.hasUrl then NotPush
        else if !ChecksumMatches(hash, e.payload, e.checksum) then BadChecksum
        else OutcomeOfResponse(r))
  }

  /** The tables after an attempt with nothing else going on. */
  function AfterAttempt(c: Config, t: Tables, delivery: ClaimedEvent, o: Option<Outcome>, letter: Id,
                        now: Time): Tables {
    if o.None? then t
    else
      var w := ClosingWrite(c, delivery.attempt, o.value, letter);
      if w.Deliver? then Acknowledged(t, delivery.id, now) else Apply(t, delivery.id, w, now)
  }

  /** What an attempt records with the metrics. */
  function RecordsOf(c: Config, delivery: ClaimedEvent, o: Option<Outcome>, r: Response): seq<M.Record> {
    match o
    case Some(Success) => if r.Answered? then [M.SuccessOf(delivery.tenant, r.durationMs)] else []
    case Some(ClientError) => [M.FailureOf(delivery.tenant)]
    case Some(OtherStatus) => if delivery.attempt >= c.workerAttempts then [M.FailureOf(delivery.tenant)] else []
    case Some(Exception) => if delivery.attempt >= c.workerAttempts then [M.FailureOf(delivery.tenant)] else []
    case _ => []
  }

  // ---------------------------------------------------------------- what an attempt does, case by case

  /** Below the configured attempts the row backs off; from them on it is given up and counted. */
  ghost predicate RetriedOrGivenUp(c: Config, t: Tables, u: Tables, m: M.MetricsState, n: M.MetricsState,
                                   delivery: ClaimedEvent, letter: Id, now: Time) {
    && (delivery.attempt < c.workerAttempts ==>
          Retried(t, u, delivery.id, now + c.workerBaseDelay * Pow2(delivery.attempt)) && n == m)
    && (delivery.attempt >= c.workerAttempts ==>
          DeadLettered(t, u, delivery.id, letter, now) && M.FailureAdded(m, n, delivery.tenant))
  }

  /** What each HTTP status does. */
  ghost predicate ResponseHandled(c: Config, t: Tables, u: Tables, m: M.MetricsState, n: M.MetricsState,
                                  delivery: ClaimedEvent, status: int, durationMs: nat, letter: Id, now: Time) {
    && (status == 202 ==> MarkedAwaiting(t, u, delivery.id) && n == m)
    && (200 <= status <= 299 && status != 202 ==>
          Completed(t, u, delivery.id, now) && M.SuccessAdded(m, n, delivery.tenant, durationMs))
    && (400 <= status <= 499 ==> DeadLettered(t, u, delivery.id, letter, now) && M.FailureAdded(m, n, delivery.tenant))
    && (status < 200 || 300 <= status <= 399 || 500 <= status ==>
          RetriedOrGivenUp(c, t, u, m, n, delivery, letter, now))
  }

  /** What an attempt does, by the event, the consumer, the stored checksum and the response. */
  ghost predicate AttemptEnds(c: Config, hash: Hash, t: Tables, u: Tables, m: M.MetricsState, n: M.MetricsState,
                              delivery: ClaimedEvent, r: Response, letter: Id, now: Time) {
    if delivery.event !in t.events then u == t && n == m
    else if delivery.consumer !in t.consumers || t.consumers[delivery.consumer].deleted then
      DeadLettered(t, u, delivery.id, letter, now) && n == m
    else
      var e, k := t.events[delivery.event], t.consumers[delivery.consumer];
      && (!k.active || !k.push || !k.hasUrl ==> Released(t, u, delivery.id) && n == m)
      && (k.active && k.push && k.hasUrl && hash(CanonicalJson(e.payload)) != e.checksum ==>
            DeadLettered(t, u, delivery.id, letter, now) && n == m)
      && (k.active && k.push && k.hasUrl && hash(CanonicalJson(e.payload)) == e.checksum ==>
            if r.Throws? then RetriedOrGivenUp(c, t, u, m, n, delivery, letter, now)
            else ResponseHandled(c, t, u, m, n, delivery, r.status, r.durationMs, letter, now))
  }

  class RetryService {
    const queue: PostgresQueueEngine
    const metrics: M.MetricsService
    const config: Config

    constructor (queue: PostgresQueueEngine, metrics: M.MetricsService, config: Config)
      ensures this.queue == queue && this.metrics == metrics && this.config == config
    {
      this.queue, this.metrics, this.config := queue, metrics, config;
    }

    method ScheduleRetryOrDeadLetter(delivery: ClaimedEvent, letter: Id)
      modifies queue.db, metrics
      ensures queue.db.now == old(queue.db.now)
      ensures queue.db.Snapshot() ==
        Apply(old(queue.db.Snapshot()), delivery.id, RetryOrDeadLetter(config, delivery.attempt, letter), queue.db.now)
      ensures metrics.State() ==
        if delivery.attempt >= config.workerAttempts
        then M.Recorded(old(metrics.State()), M.FailureOf(delivery.tenant)) else old(metrics.State())
      ensures RetriedOrGivenUp(config, old(queue.db.Snapshot()), queue.db.Snapshot(),
                old(metrics.State()), metrics.State(), delivery, letter, queue.db.now)
    {
      if delivery.attempt >= config.workerAttempts {
        queue.MoveToDeadLetter(delivery.id, letter);
        metrics.RecordFailure(delivery.tenant);
        return;
      }
      queue.ScheduleRetry(delivery.id, RetryDelay(delivery.attempt, config.workerBaseDelay));
    }
  }

  class DeliveryService {
    const queue: PostgresQueueEngine
    const metrics: M.MetricsService
    const retry: RetryService
    const config: Config
    const hash: Hash

    constructor (queue: PostgresQueueEngine, metrics: M.MetricsService, config: Config, hash: Hash)
      ensures this.queue == queue && this.metrics == metrics && this.config == config && this.hash == hash && Wired()
    {
      this.queue, this.metrics, this.config, this.hash := queue, metrics, config, hash;
      retry := new RetryService(queue, metrics, config);
    }

    ghost predicate Wired() {
      retry.queue == queue && retry.metrics == metrics && retry.config == config
    }

    /** `handleResponse`: the first matching status decides the write. */
    method HandleResponse(status: int, durationMs: nat, delivery: ClaimedEvent, letter: Id)
      requires Wired()
      modifies queue.db, metrics
      ensures queue.db.now == old(queue.db.now)
      ensures var r := Answered(status, durationMs);
        var o := Some(OutcomeOfResponse(r));
        && queue.db.Snapshot() == AfterAttempt(config, old(queue.db.Snapshot()), delivery, o, letter, queue.db.now)
        && metrics.State() == M.RecordedAll(old(metrics.State()), RecordsOf(config, delivery, o, r))
      ensures ResponseHandled(config, old(queue.db.Snapshot()), queue.db.Snapshot(),
                old(metrics.State()), metrics.State(), delivery, status, durationMs, letter, queue.db.now)
    {
      if status == 202 {
        queue.MarkAwaitingAck(delivery.id);
        return;
      }
      if 200 <= status <= 299 {
        queue.Acknowledge(delivery.id);
        metrics.RecordSuccess(delivery.tenant, durationMs);
        return;
      }
      if status >= 400 && status < 500 {
        queue.MoveToDeadLetter(delivery.id, letter);
        metrics.RecordFailure(delivery.tenant);
        return;
      }
      retry.ScheduleRetryOrDeadLetter(delivery, letter);
    }

    /** One attempt: guards in the source's order, then the exchange, then the one closing write
        that its outcome calls for. */
    method Deliver(delivery: ClaimedEvent, response: Response, letter: Id)
      requires Wired()
      modifies queue.db, metrics
      ensures queue.db.now == old(queue.db.now)
      ensures var o := OutcomeOf(hash, old(queue.db.Snapshot()), delivery, response);
        && queue.db.Snapshot() == AfterAttempt(config, old(queue.db.Snapshot()), delivery, o, letter, queue.db.now)
        && metrics.State() == M.RecordedAll(old(metrics.State()), RecordsOf(config, delivery, o, response))
      ensures AttemptEnds(config, hash, old(queue.db.Snapshot()), queue.db.Snapshot(),
                old(metrics.State()), metrics.State(), delivery, response, letter, queue.db.now)
    {
      var db := queue.db;
      if delivery.event !in db.events { return; }
      var event := db.events[delivery.event];
      if !ConsumerFound(db.Snapshot(), delivery.consumer) {
        queue.MoveToDeadLetter(delivery.id, letter);
        return;
      }
      var consumer := db.consumers[delivery.consumer];
      if !consumer.active || !consumer.push || !consumer.hasUrl {
        queue.ReleaseToPending(delivery.id);
        return;
      }
      if !ChecksumMatches(hash, event.payload, event.checksum) {
        queue.MoveToDeadLetter(delivery.id, letter);
        return;
      }
      match response
      case Throws => retry.ScheduleRetryOrDeadLetter(delivery, letter);
      case Answered(status, durationMs) => HandleResponse(status, durationMs, delivery, letter);
    }

    /** One poll: every claimed row is closed by the write of its own outcome, on the attempt it
        was claimed with, and no other row changes. The attempts run one after the other here. */
    method ClaimAndDeliver(limit: nat, scan: seq<Id>, locked: set<Id>, responses: Id -> Response, letters: Id -> Id)
      returns (claimed: seq<ClaimedEvent>)
      requires Wired() && Distinct(scan) && forall d :: d in queue.db.deliveries ==> d in scan
      modifies queue.db, metrics
      ensures queue.db.now == old(queue.db.now)
      ensures Selected(old(queue.db.Snapshot()), Everyone, locked, queue.db.now, limit, claimed)
      ensures ClosedUpTo(config, hash, old(queue.db.Snapshot()), queue.db.Snapshot(), claimed, |claimed|,
                responses, letters, queue.db.now)
      ensures metrics.State() ==
        M.RecordedAll(old(metrics.State()), PollRecords(config, hash, old(queue.db.Snapshot()), claimed, responses))
    {
      ghost var before := queue.db.Snapshot();
      claimed := queue.Claim(limit, scan, locked);
      PollStarts(config, hash, before, claimed, responses, letters, queue.db.now);
      for i := 0 to |claimed|
        invariant queue.db.now == old(queue.db.now)
        invariant ClosedUpTo(config, hash, before, queue.db.Snapshot(), claimed, i, responses, letters, queue.db.now)
        invariant metrics.State() ==
          M.RecordedAll(old(metrics.State()), PollRecords(config, hash, before, claimed[..i], responses))
      {
        var id := claimed[i].id;
        PollAdvances(config, hash, before, queue.db.Snapshot(), claimed, i, responses, letters, queue.db.now);
        Deliver(claimed[i], responses(id), letters(id));
        PollRecordsNext(config, hash, before, claimed, i, responses, old(metrics.State()));
      }
      assert claimed[..|claimed|] == claimed;
    }
  }

  // ---------------------------------------------------------------- what one attempt touches

  function TakenRow(t: Tables, d: Id, now: Time): Delivery
    requires d in t.deliveries
  {
    t.deliveries[d].(status := Processing, startedAt := Some(now))
  }

  /** The claimed row was closed by the write of its attempt's outcome. */
  ghost predicate ClosedBy(c: Config, hash: Hash, before: Tables, after: Tables, delivery: ClaimedEvent, r: Response,
                           letter: Id, now: Time) {
    && delivery.id in before.deliveries && delivery.id in after.deliveries
    && var o := OutcomeOf(hash, before, delivery, r);
    && o.Some?
    && after.deliveries[delivery.id] ==
         WriteRow(TakenRow(before, delivery.id, now), ClosingWrite(c, delivery.attempt, o.value, letter), now)
  }

  /** The consumers, and what a delivery reads of the events, are the same. */
  ghost predicate SamePayloads(t: Tables, u: Tables) {
    && u.consumers == t.consumers && u.events.Keys == t.events.Keys
    && forall e :: e in t.events ==>
         u.events[e].payload == t.events[e].payload && u.events[e].checksum == t.events[e].checksum
  }

  lemma ClaimKeepsPayloads(t: Tables, claimed: seq<ClaimedEvent>, now: Time)
    requires SnapshotsOf(t, claimed)
    ensures Elements(Ids(claimed)) <= t.deliveries.Keys
    ensures SamePayloads(t, ClaimRows(t, Elements(Ids(claimed)), now))
  {
    ClaimedEventIds(t, claimed);
  }

  lemma SyncTouches(t: Tables, e: Id, now: Time)
    ensures SyncEvent(t, e, now).deliveries == t.deliveries && SamePayloads(t, SyncEvent(t, e, now))
  {
  }

  lemma WriteTouches(t: Tables, d: Id, w: Write, now: Time)
    requires d in t.deliveries && t.deliveries[d].event in t.events
    ensures SamePayloads(t, Apply(t, d, w, now))
    ensures Apply(t, d, w, now).deliveries == t.deliveries[d := WriteRow(t.deliveries[d], w, now)]
  {
    var row := t.deliveries[d];
    if w.GiveUp? {
      var record := DeadLetter(row.tenant, d, row.event, row.consumer, t.events[row.event].payload, false);
      var failed := SetRow(t.(deadLetters := t.deadLetters[w.letter := record]), d, WriteRow(row, w, now));
      SyncTouches(failed, row.event, now);
    }
  }

  /** An attempt writes its own row and no other, and leaves what later attempts read alone. */
  lemma AttemptTouches(c: Config, t: Tables, delivery: ClaimedEvent, o: Outcome, letter: Id, now: Time)
    requires delivery.id in t.deliveries && t.deliveries[delivery.id].event in t.events
    ensures var u := AfterAttempt(c, t, delivery, Some(o), letter, now);
      && SamePayloads(t, u)
      && u.deliveries == t.deliveries[delivery.id :=
           WriteRow(t.deliveries[delivery.id], ClosingWrite(c, delivery.attempt, o, letter), now)]
  {
    var w := ClosingWrite(c, delivery.attempt, o, letter);
    WriteTouches(t, delivery.id, w, now);
    SyncTouches(Apply(t, delivery.id, w, now), t.deliveries[delivery.id].event, now);
  }

  lemma AttemptClosesItsRow(c: Config, hash: Hash, before: Tables, t: Tables, delivery: ClaimedEvent, r: Response,
                            letter: Id, now: Time)
    requires SamePayloads(before, t) && delivery.id in before.deliveries && delivery.id in t.deliveries
    requires delivery.event == before.deliveries[delivery.id].event && delivery.event in before.events
    requires t.deliveries[delivery.id] == TakenRow(before, delivery.id, now)
    ensures var u := AfterAttempt(c, t, delivery, OutcomeOf(hash, t, delivery, r), letter, now);
      && OutcomeOf(hash, t, delivery, r) == OutcomeOf(hash, before, delivery, r)
      && SamePayloads(before, u) && ClosedBy(c, hash, before, u, delivery, r, letter, now)
      && u.deliveries == t.deliveries[delivery.id := u.deliveries[delivery.id]]
  {
    assert OutcomeOf(hash, t, delivery, r) == OutcomeOf(hash, before, delivery, r);
    AttemptTouches(c, t, delivery, OutcomeOf(hash, t, delivery, r).value, letter, now);
  }

  /** What one poll records, attempt by attempt. */
  ghost function PollRecords(c: Config, hash: Hash, t: Tables, claimed: seq<ClaimedEvent>, responses: Id -> Response)
    : seq<M.Record>
  {
    if claimed == [] then [] else
      var init, last := claimed[..|claimed| - 1], claimed[|claimed| - 1];
      PollRecords(c, hash, t, init, responses)
      + RecordsOf(c, last, OutcomeOf(hash, t, last, responses(last.id)), responses(last.id))
  }

  lemma PollRecordsNext(c: Config, hash: Hash, t: Tables, claimed: seq<ClaimedEvent>, i: nat, responses: Id -> Response,
                        m: M.MetricsState)
    requires i < |claimed|
    ensures var r := responses(claimed[i].id);
      M.RecordedAll(m, PollRecords(c, hash, t, claimed[..i + 1], responses)) ==
      M.RecordedAll(M.RecordedAll(m, PollRecords(c, hash, t, claimed[..i], responses)),
                    RecordsOf(c, claimed[i], OutcomeOf(hash, t, claimed[i], r), r))
  {
    assert claimed[..i + 1][..i] == claimed[..i];
    var r := responses(claimed[i].id);
    M.RecordedAllConcat(m, PollRecords(c, hash, t, claimed[..i], responses),
                        RecordsOf(c, claimed[i], OutcomeOf(hash, t, claimed[i], r), r));
  }

  /** The first `n` claimed rows are closed, the others still taken; no other row has changed. */
  ghost predicate ClosedUpTo(c: Config, hash: Hash, before: Tables, t: Tables, claimed: seq<ClaimedEvent>, n: nat,
                             responses: Id -> Response, letters: Id -> Id, now: Time)
    requires n <= |claimed|
  {
    && SamePayloads(before, t)
    && (forall d :: d in before.deliveries && d !in Ids(claimed) ==>
          d in t.deliveries && t.deliveries[d] == before.deliveries[d])
    && (forall j :: n <= j < |claimed| ==> StillTaken(before, t, claimed[j].id, now))
    && (forall j :: 0 <= j < n ==>
          ClosedBy(c, hash, before, t, claimed[j], responses(claimed[j].id), letters(claimed[j].id), now))
  }

  ghost predicate StillTaken(before: Tables, t: Tables, d: Id, now: Time) {
    d in before.deliveries && d in t.deliveries && t.deliveries[d] == TakenRow(before, d, now)
  }

  lemma PollStarts(c: Config, hash: Hash, t: Tables, claimed: seq<ClaimedEvent>, responses: Id -> Response,
                   letters: Id -> Id, now: Time)
    requires SnapshotsOf(t, claimed)
    ensures Elements(Ids(claimed)) <= t.deliveries.Keys
    ensures ClosedUpTo(c, hash, t, ClaimRows(t, Elements(Ids(claimed)), now), claimed, 0, responses, letters, now)
  {
    ClaimKeepsPayloads(t, claimed, now);
    var u := ClaimRows(t, Elements(Ids(claimed)), now);
    forall j | 0 <= j < |claimed| ensures StillTaken(t, u, claimed[j].id, now) {
      assert Ids(claimed)[j] in Elements(Ids(claimed));
    }
  }

  /** Closing the next row keeps the rows before it closed and the rows after it taken. */
  lemma OneMoreClosed(c: Config, hash: Hash, before: Tables, t: Tables, u: Tables, claimed: seq<ClaimedEvent>, i: nat,
                      responses: Id -> Response, letters: Id -> Id, now: Time)
    requires i < |claimed| && Distinct(Ids(claimed))
    requires ClosedUpTo(c, hash, before, t, claimed, i, responses, letters, now)
    requires claimed[i].id in u.deliveries
    requires u.deliveries == t.deliveries[claimed[i].id := u.deliveries[claimed[i].id]] && SamePayloads(before, u)
    requires ClosedBy(c, hash, before, u, claimed[i], responses(claimed[i].id), letters(claimed[i].id), now)
    ensures ClosedUpTo(c, hash, before, u, claimed, i + 1, responses, letters, now)
  {
    var ids := Ids(claimed);
    assert ids[i] == claimed[i].id;
    forall j | i < j < |claimed| ensures StillTaken(before, u, claimed[j].id, now) {
      assert StillTaken(before, t, claimed[j].id, now) && ids[j] != ids[i];
    }
    forall j | 0 <= j < i
      ensures ClosedBy(c, hash, before, u, claimed[j], responses(claimed[j].id), letters(claimed[j].id), now)
    {
      assert ids[j] != ids[i];
    }
  }

  lemma PollAdvances(c: Config, hash: Hash, before: Tables, t: Tables, claimed: seq<ClaimedEvent>, i: nat,
                     responses: Id -> Response, letters: Id -> Id, now: Time)
    requires i < |claimed| && SnapshotsOf(before, claimed) && Distinct(Ids(claimed))
    requires ClosedUpTo(c, hash, before, t, claimed, i, responses, letters, now)
    ensures var r, letter := responses(claimed[i].id), letters(claimed[i].id);
      var u := AfterAttempt(c, t, claimed[i], OutcomeOf(hash, t, claimed[i], r), letter, now);
      && OutcomeOf(hash, t, claimed[i], r) == OutcomeOf(hash, before, claimed[i], r)
      && ClosedUpTo(c, hash, before, u, claimed, i + 1, responses, letters, now)
  {
    var r, letter := responses(claimed[i].id), letters(claimed[i].id);
    var u := AfterAttempt(c, t, claimed[i], OutcomeOf(hash, t, claimed[i], r), letter, now);
    assert StillTaken(before, t, claimed[i].id, now);
    AttemptClosesItsRow(c, hash, before, t, claimed[i], r, letter, now);
    OneMoreClosed(c, hash, before, t, u, claimed, i, responses, letters, now);
  }

  lemma AcknowledgedMeans(t: Tables, d: Id, now: Time)
    ensures Completed(t, Acknowledged(t, d, now), d, now)
  {
    if d in t.deliveries {
      WriteMeans(t, d, Deliver, now);
      SyncMeans(Apply(t, d, Deliver, now), t.deliveries[d].event, now);
    }
  }

  lemma OneRecord(m: M.MetricsState, r: M.Record)
    ensures M.RecordedAll(m, []) == m && M.RecordedAll(m, [r]) == M.Recorded(m, r)
  {
    assert [r][..0] == [];
  }

  lemma RetryOutcomeMeans(c: Config, t: Tables, delivery: ClaimedEvent, o: Outcome, r: Response, letter: Id, now: Time,
                          m: M.MetricsState)
    requires Retryable(o)
    ensures RetriedOrGivenUp(c, t, AfterAttempt(c, t, delivery, Some(o), letter, now),
              m, M.RecordedAll(m, RecordsOf(c, delivery, Some(o), r)), delivery, letter, now)
  {
    OneRecord(m, M.FailureOf(delivery.tenant));
    WriteMeans(t, delivery.id, RetryOrDeadLetter(c, delivery.attempt, letter), now);
  }

  lemma ResponseMeans(c: Config, t: Tables, delivery: ClaimedEvent, status: int, ms: nat, letter: Id, now: Time,
                      m: M.MetricsState)
    ensures var r := Answered(status, ms);
      var o := Some(OutcomeOfResponse(r));
      ResponseHandled(c, t, AfterAttempt(c, t, delivery, o, letter, now),
        m, M.RecordedAll(m, RecordsOf(c, delivery, o, r)), delivery, status, ms, letter, now)
  {
    var r := Answered(status, ms);
    OneRecord(m, M.SuccessOf(delivery.tenant, ms));
    OneRecord(m, M.FailureOf(delivery.tenant));
    match OutcomeOfResponse(r)
    case Success => AcknowledgedMeans(t, delivery.id, now);
    case OtherStatus => RetryOutcomeMeans(c, t, delivery, OtherStatus, r, letter, now, m);
    case o => WriteMeans(t, delivery.id, ClosingWrite(c, delivery.attempt, o, letter), now);
  }

  /** The attempt gets as far as the request. */
  predicate Reaches(hash: Hash, t: Tables, delivery: ClaimedEvent) {
    && delivery.event in t.events && ConsumerFound(t, delivery.consumer)
    && var e, k := t.events[delivery.event], t.consumers[delivery.consumer];
    && k.active && k.push && k.hasUrl && ChecksumMatches(hash, e.payload, e.checksum)
  }

  lemma UnsentMeans(c: Config, hash: Hash, t: Tables, delivery: ClaimedEvent, r: Response, letter: Id, now: Time,
                    m: M.MetricsState)
    requires !Reaches(hash, t, delivery)
    ensures AttemptEnds(c, hash, t, AfterAttempt(c, t, delivery, OutcomeOf(hash, t, delivery, r), letter, now),
              m, m, delivery, r, letter, now)
    ensures RecordsOf(c, delivery, OutcomeOf(hash, t, delivery, r), r) == []
  {
    WriteMeans(t, delivery.id, GiveUp(letter), now);
    WriteMeans(t, delivery.id, Release, now);
  }

  /** The functions that the interleaved attempts and the protocol are stated with do what the
      cases say. */
  lemma AttemptMeans(c: Config, hash: Hash, t: Tables, delivery: ClaimedEvent, r: Response, letter: Id, now: Time,
                     m: M.MetricsState)
    ensures var o := OutcomeOf(hash, t, delivery, r);
      AttemptEnds(c, hash, t, AfterAttempt(c, t, delivery, o, letter, now),
        m, M.RecordedAll(m, RecordsOf(c, delivery, o, r)), delivery, r, letter, now)
  {
    if Reaches(hash, t, delivery) {
      match r
      case Throws => RetryOutcomeMeans(c, t, delivery, Exception, r, letter, now, m);
      case Answered(status, ms) => ResponseMeans(c, t, delivery, status, ms, letter, now, m);
    } else {
      UnsentMeans(c, hash, t, delivery, r, letter, now, m);
      OneRecord(m, M.FailureOf(delivery.tenant));
    }
  }

  // ---------------------------------------------------------------- against the protocol

  /** An uninterrupted attempt is the protocol's closing step, followed by the sync step when the
      row was delivered. */
  lemma AttemptIsClose(c: Config, s: State, h: Hold, delivery: ClaimedEvent, o: Outcome, letter: Id)
    requires Enabled(s, Close(h, o, letter))
    requires delivery.id == h.delivery && delivery.attempt == h.attempt && h.delivery in s.t.deliveries
    ensures var u := Next(c, s, Close(h, o, letter));
      var e := s.t.deliveries[h.delivery].event;
      AfterAttempt(c, s.t, delivery, Some(o), letter, s.now) ==
        if o.Success? then
          assert Enabled(u, Sync(e)); Next(c, u, Sync(e)).t
        else u.t
  {
  }

  /** A failure is recorded exactly when a request was sent and the row is given up; a success
      exactly when the row is delivered. Dead letters for a missing consumer or a bad checksum
      leave the metrics alone. */
  lemma RecordsMatchWrites(c: Config, hash: Hash, t: Tables, delivery: ClaimedEvent, r: Response, letter: Id)
    requires delivery.event in t.events
    ensures var o := OutcomeOf(hash, t, delivery, r).value;
      var w, records := ClosingWrite(c, delivery.attempt, o, letter), RecordsOf(c, delivery, Some(o), r);
      && (w.GiveUp? && Sent(o) <==> records == [M.FailureOf(delivery.tenant)])
      && (w.Deliver? <==> r.Answered? && records == [M.SuccessOf(delivery.tenant, r.durationMs)])
      && (records == [] <==> !w.Deliver? && !(w.GiveUp? && Sent(o)))
  {
  }

  // ---------------------------------------------------------------- integrity of a delivery

  lemma BadChecksumMeansMismatch(hash: Hash, t: Tables, delivery: ClaimedEvent, r: Response)
    requires OutcomeOf(hash, t, delivery, r) == Some(BadChecksum)
    ensures delivery.event in t.events
    ensures !ChecksumMatches(hash, t.events[delivery.event].payload, t.events[delivery.event].checksum)
  {
  }

  /** An event produced through the API is never dead-lettered for its checksum, however the store
      reordered its payload. */
  lemma {:induction false} ProducedEventsPassIntegrity(hash: Hash, payload: Value, stored: Value, t: Tables,
                                                       delivery: ClaimedEvent, r: Response)
    requires Valid(payload) && Valid(stored) && Equiv(payload, stored)
    requires delivery.event in t.events && t.events[delivery.event].payload == stored
    requires t.events[delivery.event].checksum == ApiChecksum(hash, payload)
    ensures OutcomeOf(hash, t, delivery, r) != Some(BadChecksum)
  {
    ApiChecksumSurvivesStorage(hash, payload, stored);
    var checksum := ApiChecksum(hash, payload);
    assert ChecksumMatches(hash, stored, checksum);
    if OutcomeOf(hash, t, delivery, r) == Some(BadChecksum) { BadChecksumMeansMismatch(hash, t, delivery, r); }
  }

  /** A consumer that can receive makes the checksum decide whether a request is sent. */
  lemma ChecksumDecides(c: Config, hash: Hash, t: Tables, delivery: ClaimedEvent, r: Response, letter: Id)
    requires delivery.event in t.events && ConsumerFound(t, delivery.consumer)
    requires var k := t.consumers[delivery.consumer]; k.active && k.push && k.hasUrl
    ensures var e, o := t.events[delivery.event], OutcomeOf(hash, t, delivery, r).value;
      && (ChecksumMatches(hash, e.payload, e.checksum) ==> o == OutcomeOfResponse(r) && Sent(o))
      && (!ChecksumMatches(hash, e.payload, e.checksum) ==>
            !Sent(o) && ClosingWrite(c, delivery.attempt, o, letter) == GiveUp(letter))
  {
  }

  /** An event fired by a schedule, due at a consumer that can receive it, is dead-lettered
      unsent exactly when the schedule's payload is not in canonical key order at every depth. */
  lemma {:induction false} ScheduledEventsDeadLetterIff(c: Config, hash: Hash, payload: Value, t: Tables,
                                                        delivery: ClaimedEvent, r: Response,
                                     letter: Id)
    requires Injective(hash)
    requires delivery.event in t.events && t.events[delivery.event].checksum == ScheduleChecksum(hash, payload)
    requires Valid(payload) && Valid(t.events[delivery.event].payload)
    requires Equiv(payload, t.events[delivery.event].payload)
    requires ConsumerFound(t, delivery.consumer)
    requires var k := t.consumers[delivery.consumer]; k.active && k.push && k.hasUrl
    ensures var o := OutcomeOf(hash, t, delivery, r).value;
      && (ClosingWrite(c, delivery.attempt, o, letter).GiveUp? && !Sent(o) <==> !CanonicalOrder(payload))
      && (CanonicalOrder(payload) ==> o == OutcomeOfResponse(r))
  {
    ScheduleChecksumCondition(hash, payload, t.events[delivery.event].payload);
    ChecksumDecides(c, hash, t, delivery, r, letter);
  }
}
