/** The delivery protocol as a transition system: every actor's SQL statement, or transaction, is
    one step on the tables. A run is a history of steps from an empty database. */
module Protocol {
  import opened Json
  import opened Checksum
  import opened Options
  import opened Schema
  import opened ClaimSelection

  datatype Config = Config(
    stuckThreshold: nat,
    ackTimeoutHours: nat,
    workerAttempts: nat,
    workerBaseDelay: nat,
    apiAttempts: nat,
    apiBaseDelay: nat)

  function AckTimeout(c: Config): nat { c.ackTimeoutHours * MS_PER_HOUR }

  /** A claimed snapshot whose holder has not written yet: a worker's, or a pulling consumer's. */
  datatype Hold = Hold(claim: nat, delivery: Id, attempt: nat, at: Time, pull: bool)

  /** An API acknowledge between its read and its write. */
  datatype PendingAck = PendingAck(delivery: Id, retryCount: nat)

  /** A replay between its check and its insert, or between its insert and its mark. */
  datatype PendingReplay = Checked(letter: Id) | Enqueued(letter: Id)

  datatype State = State(
    now: Time,
    t: Tables,
    claims: nat,
    holds: set<Hold>,
    unsynced: multiset<Id>,
    acks: map<Id, PendingAck>,
    fannedOut: set<Id>,
    fanout: set<(Id, Id)>,
    replays: map<Id, PendingReplay>)

  /** What a worker's delivery attempt ended in. */
  datatype Outcome =
    | NoConsumer | Paused | NotPush | BadChecksum
    | Accepted | Success | ClientError | OtherStatus | Exception

  predicate Retryable(o: Outcome) { o == OtherStatus || o == Exception }

  /** The outcomes of an HTTP request that was sent. */
  predicate Sent(o: Outcome) {
    o == Accepted || o == Success || o == ClientError || Retryable(o)
  }

  datatype Step =
    | Advance(ms: nat)
    | AddConsumer(c: Id, consumer: Consumer)
    | ChangeConsumer(c: Id, hasUrl: bool, active: bool, deleted: bool)
    | InsertEvent(e: Id, tenant: Id, topic: Id, payload: Value, checksum: Digest, key: Option<Id>)
    | ReadConsumers(e: Id, page: set<Id>)
    | EnqueueOriginal(e: Id, c: Id, d: Id, at: Time)
    | Claim(scope: Scope, limit: nat, locked: set<Id>, rows: seq<Id>)
    | Close(h: Hold, outcome: Outcome, letter: Id)
    | Sync(e: Id)
    | AckRead(request: Id, e: Id, d: Id)
    | AckWrite(request: Id, success: bool, letter: Id)
    | AckAtomic(e: Id, d: Id, holder: Option<Hold>, success: bool, letter: Id)
    | ResetAcks
    | ReleaseStuck
    | ReplayCheck(request: Id, letter: Id)
    | ReplayEnqueue(request: Id, d: Id, at: Time)
    | ReplayMark(request: Id)
    | ReplayAtomic(letter: Id, d: Id, at: Time)

  datatype Run = Start(at: Time) | Do(prev: Run, step: Step)

  // ---------------------------------------------------------------- enabling conditions

  predicate Acknowledgeable(t: Tables, e: Id, d: Id) {
    d in t.deliveries && t.deliveries[d].event == e
    && (t.deliveries[d].status == Processing || t.deliveries[d].status == AwaitingAck)
  }

  predicate OnPage(t: Tables, e: Id, c: Id)
    requires e in t.events
  {
    c in t.consumers && t.consumers[c].topic == t.events[e].topic
    && t.consumers[c].tenant == t.events[e].tenant && !t.consumers[c].deleted
  }

  predicate Replayable(t: Tables, letter: Id) {
    letter in t.deadLetters && !t.deadLetters[letter].replayed
    && t.deadLetters[letter].consumer in t.consumers && !t.consumers[t.deadLetters[letter].consumer].deleted
  }

  /** When a step can happen. Identifiers drawn at random are new. */
  ghost predicate Enabled(s: State, step: Step) {
    var t := s.t;
    match step
    case Advance(_) => true
    case AddConsumer(c, _) => c !in t.consumers
    case ChangeConsumer(c, _, _, _) => c in t.consumers
    case InsertEvent(e, _, _, _, _, _) => e !in t.events
    case ReadConsumers(e, page) =>
      e in t.events && e !in s.fannedOut && forall c :: c in page ==> OnPage(t, e, c)
    case EnqueueOriginal(e, c, d, _) =>
      (e, c) in s.fanout && d !in t.deliveries && e in t.events && c in t.consumers
    case Claim(scope, limit, locked, rows) => ClaimAllowed(t, scope, locked, s.now, limit, rows)
    case Close(h, _, letter) => h in s.holds && !h.pull && letter !in t.deadLetters
    case Sync(e) => e in s.unsynced
    case AckRead(request, e, d) => request !in s.acks && Acknowledgeable(t, e, d)
    case AckWrite(request, _, letter) => request in s.acks && letter !in t.deadLetters
    case AckAtomic(e, d, holder, _, letter) =>
      Acknowledgeable(t, e, d) && letter !in t.deadLetters
      && (holder.Some? ==> holder.value in s.holds && holder.value.pull && holder.value.delivery == d)
    case ResetAcks => true
    case ReleaseStuck => true
    case ReplayCheck(request, letter) => request !in s.replays && Replayable(t, letter)
    case ReplayEnqueue(request, d, _) =>
      request in s.replays && s.replays[request].Checked? && d !in t.deliveries
      && s.replays[request].letter in t.deadLetters
    case ReplayMark(request) => request in s.replays && s.replays[request].Enqueued?
    case ReplayAtomic(letter, d, _) => Replayable(t, letter) && d !in t.deliveries
  }

  // ---------------------------------------------------------------- effects

  /** `RetryService.scheduleRetryOrDeadLetter`, on the claimed attempt. */
  function RetryOrDeadLetter(c: Config, attempt: nat, letter: Id): Write {
    if attempt >= c.workerAttempts then GiveUp(letter) else Retry(RetryDelay(attempt, c.workerBaseDelay))
  }

  /** The closing write of `DeliveryService.deliver` and `handleResponse`. */
  function ClosingWrite(c: Config, attempt: nat, outcome: Outcome, letter: Id): Write {
    match outcome
    case NoConsumer => GiveUp(letter)
    case BadChecksum => GiveUp(letter)
    case ClientError => GiveUp(letter)
    case Paused => Release
    case NotPush => Release
    case Accepted => Await
    case Success => Deliver
    case OtherStatus => RetryOrDeadLetter(c, attempt, letter)
    case Exception => RetryOrDeadLetter(c, attempt, letter)
  }

  /** The write of `ConsumerService.acknowledge`, on the retry count it read. */
  function AckDecision(c: Config, retryCount: nat, success: bool, letter: Id): Write {
    if success then Deliver
    else if retryCount >= c.apiAttempts then GiveUp(letter)
    else Retry(RetryDelay(retryCount, c.apiBaseDelay))
  }

  /** One closing write; an acknowledged event still has to be synced. */
  function Written(s: State, d: Id, w: Write): State {
    s.(t := Apply(s.t, d, w, s.now),
       unsynced :=
         if w.Deliver? && d in s.t.deliveries then s.unsynced + multiset{s.t.deliveries[d].event} else s.unsynced)
  }

  function NewHolds(s: State, scope: Scope, rows: seq<Id>): set<Hold>
    requires forall d :: d in rows ==> d in s.t.deliveries
  {
    set d | d in rows :: Hold(s.claims, d, s.t.deliveries[d].retryCount, s.now, scope.OneConsumer?)
  }

  function ReplayRow(t: Tables, letter: Id, d: Id, at: Time): Tables
    requires letter in t.deadLetters
  {
    var record := t.deadLetters[letter];
    SetRow(t, d, NewDelivery(record.tenant, record.event, record.consumer, 0, at))
  }

  ghost function Next(c: Config, s: State, step: Step): State
    requires Enabled(s, step)
  {
    var t := s.t;
    match step
    case Advance(ms) => s.(now := s.now + ms)
    case AddConsumer(id, consumer) => s.(t := t.(consumers := t.consumers[id := consumer]))
    case ChangeConsumer(id, hasUrl, active, deleted) =>
      s.(t := t.(consumers := t.consumers[id :=
        t.consumers[id].(hasUrl := hasUrl, active := active, deleted := deleted)]))
    case InsertEvent(e, tenant, topic, payload, checksum, key) =>
      s.(t := t.(events := t.events[e := Event(tenant, topic, payload, checksum, key, EventPending, None, None)]))
    case ReadConsumers(e, page) =>
      s.(fannedOut := s.fannedOut + {e}, fanout := s.fanout + set id | id in page :: (e, id))
    case EnqueueOriginal(e, id, d, at) =>
      s.(t := SetRow(t, d, NewDelivery(t.events[e].tenant, e, id, 0, at)), fanout := s.fanout - {(e, id)})
    case Claim(scope, limit, locked, rows) =>
      s.(t := ClaimRows(t, Elements(rows), s.now), claims := s.claims + 1,
         holds := s.holds + NewHolds(s, scope, rows))
    case Close(h, outcome, letter) =>
      Written(s.(holds := s.holds - {h}), h.delivery, ClosingWrite(c, h.attempt, outcome, letter))
    case Sync(e) => s.(t := SyncEvent(t, e, s.now), unsynced := s.unsynced - multiset{e})
    case AckRead(request, _, d) => s.(acks := s.acks[request := PendingAck(d, t.deliveries[d].retryCount)])
    case AckWrite(request, success, letter) =>
      var a := s.acks[request];
      Written(s.(acks := s.acks - {request}), a.delivery, AckDecision(c, a.retryCount, success, letter))
    case AckAtomic(_, d, holder, success, letter) =>
      Written(s.(holds := if holder.Some? then s.holds - {holder.value} else s.holds), d,
              AckDecision(c, t.deliveries[d].retryCount, success, letter))
    case ResetAcks => s.(t := ResetTimedOutAcks(t, AckTimeout(c), s.now))
    case ReleaseStuck => s.(t := ReleaseStuckDeliveries(t, c.stuckThreshold, s.now))
    case ReplayCheck(request, letter) => s.(replays := s.replays[request := Checked(letter)])
    case ReplayEnqueue(request, d, at) =>
      var letter := s.replays[request].letter;
      s.(t := ReplayRow(t, letter, d, at), replays := s.replays[request := Enqueued(letter)])
    case ReplayMark(request) =>
      s.(t := MarkReplayed(t, s.replays[request].letter), replays := s.replays - {request})
    case ReplayAtomic(letter, d, at) => s.(t := MarkReplayed(ReplayRow(t, letter, d, at), letter))
  }

  /** The steps that end a claim with one write, and that write. */
  predicate IsWrite(step: Step) {
    step.Close? || step.AckWrite? || step.AckAtomic?
  }

  ghost function StepWrite(c: Config, s: State, step: Step): (r: (Id, Write))
    requires IsWrite(step) && Enabled(s, step)
    ensures r.1.GiveUp? ==> r.1.letter !in s.t.deadLetters
    ensures Next(c, s, step).t == Apply(s.t, r.0, r.1, s.now)
  {
    match step
    case Close(h, outcome, letter) => (h.delivery, ClosingWrite(c, h.attempt, outcome, letter))
    case AckWrite(request, success, letter) =>
      (s.acks[request].delivery, AckDecision(c, s.acks[request].retryCount, success, letter))
    case AckAtomic(_, d, _, success, letter) =>
      (d, AckDecision(c, s.t.deliveries[d].retryCount, success, letter))
  }

  // ---------------------------------------------------------------- runs

  function Initial(at: Time): State {
    State(at, Tables(map[], map[], map[], map[]), 0, {}, multiset{}, map[], {}, {}, map[])
  }

  /** The run is possible: each step was enabled when it happened. */
  ghost predicate Possible(c: Config, run: Run)
    decreases run, 0
  {
    run.Start? || (Possible(c, run.prev) && Enabled(Final(c, run.prev), run.step))
  }

  ghost function Final(c: Config, run: Run): State
    requires Possible(c, run)
    decreases run, 1
  {
    match run
    case Start(at) => Initial(at)
    case Do(prev, step) => Next(c, Final(c, prev), step)
  }

  // ---------------------------------------------------------------- hypotheses

  /** The holder's lease has not run out: no reaper matches its row yet. */
  predicate Live(c: Config, now: Time, h: Hold) {
    now <= h.at + c.stuckThreshold
  }

  /** H1: a holder writes while its lease lasts, or never. */
  ghost predicate InLease(c: Config, s: State, step: Step) {
    match step
    case Close(h, _, _) => Live(c, s.now, h)
    case AckAtomic(_, _, holder, _, _) => holder.Some? ==> Live(c, s.now, holder.value)
    case _ => true
  }

  /** H2: an API acknowledge reads and writes atomically, and the one delivery of the event that
      is processing or awaiting its acknowledge is the caller's: it was handed over by a 202, or
      the caller claimed it. */
  ghost predicate OwnAck(s: State, step: Step) {
    match step
    case AckRead(_, _, _) => false
    case AckWrite(_, _, _) => false
    case AckAtomic(e, d, holder, _, _) =>
      && (forall other :: Acknowledgeable(s.t, e, other) ==> other == d)
      && d in s.t.deliveries
      && (s.t.deliveries[d].status == AwaitingAck || holder.Some?)
    case _ => true
  }

  /** H3: a replay checks, inserts and marks atomically. */
  ghost predicate OwnReplay(step: Step) {
    !step.ReplayCheck? && !step.ReplayEnqueue? && !step.ReplayMark?
  }

  /** A run under H1 and H2. */
  ghost predicate Leased(c: Config, run: Run)
    requires Possible(c, run)
  {
    run.Do? ==>
      Leased(c, run.prev) && InLease(c, Final(c, run.prev), run.step) && OwnAck(Final(c, run.prev), run.step)
  }

  /** A run under H3. */
  ghost predicate AtomicReplays(run: Run) {
    run.Do? ==> AtomicReplays(run.prev) && OwnReplay(run.step)
  }

  /** `later` continues `run`. */
  ghost predicate Continues(run: Run, later: Run) {
    later == run || (later.Do? && Continues(run, later.prev))
  }
}
