/** What each step of the protocol does to the tables, column by column, for every actor. */
module StepColumns {
  import opened Options
  import opened FiniteSets
  import opened Schema
  import opened Columns
  import opened ClaimSelection
  import opened Protocol

  /** Below the limit `attempts` the row is due again after `base * 2^count`; from it on it is given up. */
  ghost predicate BacksOffOrGivesUp(t: Tables, u: Tables, d: Id, count: nat, attempts: nat, base: nat, letter: Id,
                                    now: Time) {
    && (count < attempts ==> Retried(t, u, d, now + base * Pow2(count)))
    && (count >= attempts ==> DeadLettered(t, u, d, letter, now))
  }

  /** What each outcome of an attempt does to its row. */
  ghost predicate ClosedAs(c: Config, t: Tables, u: Tables, h: Hold, o: Outcome, letter: Id, now: Time) {
    match o
    case NoConsumer => DeadLettered(t, u, h.delivery, letter, now)
    case BadChecksum => DeadLettered(t, u, h.delivery, letter, now)
    case ClientError => DeadLettered(t, u, h.delivery, letter, now)
    case Paused => Released(t, u, h.delivery)
    case NotPush => Released(t, u, h.delivery)
    case Accepted => MarkedAwaiting(t, u, h.delivery)
    case Success => MarkedDelivered(t, u, h.delivery, now)
    case OtherStatus =>
      BacksOffOrGivesUp(t, u, h.delivery, h.attempt, c.workerAttempts, c.workerBaseDelay, letter, now)
    case Exception =>
      BacksOffOrGivesUp(t, u, h.delivery, h.attempt, c.workerAttempts, c.workerBaseDelay, letter, now)
  }

  lemma CloseMeans(c: Config, s: State, h: Hold, o: Outcome, letter: Id)
    requires Enabled(s, Close(h, o, letter))
    ensures var u := Next(c, s, Close(h, o, letter));
      && ClosedAs(c, s.t, u.t, h, o, letter, s.now)
      && u.holds == s.holds - {h}
      && u.unsynced == if o == Success && h.delivery in s.t.deliveries
                       then s.unsynced + multiset{s.t.deliveries[h.delivery].event} else s.unsynced
  {
    WriteMeans(s.t, h.delivery, ClosingWrite(c, h.attempt, o, letter), s.now);
  }

  /** What an acknowledge does to the row `d` when it read the retry count `count`. */
  ghost predicate AckedAs(c: Config, t: Tables, u: Tables, d: Id, count: nat, success: bool, letter: Id, now: Time) {
    && (success ==> MarkedDelivered(t, u, d, now))
    && (!success ==> BacksOffOrGivesUp(t, u, d, count, c.apiAttempts, c.apiBaseDelay, letter, now))
  }

  lemma AckWriteMeans(c: Config, s: State, request: Id, success: bool, letter: Id)
    requires Enabled(s, AckWrite(request, success, letter))
    ensures var a, u := s.acks[request], Next(c, s, AckWrite(request, success, letter));
      AckedAs(c, s.t, u.t, a.delivery, a.retryCount, success, letter, s.now)
  {
    var a := s.acks[request];
    WriteMeans(s.t, a.delivery, AckDecision(c, a.retryCount, success, letter), s.now);
  }

  lemma AckAtomicMeans(c: Config, s: State, e: Id, d: Id, holder: Option<Hold>, success: bool, letter: Id)
    requires Enabled(s, AckAtomic(e, d, holder, success, letter))
    ensures AckedAs(c, s.t, Next(c, s, AckAtomic(e, d, holder, success, letter)).t, d, s.t.deliveries[d].retryCount,
              success, letter, s.now)
  {
    WriteMeans(s.t, d, AckDecision(c, s.t.deliveries[d].retryCount, success, letter), s.now);
  }

  /** The sync step, and the give-up of any actor, leave the event following its deliveries: it stays
      in processing, with its processed time as it was, while one of them is open. */
  lemma SyncStepMeans(c: Config, s: State, e: Id)
    requires Enabled(s, Sync(e))
    ensures Synced(s.t, Next(c, s, Sync(e)).t, e, s.now)
  {
    SyncMeans(s.t, e, s.now);
  }

  lemma GiveUpStepMeans(c: Config, s: State, step: Step)
    requires Enabled(s, step) && IsWrite(step) && StepWrite(c, s, step).1.GiveUp?
    ensures var (d, w) := StepWrite(c, s, step); DeadLettered(s.t, Next(c, s, step).t, d, w.letter, s.now)
  {
    var (d, w) := StepWrite(c, s, step);
    WriteMeans(s.t, d, w, s.now);
  }

  /** The rows that a claim of this scope is for: due ones, and for a pull those of its own consumer
      and tenant. */
  ghost predicate MayTake(t: Tables, scope: Scope, locked: set<Id>, now: Time, d: Id) {
    match scope
    case Everyone => Due(t, locked, now, d)
    case OneConsumer(consumer, tenant) => DueFor(t, consumer, tenant, locked, now, d)
  }

  /** A claim step takes only such rows, and leaves one only if it is full and took none due later. */
  lemma ClaimStepMeans(c: Config, s: State, scope: Scope, limit: nat, locked: set<Id>, rows: seq<Id>)
    requires Enabled(s, Claim(scope, limit, locked, rows))
    ensures |rows| <= limit
    ensures forall d :: d in rows ==> MayTake(s.t, scope, locked, s.now, d)
    ensures forall d :: MayTake(s.t, scope, locked, s.now, d) && d !in rows ==>
      |rows| == limit && forall r :: r in rows ==> s.t.deliveries[r].scheduledAt <= s.t.deliveries[d].scheduledAt
  {
    var due := ClaimableRows(s.t, scope, locked, s.now);
    DistinctCount(rows);
    forall d | MayTake(s.t, scope, locked, s.now, d) && d !in rows
      ensures |rows| == limit && Claimable(s.t, scope, locked, s.now, d)
    {
      assert d in due && Elements(rows) <= due - {d};
      SubsetSize(Elements(rows), due - {d});
    }
  }

  lemma ClaimStepTakes(c: Config, s: State, scope: Scope, limit: nat, locked: set<Id>, rows: seq<Id>)
    requires Enabled(s, Claim(scope, limit, locked, rows))
    ensures var u := Next(c, s, Claim(scope, limit, locked, rows));
      && (forall d :: d in s.t.deliveries ==>
            var row := s.t.deliveries[d];
            d in u.t.deliveries
            && u.t.deliveries[d] == if d in rows then row.(status := Processing, startedAt := Some(s.now)) else row)
      && (forall h :: h in u.holds <==>
            h in s.holds
            || (h.delivery in rows && h.claim == s.claims && h.attempt == s.t.deliveries[h.delivery].retryCount
                && h.at == s.now && h.pull == scope.OneConsumer?))
  {
  }

  lemma ReaperStepsMean(c: Config, s: State)
    ensures AcksReset(s.t, Next(c, s, ResetAcks).t, s.now - c.ackTimeoutHours * 3_600_000, s.now)
    ensures StuckReleased(s.t, Next(c, s, ReleaseStuck).t, s.now - c.stuckThreshold)
  {
  }

  /** A replay inserts one first attempt for the letter's event and consumer and marks the letter;
      done in three steps with nothing between them, it is the same. */
  lemma ReplayStepMeans(c: Config, s: State, request: Id, letter: Id, d: Id, at: Time)
    requires Enabled(s, ReplayAtomic(letter, d, at)) && request !in s.replays
    ensures var l, u := s.t.deadLetters[letter], Next(c, s, ReplayAtomic(letter, d, at)).t;
      && u.deliveries == s.t.deliveries[d := Delivery(l.tenant, l.event, l.consumer, Pending, 0, at, None, None)]
      && u.deadLetters == s.t.deadLetters[letter := l.(replayed := true)]
      && u.events == s.t.events && u.consumers == s.t.consumers
    ensures Enabled(s, ReplayCheck(request, letter))
    ensures var s1 := Next(c, s, ReplayCheck(request, letter));
      && Enabled(s1, ReplayEnqueue(request, d, at))
      && var s2 := Next(c, s1, ReplayEnqueue(request, d, at));
      && Enabled(s2, ReplayMark(request))
      && Next(c, s2, ReplayMark(request)).t == Next(c, s, ReplayAtomic(letter, d, at)).t
  {
  }

  /** An original delivery starts as a first attempt at the given time. */
  lemma EnqueueStepMeans(c: Config, s: State, e: Id, k: Id, d: Id, at: Time)
    requires Enabled(s, EnqueueOriginal(e, k, d, at))
    ensures OnlyRow(s.t, Next(c, s, EnqueueOriginal(e, k, d, at)).t, d,
              Delivery(s.t.events[e].tenant, e, k, Pending, 0, at, None, None))
  {
  }
}
