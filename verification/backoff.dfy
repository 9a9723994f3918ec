/** Backing off is waiting: nobody touches a pending row before it is due, so a retried row keeps out
    of every claim for the whole back-off. */
module Backoff {
  import opened Options
  import opened Schema
  import opened ClaimSelection
  import opened Protocol
  import opened RowAgreement
  import opened Leases

  lemma StepKeepsWaitingRow(c: Config, s: State, step: Step, d: Id)
    requires Enabled(s, step) && LeaseInvariant(c, s) && InLease(c, s, step) && OwnAck(s, step)
    requires d in s.t.deliveries && s.t.deliveries[d].status == Pending && s.now < s.t.deliveries[d].scheduledAt
    ensures d in Next(c, s, step).t.deliveries && Next(c, s, step).t.deliveries[d] == s.t.deliveries[d]
  {
    if IsWrite(step) {
      LeasedWrite(c, s, step);
    } else {
      OtherStepKeepsWaitingRow(c, s, step, d);
    }
  }

  lemma OtherStepKeepsWaitingRow(c: Config, s: State, step: Step, d: Id)
    requires Enabled(s, step) && !IsWrite(step)
    requires d in s.t.deliveries && s.t.deliveries[d].status == Pending && s.now < s.t.deliveries[d].scheduledAt
    ensures d in Next(c, s, step).t.deliveries && Next(c, s, step).t.deliveries[d] == s.t.deliveries[d]
  {
    assert step.Claim? ==> d !in step.rows;
  }

  lemma ClockRuns(c: Config, s: State, step: Step)
    requires Enabled(s, step)
    ensures s.now <= Next(c, s, step).now
  {
  }

  /** Under H1 and H2 a pending row stays exactly as it is until the clock reaches its schedule. */
  lemma {:induction false} PendingRowWaits(c: Config, run: Run, later: Run, d: Id)
    requires Continues(run, later) && Possible(c, later) && Leased(c, later) && Possible(c, run)
    requires d in Final(c, run).t.deliveries && Final(c, run).t.deliveries[d].status == Pending
    requires Final(c, later).now < Final(c, run).t.deliveries[d].scheduledAt
    ensures d in Final(c, later).t.deliveries && Final(c, later).t.deliveries[d] == Final(c, run).t.deliveries[d]
  {
    if later != run {
      ClockRuns(c, Final(c, later.prev), later.step);
      PendingRowWaits(c, run, later.prev, d);
      LeasesHold(c, later.prev);
      StepKeepsWaitingRow(c, Final(c, later.prev), later.step, d);
    }
  }

  /** A row that is not due is in no claim, whatever its scope, limit and locks. */
  ghost predicate KeptOut(t: Tables, now: Time, d: Id) {
    forall scope, locked, limit, rows :: ClaimAllowed(t, scope, locked, now, limit, rows) ==> d !in rows
  }

  lemma NotDueKeptOut(t: Tables, now: Time, d: Id)
    requires d in t.deliveries && now < t.deliveries[d].scheduledAt
    ensures KeptOut(t, now, d)
  {
    forall scope, locked, limit, rows | ClaimAllowed(t, scope, locked, now, limit, rows) ensures d !in rows {
      assert !Claimable(t, scope, locked, now, d);
    }
  }

  /** What a leased retry leaves: the row is due again exactly `wait` after the write. */
  ghost predicate DueAgain(s: State, u: State, d: Id, wait: int) {
    && d in s.t.deliveries && d in u.t.deliveries
    && u.t.deliveries[d] == s.t.deliveries[d].(status := Pending, scheduledAt := s.now + wait,
                                                retryCount := s.t.deliveries[d].retryCount + 1)
  }

  lemma WorkerRetryDueAgain(c: Config, s: State, h: Hold, o: Outcome, letter: Id)
    requires Enabled(s, Close(h, o, letter)) && Retryable(o) && h.attempt < c.workerAttempts
    requires h.delivery in s.t.deliveries
    ensures DueAgain(s, Next(c, s, Close(h, o, letter)), h.delivery, c.workerBaseDelay * Pow2(h.attempt))
  {
  }

  lemma ApiRetryDueAgain(c: Config, s: State, e: Id, d: Id, holder: Option<Hold>, letter: Id)
    requires Enabled(s, AckAtomic(e, d, holder, false, letter)) && s.t.deliveries[d].retryCount < c.apiAttempts
    ensures DueAgain(s, Next(c, s, AckAtomic(e, d, holder, false, letter)), d,
              c.apiBaseDelay * Pow2(s.t.deliveries[d].retryCount))
  {
  }

  /** After a worker's retryable failure on attempt `a`, the row is left alone, and out of every claim,
      for `base * 2^a` from the write on, over every continuation under H1 and H2. */
  lemma {:induction false} WorkerBackoffIsWaited(c: Config, run: Run, h: Hold, o: Outcome, letter: Id, later: Run)
    requires Possible(c, Do(run, Close(h, o, letter))) && Retryable(o) && h.attempt < c.workerAttempts
    requires Continues(Do(run, Close(h, o, letter)), later) && Possible(c, later) && Leased(c, later)
    requires Final(c, later).now < Final(c, run).now + c.workerBaseDelay * Pow2(h.attempt)
    ensures DueAgain(Final(c, run), Final(c, later), h.delivery, c.workerBaseDelay * Pow2(h.attempt))
    ensures KeptOut(Final(c, later).t, Final(c, later).now, h.delivery)
  {
    RunsAgree(c, run);
    WorkerRetryDueAgain(c, Final(c, run), h, o, letter);
    PendingRowWaits(c, Do(run, Close(h, o, letter)), later, h.delivery);
    NotDueKeptOut(Final(c, later).t, Final(c, later).now, h.delivery);
  }

  /** The same for a failure that a consumer acknowledges, on the row's own retry count. */
  lemma {:induction false} ApiBackoffIsWaited(c: Config, run: Run, e: Id, d: Id, holder: Option<Hold>, letter: Id,
                                              later: Run)
    requires var ack := Do(run, AckAtomic(e, d, holder, false, letter));
      Possible(c, ack) && Continues(ack, later) && Possible(c, later) && Leased(c, later)
    requires Final(c, run).t.deliveries[d].retryCount < c.apiAttempts
    requires Final(c, later).now < Final(c, run).now + c.apiBaseDelay * Pow2(Final(c, run).t.deliveries[d].retryCount)
    ensures DueAgain(Final(c, run), Final(c, later), d,
              c.apiBaseDelay * Pow2(Final(c, run).t.deliveries[d].retryCount))
    ensures KeptOut(Final(c, later).t, Final(c, later).now, d)
  {
    ApiRetryDueAgain(c, Final(c, run), e, d, holder, letter);
    PendingRowWaits(c, Do(run, AckAtomic(e, d, holder, false, letter)), later, d);
    NotDueKeptOut(Final(c, later).t, Final(c, later).now, d);
  }
}
