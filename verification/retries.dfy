/** Retry counts, attempts and back-off delays of one delivery, under H1 and H2. */
module RetryLadder {
  import opened Schema
  import opened ClaimSelection
  import opened Protocol
  import opened RowAgreement
  import opened Leases
  import opened DeadLetters

  // ---------------------------------------------------------------- the general bound

  /** How often the acknowledge reaper has returned the row to `pending`. */
  ghost function AckTimeouts(c: Config, run: Run, d: Id): nat
    requires Possible(c, run)
  {
    match run
    case Start(_) => 0
    case Do(prev, step) =>
      var s := Final(c, prev);
      AckTimeouts(c, prev, d)
      + if step.ResetAcks? && d in s.t.deliveries && AckTimedOut(s.t.deliveries[d], AckTimeout(c), s.now) then 1 else 0
  }

  function Max(a: nat, b: nat): nat { if a < b then b else a }

  lemma StepBoundsRetryCount(c: Config, s: State, step: Step, d: Id, bound: nat)
    requires Enabled(s, step) && LeaseInvariant(c, s) && InLease(c, s, step) && OwnAck(s, step)
    requires bound >= Max(c.workerAttempts, c.apiAttempts)
    requires d in s.t.deliveries ==> s.t.deliveries[d].retryCount <= bound
    requires d in Next(c, s, step).t.deliveries
    ensures var reset := step.ResetAcks? && d in s.t.deliveries && AckTimedOut(s.t.deliveries[d], AckTimeout(c), s.now);
      Next(c, s, step).t.deliveries[d].retryCount <= bound + if reset then 1 else 0
  {
    WritesAddNoRows(c, s, step);
    if IsWrite(step) {
      WriteBoundsRetryCount(c, s, step);
      var (written, w) := StepWrite(c, s, step);
      WriteCountsRetry(s.t, written, w, s.now, d);
    } else {
      OtherStepCountsRetry(c, s, step, d);
    }
  }

  lemma WriteCountsRetry(t: Tables, written: Id, w: Write, now: Time, d: Id)
    requires d in t.deliveries
    ensures d in Apply(t, written, w, now).deliveries
    ensures Apply(t, written, w, now).deliveries[d].retryCount
      == t.deliveries[d].retryCount + if d == written && w.Retry? then 1 else 0
  {
  }

  lemma OtherStepCountsRetry(c: Config, s: State, step: Step, d: Id)
    requires Enabled(s, step) && !IsWrite(step) && d in Next(c, s, step).t.deliveries
    ensures var before := if d in s.t.deliveries then s.t.deliveries[d].retryCount else 0;
      var reset := step.ResetAcks? && d in s.t.deliveries && AckTimedOut(s.t.deliveries[d], AckTimeout(c), s.now);
      Next(c, s, step).t.deliveries[d].retryCount == before + if reset then 1 else 0
  {
  }

  /** A leased write retries only a row whose own count is below a configured limit. */
  lemma WriteBoundsRetryCount(c: Config, s: State, step: Step)
    requires Enabled(s, step) && IsWrite(step) && LeaseInvariant(c, s) && InLease(c, s, step) && OwnAck(s, step)
    ensures var (d, w) := StepWrite(c, s, step);
      d in s.t.deliveries && (w.Retry? ==> s.t.deliveries[d].retryCount < Max(c.workerAttempts, c.apiAttempts))
  {
    if step.Close? { assert LiveHold(c, s, step.h); }
  }

  /** Without acknowledge timeouts no row is retried more often than the larger configured limit. */
  lemma {:induction false} RetryCountBounded(c: Config, run: Run, d: Id)
    requires Possible(c, run) && Leased(c, run) && d in Final(c, run).t.deliveries
    ensures Final(c, run).t.deliveries[d].retryCount
      <= Max(c.workerAttempts, c.apiAttempts) + AckTimeouts(c, run, d)
  {
    var s := Final(c, run.prev);
    LeasesHold(c, run.prev);
    if d in s.t.deliveries { RetryCountBounded(c, run.prev, d); }
    StepBoundsRetryCount(c, s, run.step, d, Max(c.workerAttempts, c.apiAttempts) + AckTimeouts(c, run.prev, d));
  }

  // ---------------------------------------------------------------- one push delivery

  /** HTTP requests answered for a row, how often it then went back to `pending`, the sum of the times
      from those writes to when the row was due again, and whether every request ended in a
      retryable failure. */
  datatype Ledger = Ledger(attempts: nat, retries: nat, delay: int, allRetryable: bool)

  const NO_ATTEMPTS := Ledger(0, 0, 0, true)

  /** The ledger after a step at time `now` that leaves the tables `u`. */
  ghost function LedgerAfter(ledger: Ledger, step: Step, d: Id, u: Tables, now: Time): Ledger {
    if step.Close? && step.h.delivery == d && Sent(step.outcome) then
      var all := ledger.allRetryable && Retryable(step.outcome);
      if d in u.deliveries && u.deliveries[d].status == Pending
      then Ledger(ledger.attempts + 1, ledger.retries + 1, ledger.delay + (u.deliveries[d].scheduledAt - now), all)
      else ledger.(attempts := ledger.attempts + 1, allRetryable := all)
    else ledger
  }

  ghost function LedgerOf(c: Config, run: Run, d: Id): Ledger
    requires Possible(c, run)
  {
    match run
    case Start(_) => NO_ATTEMPTS
    case Do(prev, step) => LedgerAfter(LedgerOf(c, prev, d), step, d, Final(c, run).t, Final(c, prev).now)
  }

  /** The step treats the row as a push delivery whose endpoint answers, or fails to, but never
      with a 202: the worker sends, and nobody acknowledges through the API. */
  ghost predicate PushStep(step: Step, d: Id) {
    && (step.Close? && step.h.delivery == d ==> Sent(step.outcome) && step.outcome != Accepted)
    && (step.AckAtomic? ==> step.d != d)
  }

  ghost predicate PushOnly(run: Run, d: Id) {
    run.Do? ==> PushOnly(run.prev, d) && PushStep(run.step, d)
  }

  ghost predicate OnLadder(c: Config, t: Tables, ledger: Ledger, d: Id) {
    if d !in t.deliveries then ledger == NO_ATTEMPTS
    else
      var row := t.deliveries[d];
      && row.status != AwaitingAck
      && row.retryCount == ledger.retries <= c.workerAttempts
      && ledger.attempts == ledger.retries + (if Closed(row) then 1 else 0)
      && ledger.delay == c.workerBaseDelay * (Pow2(ledger.retries) - 1)
      && (ledger.allRetryable && Closed(row) ==> row.status == Failed && ledger.retries == c.workerAttempts)
  }

  lemma BackoffSum(base: nat, n: nat)
    ensures base * (Pow2(n) - 1) + RetryDelay(n, base) == base * (Pow2(n + 1) - 1)
  {
    assert Pow2(n + 1) == 2 * Pow2(n);
    assert base * (Pow2(n + 1) - 1) == base * (Pow2(n) - 1) + base * Pow2(n);
  }

  lemma CloseClimbs(c: Config, s: State, step: Step, ledger: Ledger, d: Id)
    requires Enabled(s, step) && RowsAgree(s.t) && LeaseInvariant(c, s) && InLease(c, s, step) && PushStep(step, d)
    requires step.Close? && step.h.delivery == d && OnLadder(c, s.t, ledger, d)
    ensures var u := Next(c, s, step).t; OnLadder(c, u, LedgerAfter(ledger, step, d, u, s.now), d)
  {
    assert LiveHold(c, s, step.h);
    BackoffSum(c.workerBaseDelay, ledger.retries);
  }

  ghost predicate SameRung(before: Delivery, after: Delivery) {
    && after.retryCount == before.retryCount && after.status != AwaitingAck
    && Closed(after) == Closed(before) && (Closed(before) ==> after.status == before.status)
  }

  lemma WritesElsewhereKeepRung(t: Tables, written: Id, w: Write, now: Time, d: Id)
    requires d in t.deliveries && d != written && t.deliveries[d].status != AwaitingAck
    ensures d in Apply(t, written, w, now).deliveries
    ensures SameRung(t.deliveries[d], Apply(t, written, w, now).deliveries[d])
  {
  }

  lemma OtherStepsKeepRung(c: Config, s: State, step: Step, d: Id)
    requires Enabled(s, step) && !IsWrite(step) && d in s.t.deliveries && s.t.deliveries[d].status != AwaitingAck
    ensures d in Next(c, s, step).t.deliveries && SameRung(s.t.deliveries[d], Next(c, s, step).t.deliveries[d])
  {
  }

  lemma WritesAddNoRows(c: Config, s: State, step: Step)
    requires Enabled(s, step)
    ensures IsWrite(step) ==> Next(c, s, step).t.deliveries.Keys == s.t.deliveries.Keys
  {
    if IsWrite(step) {
      var (d, w) := StepWrite(c, s, step);
      ApplyKeepsRows(s.t, d, w, s.now);
    }
  }

  lemma ApplyKeepsRows(t: Tables, d: Id, w: Write, now: Time)
    ensures Apply(t, d, w, now).deliveries.Keys == t.deliveries.Keys
  {
  }

  lemma NewRowsStartPending(c: Config, s: State, step: Step, d: Id)
    requires Enabled(s, step) && !IsWrite(step) && d !in s.t.deliveries && d in Next(c, s, step).t.deliveries
    ensures Next(c, s, step).t.deliveries[d].retryCount == 0 && Next(c, s, step).t.deliveries[d].status == Pending
  {
  }

  lemma RungSurvives(c: Config, t: Tables, u: Tables, ledger: Ledger, d: Id)
    requires OnLadder(c, t, ledger, d) && d in t.deliveries && d in u.deliveries
    requires SameRung(t.deliveries[d], u.deliveries[d])
    ensures OnLadder(c, u, ledger, d)
  {
  }

  lemma KnownRowStaysOnLadder(c: Config, s: State, step: Step, ledger: Ledger, d: Id)
    requires Enabled(s, step) && OnLadder(c, s.t, ledger, d) && d in s.t.deliveries
    requires IsWrite(step) ==> StepWrite(c, s, step).0 != d
    ensures OnLadder(c, Next(c, s, step).t, ledger, d)
  {
    if IsWrite(step) {
      var (written, w) := StepWrite(c, s, step);
      WritesElsewhereKeepRung(s.t, written, w, s.now, d);
    } else {
      OtherStepsKeepRung(c, s, step, d);
    }
    RungSurvives(c, s.t, Next(c, s, step).t, ledger, d);
  }

  lemma NewRowStartsLadder(c: Config, s: State, step: Step, ledger: Ledger, d: Id)
    requires Enabled(s, step) && OnLadder(c, s.t, ledger, d) && d !in s.t.deliveries
    ensures OnLadder(c, Next(c, s, step).t, ledger, d)
  {
    WritesAddNoRows(c, s, step);
    if d in Next(c, s, step).t.deliveries {
      NewRowsStartPending(c, s, step, d);
    }
  }

  lemma StepStaysOnLadder(c: Config, s: State, step: Step, ledger: Ledger, d: Id)
    requires Enabled(s, step) && LeaseInvariant(c, s) && InLease(c, s, step) && OwnAck(s, step)
    requires RowsAgree(s.t) && PushStep(step, d) && OnLadder(c, s.t, ledger, d)
    ensures var u := Next(c, s, step).t; OnLadder(c, u, LedgerAfter(ledger, step, d, u, s.now), d)
  {
    if step.Close? && step.h.delivery == d {
      CloseClimbs(c, s, step, ledger, d);
    } else if d in s.t.deliveries {
      KnownRowStaysOnLadder(c, s, step, ledger, d);
    } else {
      NewRowStartsLadder(c, s, step, ledger, d);
    }
  }

  lemma {:induction false} LadderHolds(c: Config, run: Run, d: Id)
    requires Possible(c, run) && Leased(c, run) && PushOnly(run, d)
    ensures OnLadder(c, Final(c, run).t, LedgerOf(c, run, d), d)
  {
    if run.Do? {
      LadderHolds(c, run.prev, d);
      LeasesHold(c, run.prev);
      RunsAgree(c, run.prev);
      StepStaysOnLadder(c, Final(c, run.prev), run.step, LedgerOf(c, run.prev, d), d);
    }
  }

  predicate Exhausted(c: Config, row: Delivery, ledger: Ledger) {
    && row.status == Failed && ledger.retries == c.workerAttempts
    && ledger.delay == c.workerBaseDelay * (Pow2(c.workerAttempts) - 1)
  }

  lemma TopOfLadder(c: Config, t: Tables, ledger: Ledger, d: Id)
    requires OnLadder(c, t, ledger, d) && ledger.allRetryable && d in t.deliveries
    ensures Closed(t.deliveries[d]) <==> ledger.attempts == c.workerAttempts + 1
    ensures Closed(t.deliveries[d]) ==> Exhausted(c, t.deliveries[d], ledger)
  {
  }

  /** If every request fails retryably the row is retried exactly as configured, with delays that
      sum to `base * (2^W - 1)`, and then it has exactly one dead letter. */
  lemma {:induction false} RetriesExhausted(c: Config, run: Run, d: Id)
    requires Possible(c, run) && Leased(c, run) && PushOnly(run, d)
    requires LedgerOf(c, run, d).allRetryable && d in Final(c, run).t.deliveries
    ensures var t, ledger := Final(c, run).t, LedgerOf(c, run, d);
      && (Closed(t.deliveries[d]) <==> ledger.attempts == c.workerAttempts + 1)
      && (Closed(t.deliveries[d]) ==> Exhausted(c, t.deliveries[d], ledger) && OneLetter(t, d))
  {
    var t, ledger := Final(c, run).t, LedgerOf(c, run, d);
    LadderHolds(c, run, d);
    TopOfLadder(c, t, ledger, d);
    DeadLetterBijection(c, run, d);
  }

  // ---------------------------------------------------------------- requests that were sent

  /** How often a claim took the row; each of them sends at most one request. */
  ghost function Claims(run: Run, d: Id): nat {
    match run
    case Start(_) => 0
    case Do(prev, step) => Claims(prev, d) + if step.Claim? && d in step.rows then 1 else 0
  }

  ghost predicate Releases(c: Config, s: State, step: Step, d: Id) {
    step.ReleaseStuck? && d in s.t.deliveries && Stuck(s.t.deliveries[d], c.stuckThreshold, s.now)
  }

  /** How often the stuck reaper has returned the row to `pending`. */
  ghost function StuckReleases(c: Config, run: Run, d: Id): nat
    requires Possible(c, run)
  {
    match run
    case Start(_) => 0
    case Do(prev, step) =>
      StuckReleases(c, prev, d) + if Releases(c, Final(c, prev), step, d) then 1 else 0
  }

  /** Each claim has ended in a counted request or in the reaper's release, or still goes on. */
  ghost predicate ClaimsBalance(t: Tables, claims: nat, attempts: nat, releases: nat, d: Id) {
    claims == attempts + releases + if d in t.deliveries && t.deliveries[d].status == Processing then 1 else 0
  }

  lemma OtherStepBalances(c: Config, s: State, step: Step, d: Id)
    requires Enabled(s, step) && !IsWrite(step)
    ensures var before := d in s.t.deliveries && s.t.deliveries[d].status == Processing;
      var after := d in Next(c, s, step).t.deliveries && Next(c, s, step).t.deliveries[d].status == Processing;
      && (step.Claim? && d in step.rows ==> !before && after)
      && (Releases(c, s, step, d) ==> before && !after)
      && (!(step.Claim? && d in step.rows) && !Releases(c, s, step, d) ==> before == after)
  {
    if step.Claim? && d in step.rows { assert Claimable(s.t, step.scope, step.locked, s.now, d); }
  }

  lemma WriteBalances(c: Config, s: State, step: Step, ledger: Ledger, d: Id)
    requires Enabled(s, step) && IsWrite(step) && LeaseInvariant(c, s) && InLease(c, s, step) && OwnAck(s, step)
    requires RowsAgree(s.t) && PushStep(step, d)
    ensures var before := d in s.t.deliveries && s.t.deliveries[d].status == Processing;
      var after := d in Next(c, s, step).t.deliveries && Next(c, s, step).t.deliveries[d].status == Processing;
      LedgerAfter(ledger, step, d, Next(c, s, step).t, s.now).attempts + (if after then 1 else 0)
        == ledger.attempts + (if before then 1 else 0)
  {
    if step.Close? { assert LiveHold(c, s, step.h); }
  }

  lemma {:induction false} ClaimsBalanced(c: Config, run: Run, d: Id)
    requires Possible(c, run) && Leased(c, run) && PushOnly(run, d)
    ensures ClaimsBalance(Final(c, run).t, Claims(run, d), LedgerOf(c, run, d).attempts, StuckReleases(c, run, d), d)
  {
    if run.Do? {
      var s := Final(c, run.prev);
      ClaimsBalanced(c, run.prev, d);
      LeasesHold(c, run.prev);
      RunsAgree(c, run.prev);
      if IsWrite(run.step) {
        WriteBalances(c, s, run.step, LedgerOf(c, run.prev, d), d);
      } else {
        OtherStepBalances(c, s, run.step, d);
      }
    }
  }

  /** A push delivery is claimed, and so sent, at most once more than the configured retries plus
      the stuck reaper's releases, requests whose holder never wrote included; and it is closed
      when it has been answered once more than the configured retries. */
  lemma {:induction false} PushDeliveryCloses(c: Config, run: Run, d: Id)
    requires Possible(c, run) && Leased(c, run) && PushOnly(run, d) && d in Final(c, run).t.deliveries
    ensures Claims(run, d) <= c.workerAttempts + 1 + StuckReleases(c, run, d)
    ensures LedgerOf(c, run, d).attempts <= c.workerAttempts + 1
    ensures LedgerOf(c, run, d).attempts == c.workerAttempts + 1 <==>
      Closed(Final(c, run).t.deliveries[d]) && LedgerOf(c, run, d).retries == c.workerAttempts
    ensures Claims(run, d) == c.workerAttempts + 1 + StuckReleases(c, run, d) ==>
      Closed(Final(c, run).t.deliveries[d]) || Final(c, run).t.deliveries[d].status == Processing
  {
    ClaimsBalanced(c, run, d);
    LadderHolds(c, run, d);
  }
}
