/** Leases: under H1 and H2, for any number of workers, pullers and reapers. */
module Leases {
  import opened Options
  import opened Schema
  import opened ClaimSelection
  import opened Protocol
  import opened RowAgreement

  /** A live hold still describes its row. */
  predicate Held(t: Tables, h: Hold) {
    && h.delivery in t.deliveries
    && var row := t.deliveries[h.delivery];
    && row.status == Processing && row.startedAt == Some(h.at) && row.retryCount == h.attempt
  }

  ghost predicate LiveHold(c: Config, s: State, h: Hold) {
    h in s.holds && Live(c, s.now, h)
  }

  /** Each live holder's row is `processing` under the holder's own claim, and no row has two. */
  ghost predicate LeasesExclusive(c: Config, s: State) {
    && (forall h :: LiveHold(c, s, h) ==> Held(s.t, h))
    && (forall h, k :: LiveHold(c, s, h) && LiveHold(c, s, k) && h.delivery == k.delivery ==> h == k)
  }

  /** A row that a reaper must be able to find carries the time it was claimed at. */
  ghost predicate TakenRowsStarted(t: Tables) {
    forall d :: d in t.deliveries && (t.deliveries[d].status == Processing || t.deliveries[d].status == AwaitingAck) ==>
      t.deliveries[d].startedAt.Some?
  }

  ghost predicate LeaseInvariant(c: Config, s: State) {
    LeasesExclusive(c, s) && TakenRowsStarted(s.t)
  }

  ghost predicate Closed(row: Delivery) {
    row.status == Delivered || row.status == Failed
  }

  // ---------------------------------------------------------------- what a leased write touches

  /** Under H1 and H2 a closing write changes a row that is taken, and leaves no live hold on it. */
  lemma LeasedWrite(c: Config, s: State, step: Step)
    requires Enabled(s, step) && IsWrite(step) && LeaseInvariant(c, s)
    requires InLease(c, s, step) && OwnAck(s, step)
    ensures var d := StepWrite(c, s, step).0;
      && d in s.t.deliveries
      && (s.t.deliveries[d].status == Processing || s.t.deliveries[d].status == AwaitingAck)
      && forall h :: LiveHold(c, Next(c, s, step), h) ==> h.delivery != d
  {
    var d := StepWrite(c, s, step).0;
    forall h | LiveHold(c, Next(c, s, step), h) ensures h.delivery != d {
      assert LiveHold(c, s, h);
      if step.Close? { assert LiveHold(c, s, step.h); }
      if step.AckAtomic? && step.holder.Some? { assert LiveHold(c, s, step.holder.value); }
    }
    if step.Close? { assert LiveHold(c, s, step.h); }
  }

  /** Every other step leaves a row that somebody holds live alone. */
  lemma OtherStepsRespectLeases(c: Config, s: State, step: Step, h: Hold)
    requires Enabled(s, step) && !IsWrite(step) && LiveHold(c, s, h) && Held(s.t, h)
    ensures Held(Next(c, s, step).t, h)
  {
  }

  lemma StepKeepsHeld(c: Config, s: State, step: Step, h: Hold)
    requires Enabled(s, step) && LeaseInvariant(c, s) && InLease(c, s, step) && OwnAck(s, step)
    requires LiveHold(c, Next(c, s, step), h)
    ensures Held(Next(c, s, step).t, h)
  {
    if LiveHold(c, s, h) {
      if IsWrite(step) {
        LeasedWrite(c, s, step);
      } else {
        OtherStepsRespectLeases(c, s, step, h);
      }
    }
  }

  lemma StepKeepsExclusion(c: Config, s: State, step: Step, h: Hold, k: Hold)
    requires Enabled(s, step) && LeaseInvariant(c, s) && InLease(c, s, step) && OwnAck(s, step)
    requires LiveHold(c, Next(c, s, step), h) && LiveHold(c, Next(c, s, step), k) && h.delivery == k.delivery
    ensures h == k
  {
    if step.Claim? {
      forall g | LiveHold(c, s, g) ensures g.delivery !in step.rows { assert Held(s.t, g); }
    }
  }

  lemma StepKeepsTakenStarted(c: Config, s: State, step: Step)
    requires Enabled(s, step) && LeaseInvariant(c, s) && InLease(c, s, step) && OwnAck(s, step)
    ensures TakenRowsStarted(Next(c, s, step).t)
  {
    if IsWrite(step) { LeasedWrite(c, s, step); }
  }

  lemma StepKeepsLeases(c: Config, s: State, step: Step)
    requires Enabled(s, step) && LeaseInvariant(c, s) && InLease(c, s, step) && OwnAck(s, step)
    ensures LeaseInvariant(c, Next(c, s, step))
  {
    var u := Next(c, s, step);
    StepKeepsTakenStarted(c, s, step);
    forall h | LiveHold(c, u, h) ensures Held(u.t, h) { StepKeepsHeld(c, s, step, h); }
    forall h, k | LiveHold(c, u, h) && LiveHold(c, u, k) && h.delivery == k.delivery ensures h == k {
      StepKeepsExclusion(c, s, step, h, k);
    }
  }

  /** Lease exclusion over every run under H1 and H2. */
  lemma {:induction false} LeasesHold(c: Config, run: Run)
    requires Possible(c, run) && Leased(c, run)
    ensures LeaseInvariant(c, Final(c, run))
  {
    if run.Do? {
      LeasesHold(c, run.prev);
      StepKeepsLeases(c, Final(c, run.prev), run.step);
    }
  }

  // ---------------------------------------------------------------- absorbing ends

  lemma StepKeepsClosed(c: Config, s: State, step: Step, d: Id)
    requires Enabled(s, step) && LeaseInvariant(c, s) && InLease(c, s, step) && OwnAck(s, step)
    requires d in s.t.deliveries && Closed(s.t.deliveries[d])
    ensures d in Next(c, s, step).t.deliveries && Next(c, s, step).t.deliveries[d] == s.t.deliveries[d]
  {
    if IsWrite(step) { LeasedWrite(c, s, step); }
  }

  /** A row that is `delivered` or `failed` never changes again. */
  lemma {:induction false} ClosedRowsAbsorb(c: Config, run: Run, later: Run, d: Id)
    requires Continues(run, later) && Possible(c, later) && Leased(c, later)
    requires Possible(c, run) && d in Final(c, run).t.deliveries && Closed(Final(c, run).t.deliveries[d])
    ensures d in Final(c, later).t.deliveries
    ensures Final(c, later).t.deliveries[d] == Final(c, run).t.deliveries[d]
  {
    if later != run {
      ClosedRowsAbsorb(c, run, later.prev, d);
      LeasesHold(c, later.prev);
      StepKeepsClosed(c, Final(c, later.prev), later.step, d);
    }
  }

  // ---------------------------------------------------------------- no delivery is lost

  /** The time from which some actor can move the row on: a claim, the stuck reaper, or the
      acknowledge reaper. */
  function WakeUp(c: Config, row: Delivery): Time
    requires row.Open() && (row.status != Pending ==> row.startedAt.Some?)
  {
    match row.status
    case Pending => row.scheduledAt
    case Processing => row.startedAt.value + c.stuckThreshold + 1
    case _ => row.startedAt.value + AckTimeout(c) + 1
  }

  ghost predicate CanMove(c: Config, t: Tables, d: Id, now: Time) {
    || Claimable(t, Everyone, {}, now, d)
    || (d in t.deliveries && Stuck(t.deliveries[d], c.stuckThreshold, now))
    || (d in t.deliveries && AckTimedOut(t.deliveries[d], AckTimeout(c), now))
  }

  /** Under H1 and H2 every open delivery has a wake-up time, and from then on a claim or a
      reaper matches it as long as its row is unchanged. */
  lemma {:induction false} NoDeliveryIsLost(c: Config, run: Run, d: Id, now: Time)
    requires Possible(c, run) && Leased(c, run)
    requires d in Final(c, run).t.deliveries && Final(c, run).t.deliveries[d].Open()
    ensures var row := Final(c, run).t.deliveries[d];
      && (row.status != Pending ==> row.startedAt.Some?)
      && (CanMove(c, Final(c, run).t, d, now) <==> WakeUp(c, row) <= now)
  {
    LeasesHold(c, run);
    RunsAgree(c, run);
  }
}
