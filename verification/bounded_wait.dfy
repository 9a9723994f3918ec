/** Bounded wait: how many poll cycles of one worker pass before it claims a due push row. */
module BoundedWait {
  import opened FiniteSets
  import opened Schema
  import opened ClaimSelection
  import opened Protocol
  import opened RowAgreement
  import opened Leases
  import opened Checksum
  import D = DeliveryServices

  /** `deliver` puts the rows of these consumers back with the same `scheduled_at`. */
  predicate Undeliverable(t: Tables, consumer: Id) {
    && consumer in t.consumers
    && var k := t.consumers[consumer];
    && !k.deleted && (!k.active || !k.push || !k.hasUrl)
  }

  /** The outcome agrees with the consumer row that the worker reads. */
  predicate OutcomeFits(t: Tables, consumer: Id, o: Outcome) {
    if consumer !in t.consumers || t.consumers[consumer].deleted then o == NoConsumer
    else
      var k := t.consumers[consumer];
      if !k.active then o == Paused
      else if !k.push || !k.hasUrl then o == NotPush
      else o == BadChecksum || Sent(o)
  }

  /** What an attempt ends in always agrees with the consumer row. */
  lemma OutcomesFit(hash: Hash, t: Tables, delivery: ClaimedEvent, r: D.Response)
    requires delivery.event in t.events
    ensures D.OutcomeOf(hash, t, delivery, r).Some?
    ensures OutcomeFits(t, delivery.consumer, D.OutcomeOf(hash, t, delivery, r).value)
  {
  }

  /** The rows that can be served before time `s` is reached: deliverable, scheduled no later than
      `s`, and pending or still held by somebody. */
  function Backlog(t: Tables, s: Time): set<Id> {
    set d | d in t.deliveries && InBacklog(t, s, d)
  }

  predicate InBacklog(t: Tables, s: Time, d: Id) {
    && d in t.deliveries
    && var row := t.deliveries[d];
    && (row.status == Pending || row.status == Processing)
    && row.scheduledAt <= s && !Undeliverable(t, row.consumer)
  }

  function UndeliverableDue(t: Tables, now: Time): set<Id> {
    set d | d in t.deliveries && Claimable(t, Everyone, {}, now, d) && Undeliverable(t, t.deliveries[d].consumer)
  }

  /** What happens between two polls: no worker claim, but pulls of any consumer's rows; consumers
      keep their settings; whatever enters the queue is scheduled after `s`. */
  ghost predicate QuietStep(st: State, step: Step, s: Time) {
    match step
    case Claim(scope, _, _, _) => scope.OneConsumer?
    case ChangeConsumer(_, _, _, _) => false
    case EnqueueOriginal(_, _, _, at) => at > s
    case ReplayEnqueue(_, _, at) => at > s
    case ReplayAtomic(_, _, at) => at > s
    case ResetAcks => st.now > s
    case Close(h, outcome, _) =>
      h.delivery in st.t.deliveries && OutcomeFits(st.t, st.t.deliveries[h.delivery].consumer, outcome)
    case _ => true
  }

  ghost predicate Quiet(c: Config, from: Run, to: Run, s: Time)
    requires Possible(c, to)
  {
    to == from || (to.Do? && Quiet(c, from, to.prev, s) && QuietStep(Final(c, to.prev), to.step, s))
  }

  /** Delays are positive, as the configuration demands. */
  predicate PositiveDelays(c: Config) {
    c.workerBaseDelay > 0 && c.apiBaseDelay > 0
  }

  lemma {:induction false} PositiveRetryDelay(attempt: nat, base: nat)
    requires base > 0
    ensures RetryDelay(attempt, base) > 0
  {
    if attempt > 0 {
      PositiveRetryDelay(attempt - 1, base);
      assert base * Pow2(attempt) == 2 * (base * Pow2(attempt - 1));
    }
  }

  /** The written row of a deliverable consumer leaves the backlog. */
  lemma WriteLeavesBacklog(c: Config, st: State, step: Step, s: Time)
    requires Enabled(st, step) && IsWrite(step) && LeaseInvariant(c, st) && InLease(c, st, step) && OwnAck(st, step)
    requires QuietStep(st, step, s) && s <= st.now && PositiveDelays(c) && RowsAgree(st.t)
    ensures !InBacklog(Next(c, st, step).t, s, StepWrite(c, st, step).0)
  {
    LeasedWrite(c, st, step);
    var (d, w) := StepWrite(c, st, step);
    var row := st.t.deliveries[d];
    PositiveRetryDelay(row.retryCount, c.workerBaseDelay);
    PositiveRetryDelay(row.retryCount, c.apiBaseDelay);
    if step.Close? { assert LiveHold(c, st, step.h); }
    assert Next(c, st, step).t.consumers == st.t.consumers;
  }

  lemma QuietStepShrinksBacklog(c: Config, st: State, step: Step, s: Time, d: Id)
    requires Enabled(st, step) && LeaseInvariant(c, st) && InLease(c, st, step) && OwnAck(st, step)
    requires QuietStep(st, step, s) && s <= st.now && PositiveDelays(c) && RowsAgree(st.t)
    requires InBacklog(Next(c, st, step).t, s, d)
    ensures InBacklog(st.t, s, d)
  {
    if IsWrite(step) {
      WriteLeavesBacklog(c, st, step, s);
      WriteElsewhere(st.t, StepWrite(c, st, step).0, StepWrite(c, st, step).1, st.now, s, d);
    } else {
      OtherStepShrinksBacklog(c, st, step, s, d);
    }
  }

  lemma WriteElsewhere(t: Tables, written: Id, w: Write, now: Time, s: Time, d: Id)
    requires d != written && InBacklog(Apply(t, written, w, now), s, d)
    ensures InBacklog(t, s, d)
  {
  }

  lemma BulkShrinksBacklog(c: Config, st: State, step: Step, s: Time, d: Id)
    requires Enabled(st, step) && (step.Claim? || step.ResetAcks? || step.ReleaseStuck?) && QuietStep(st, step, s)
    requires InBacklog(Next(c, st, step).t, s, d)
    ensures InBacklog(st.t, s, d)
  {
  }

  lemma OtherStepShrinksBacklog(c: Config, st: State, step: Step, s: Time, d: Id)
    requires Enabled(st, step) && !IsWrite(step) && QuietStep(st, step, s) && RowsAgree(st.t)
    requires InBacklog(Next(c, st, step).t, s, d)
    ensures InBacklog(st.t, s, d)
  {
    if step.Claim? || step.ResetAcks? || step.ReleaseStuck? {
      BulkShrinksBacklog(c, st, step, s, d);
    }
  }

  /** The step is a claim, by a worker or a pull, that takes the row. */
  predicate Takes(step: Step, d: Id) {
    step.Claim? && d in step.rows
  }

  lemma OtherStepKeepsPending(c: Config, st: State, step: Step, s: Time, d: Id)
    requires Enabled(st, step) && !IsWrite(step) && QuietStep(st, step, s) && RowsAgree(st.t)
    requires InBacklog(st.t, s, d) && st.t.deliveries[d].status == Pending && !Takes(step, d)
    ensures d in Next(c, st, step).t.deliveries && Next(c, st, step).t.deliveries[d] == st.t.deliveries[d]
  {
  }

  lemma QuietStepKeepsConsumers(c: Config, st: State, step: Step, s: Time, k: Id)
    requires Enabled(st, step) && QuietStep(st, step, s) && k in st.t.consumers
    ensures k in Next(c, st, step).t.consumers && Next(c, st, step).t.consumers[k] == st.t.consumers[k]
  {
  }

  /** A pending deliverable row stays as it is until somebody claims it. */
  lemma QuietStepKeepsPending(c: Config, st: State, step: Step, s: Time, d: Id)
    requires Enabled(st, step) && LeaseInvariant(c, st) && InLease(c, st, step) && OwnAck(st, step)
    requires QuietStep(st, step, s) && RowsAgree(st.t)
    requires InBacklog(st.t, s, d) && st.t.deliveries[d].status == Pending && !Takes(step, d)
    ensures InBacklog(Next(c, st, step).t, s, d) && Next(c, st, step).t.deliveries[d] == st.t.deliveries[d]
  {
    QuietStepKeepsConsumers(c, st, step, s, st.t.deliveries[d].consumer);
    if IsWrite(step) {
      LeasedWrite(c, st, step);
    } else {
      OtherStepKeepsPending(c, st, step, s, d);
    }
  }

  // ---------------------------------------------------------------- one poll cycle

  function WorkerHold(st: State, d: Id): Hold
    requires d in st.t.deliveries
  {
    Hold(st.claims, d, st.t.deliveries[d].retryCount, st.now, false)
  }

  /** One worker polls with batch size `batch`, skips rows locked by others, and closes every
      claim before it polls again. At most `stuck` due rows are undeliverable when it polls. */
  datatype Cycle = Cycle(before: Run, locked: set<Id>, rows: seq<Id>, after: Run)

  function ClaimedRun(y: Cycle, batch: nat): Run {
    Do(y.before, Claim(Everyone, batch, y.locked, y.rows))
  }

  ghost predicate ValidCycle(c: Config, y: Cycle, batch: nat, stuck: nat, s: Time) {
    && Possible(c, y.after) && Leased(c, y.after)
    && Possible(c, ClaimedRun(y, batch)) && Leased(c, y.before)
    && Quiet(c, ClaimedRun(y, batch), y.after, s)
    && var st := Final(c, y.before);
    && s <= st.now
    && |UndeliverableDue(st.t, st.now)| <= stuck
    && forall d :: d in y.rows && d in st.t.deliveries ==> WorkerHold(st, d) !in Final(c, y.after).holds
  }

  /** Some claim after `from` and up to `to` takes the row. */
  ghost predicate TakenBetween(from: Run, to: Run, d: Id) {
    to != from && to.Do? && (TakenBetween(from, to.prev, d) || Takes(to.step, d))
  }

  /** The row is claimed in this cycle: by its poll, or by a pull before the next one. */
  ghost predicate TakenIn(y: Cycle, batch: nat, d: Id) {
    d in y.rows || TakenBetween(ClaimedRun(y, batch), y.after, d)
  }

  /** Facts that hold at every run between a poll that left the target and the next poll. */
  ghost predicate Between(c: Config, y: Cycle, batch: nat, s: Time, target: Id, run: Run)
    requires Possible(c, ClaimedRun(y, batch)) && Possible(c, run)
  {
    var st, u := Final(c, y.before), Final(c, run);
    && s <= u.now && st.claims < u.claims
    && (forall d :: InBacklog(u.t, s, d) ==> InBacklog(st.t, s, d))
    && (forall d :: d in y.rows && d in st.t.deliveries ==> WorkerHold(st, d) in u.holds || !InBacklog(u.t, s, d))
    && (InBacklog(st.t, s, target) && st.t.deliveries[target].status == Pending ==>
          InBacklog(u.t, s, target) && u.t.deliveries[target] == st.t.deliveries[target])
  }

  lemma ClaimStartsBetween(c: Config, y: Cycle, batch: nat, s: Time, target: Id)
    requires Possible(c, ClaimedRun(y, batch)) && s <= Final(c, y.before).now && target !in y.rows
    ensures Between(c, y, batch, s, target, ClaimedRun(y, batch))
  {
  }

  lemma QuietStepKeepsHold(c: Config, st: State, step: Step, s: Time, h: Hold)
    requires Enabled(st, step) && LeaseInvariant(c, st) && InLease(c, st, step) && OwnAck(st, step)
    requires QuietStep(st, step, s) && s <= st.now && PositiveDelays(c) && RowsAgree(st.t)
    requires h in st.holds && !h.pull
    ensures h in Next(c, st, step).holds || !InBacklog(Next(c, st, step).t, s, h.delivery)
  {
    if step.Close? && step.h == h { WriteLeavesBacklog(c, st, step, s); }
  }

  lemma QuietStepKeepsBetween(c: Config, y: Cycle, batch: nat, s: Time, target: Id, run: Run)
    requires Possible(c, ClaimedRun(y, batch)) && run.Do? && Possible(c, run) && Leased(c, run) && PositiveDelays(c)
    requires Between(c, y, batch, s, target, run.prev) && QuietStep(Final(c, run.prev), run.step, s)
    requires !Takes(run.step, target)
    ensures Between(c, y, batch, s, target, run)
  {
    var st, v, u := Final(c, y.before), Final(c, run.prev), Final(c, run);
    LeasesHold(c, run.prev);
    RunsAgree(c, run.prev);
    forall d | InBacklog(u.t, s, d) ensures InBacklog(v.t, s, d) {
      QuietStepShrinksBacklog(c, v, run.step, s, d);
    }
    forall d | d in y.rows && d in st.t.deliveries && WorkerHold(st, d) in v.holds
      ensures WorkerHold(st, d) in u.holds || !InBacklog(u.t, s, d)
    {
      QuietStepKeepsHold(c, v, run.step, s, WorkerHold(st, d));
    }
    if InBacklog(v.t, s, target) && v.t.deliveries[target].status == Pending {
      QuietStepKeepsPending(c, v, run.step, s, target);
    }
  }

  lemma {:induction false} QuietKeepsBetween(c: Config, y: Cycle, batch: nat, s: Time, target: Id, run: Run)
    requires Possible(c, ClaimedRun(y, batch)) && Possible(c, run) && Leased(c, run) && PositiveDelays(c)
    requires s <= Final(c, y.before).now && Quiet(c, ClaimedRun(y, batch), run, s)
    requires target !in y.rows && !TakenBetween(ClaimedRun(y, batch), run, target)
    ensures Between(c, y, batch, s, target, run)
  {
    if run == ClaimedRun(y, batch) {
      ClaimStartsBetween(c, y, batch, s, target);
    } else {
      QuietKeepsBetween(c, y, batch, s, target, run.prev);
      QuietStepKeepsBetween(c, y, batch, s, target, run);
    }
  }

  /** A claim that leaves a due row behind is full, and takes only rows scheduled no later. */
  lemma FullClaim(t: Tables, locked: set<Id>, now: Time, batch: nat, rows: seq<Id>, target: Id)
    requires ClaimAllowed(t, Everyone, locked, now, batch, rows)
    requires Claimable(t, Everyone, locked, now, target) && target !in rows
    ensures |Elements(rows)| == batch
    ensures forall d :: d in rows ==> t.deliveries[d].scheduledAt <= t.deliveries[target].scheduledAt
  {
    DistinctCount(rows);
    var due := ClaimableRows(t, Everyone, locked, now);
    assert target in due && Elements(rows) <= due - {target};
    SubsetSize(Elements(rows), due - {target});
  }

  /** A cycle in which nobody takes the target serves at least `batch - stuck` rows of the backlog. */
  lemma {:induction false} CycleServes(c: Config, y: Cycle, batch: nat, stuck: nat, s: Time, target: Id)
    requires PositiveDelays(c) && stuck < batch && ValidCycle(c, y, batch, stuck, s)
    requires InBacklog(Final(c, y.before).t, s, target) && !TakenIn(y, batch, target) && target !in y.locked
    requires Final(c, y.before).t.deliveries[target].status == Pending
    requires Final(c, y.before).t.deliveries[target].scheduledAt == s
    ensures InBacklog(Final(c, y.after).t, s, target)
    ensures Final(c, y.after).t.deliveries[target] == Final(c, y.before).t.deliveries[target]
    ensures |Backlog(Final(c, y.after).t, s)| + (batch - stuck) <= |Backlog(Final(c, y.before).t, s)|
  {
    var st, u := Final(c, y.before), Final(c, y.after);
    QuietKeepsBetween(c, y, batch, s, target, y.after);
    RunsAgree(c, y.before);
    var served := ClaimServesBacklog(st.t, y.locked, st.now, batch, stuck, y.rows, target);
    assert Backlog(u.t, s) <= Backlog(st.t, s) - served;
    SubsetSize(Backlog(u.t, s), Backlog(st.t, s) - served);
  }

  /** A full claim takes at least `batch - stuck` rows of the backlog. */
  lemma ClaimServesBacklog(t: Tables, locked: set<Id>, now: Time, batch: nat, stuck: nat, rows: seq<Id>, target: Id)
    returns (served: set<Id>)
    requires stuck <= batch && ClaimAllowed(t, Everyone, locked, now, batch, rows)
    requires Claimable(t, Everyone, locked, now, target) && target !in rows
    requires |UndeliverableDue(t, now)| <= stuck
    ensures served <= Elements(rows) && served <= Backlog(t, t.deliveries[target].scheduledAt)
    ensures |served| >= batch - stuck
  {
    FullClaim(t, locked, now, batch, rows, target);
    served := Elements(rows) - UndeliverableDue(t, now);
    DifferenceSize(Elements(rows), UndeliverableDue(t, now));
  }

  // ---------------------------------------------------------------- many cycles

  function CeilDiv(a: nat, b: nat): nat
    requires b > 0
  {
    (a + b - 1) / b
  }

  /** Consecutive poll cycles, none of which finds the target locked by another claim. */
  ghost predicate Consecutive(c: Config, cycles: seq<Cycle>, batch: nat, stuck: nat, s: Time, target: Id) {
    && (forall i :: 0 <= i < |cycles| ==> ValidCycle(c, cycles[i], batch, stuck, s) && target !in cycles[i].locked)
    && (forall i :: 0 <= i < |cycles| - 1 ==> cycles[i].after == cycles[i + 1].before)
  }

  ghost predicate TargetWaits(c: Config, run: Run, s: Time, target: Id)
    requires Possible(c, run)
  {
    && InBacklog(Final(c, run).t, s, target)
    && Final(c, run).t.deliveries[target].status == Pending
    && Final(c, run).t.deliveries[target].scheduledAt == s
  }

  /** The target still waits, in a backlog of `size` rows. */
  ghost predicate Waiting(c: Config, run: Run, s: Time, target: Id, size: nat) {
    && Possible(c, run)
    && TargetWaits(c, run, s, target)
    && |Backlog(Final(c, run).t, s)| == size
  }

  lemma {:induction false} CycleShrinks(c: Config, y: Cycle, batch: nat, stuck: nat, s: Time, target: Id,
                                        size: nat) returns (left: nat)
    requires PositiveDelays(c) && stuck < batch && ValidCycle(c, y, batch, stuck, s)
    requires Waiting(c, y.before, s, target, size) && !TakenIn(y, batch, target) && target !in y.locked
    ensures Waiting(c, y.after, s, target, left) && left + (batch - stuck) <= size
  {
    CycleServes(c, y, batch, stuck, s, target);
    left := |Backlog(Final(c, y.after).t, s)|;
  }

  function RunAfter(cycles: seq<Cycle>, n: nat): Run
    requires n <= |cycles| && cycles != []
  {
    if n == 0 then cycles[0].before else cycles[n - 1].after
  }

  /** What is left of the backlog after `n` cycles that leave the target behind. */
  lemma {:induction false} BacklogAfter(c: Config, cycles: seq<Cycle>, batch: nat, stuck: nat, s: Time, target: Id,
                                        size: nat, n: nat) returns (left: nat)
    requires PositiveDelays(c) && stuck < batch && cycles != [] && n <= |cycles|
    requires Consecutive(c, cycles, batch, stuck, s, target)
    requires Waiting(c, cycles[0].before, s, target, size)
    requires forall i :: 0 <= i < |cycles| ==> !TakenIn(cycles[i], batch, target)
    ensures Waiting(c, RunAfter(cycles, n), s, target, left)
    ensures left + Share(n, batch - stuck) <= size
  {
    left := size;
    if n > 0 {
      var y := cycles[n - 1];
      var before := BacklogAfter(c, cycles, batch, stuck, s, target, size, n - 1);
      assert y.before == RunAfter(cycles, n - 1);
      left := CycleShrinks(c, y, batch, stuck, s, target, before);
    }
  }

  /** Each cycle that leaves the target behind takes its share off the backlog, which still has
      the target in it. */
  lemma {:induction false} BacklogFalls(c: Config, cycles: seq<Cycle>, batch: nat, stuck: nat, s: Time, target: Id,
                                        size: nat)
    requires PositiveDelays(c) && stuck < batch && cycles != []
    requires Consecutive(c, cycles, batch, stuck, s, target)
    requires Waiting(c, cycles[0].before, s, target, size)
    requires forall i :: 0 <= i < |cycles| ==> !TakenIn(cycles[i], batch, target)
    ensures Share(|cycles|, batch - stuck) < size
  {
    var left := BacklogAfter(c, cycles, batch, stuck, s, target, size, |cycles|);
    WaitingCounts(c, RunAfter(cycles, |cycles|), s, target, left);
  }

  function Share(n: nat, gain: nat): nat {
    if n == 0 then 0 else Share(n - 1, gain) + gain
  }

  lemma WaitingCounts(c: Config, run: Run, s: Time, target: Id, size: nat)
    requires Waiting(c, run, s, target, size)
    ensures size > 0
  {
    assert target in Backlog(Final(c, run).t, s);
  }

  ghost predicate TakenBySome(cycles: seq<Cycle>, batch: nat, target: Id) {
    exists i :: 0 <= i < |cycles| && TakenIn(cycles[i], batch, target)
  }

  lemma {:induction false} UnclaimedMeansFewCycles(c: Config, cycles: seq<Cycle>, batch: nat, stuck: nat, s: Time,
                                                   target: Id, size: nat)
    requires PositiveDelays(c) && stuck < batch && cycles != []
    requires Consecutive(c, cycles, batch, stuck, s, target)
    requires Waiting(c, cycles[0].before, s, target, size)
    requires !TakenBySome(cycles, batch, target)
    ensures |cycles| < CeilDiv(size, batch - stuck)
  {
    BacklogFalls(c, cycles, batch, stuck, s, target, size);
    ShareBelow(|cycles|, batch - stuck, size);
  }

  /** A due deliverable row is claimed within `ceil(|backlog| / (batch - stuck))` poll cycles: by a
      poll, or by a pull that comes first. */
  lemma {:induction false} ClaimedWithinBound(c: Config, cycles: seq<Cycle>, batch: nat, stuck: nat, s: Time,
                                              target: Id, size: nat)
    requires PositiveDelays(c) && stuck < batch && cycles != []
    requires Consecutive(c, cycles, batch, stuck, s, target)
    requires Waiting(c, cycles[0].before, s, target, size)
    requires |cycles| >= CeilDiv(size, batch - stuck)
    ensures TakenBySome(cycles, batch, target)
  {
    if !TakenBySome(cycles, batch, target) {
      UnclaimedMeansFewCycles(c, cycles, batch, stuck, s, target, size);
    }
  }

  /** The deliverable pending rows scheduled no later than `s`. */
  function PendingBacklog(t: Tables, s: Time): set<Id> {
    set d | d in t.deliveries && InBacklog(t, s, d) && t.deliveries[d].status == Pending
  }

  /** When nobody holds a deliverable row at the first poll, the bound counts pending rows only. */
  lemma {:induction false} ClaimedWithinPendingBound(c: Config, cycles: seq<Cycle>, batch: nat, stuck: nat, s: Time,
                                                     target: Id)
    requires PositiveDelays(c) && stuck < batch && cycles != []
    requires Consecutive(c, cycles, batch, stuck, s, target)
    requires Possible(c, cycles[0].before) && TargetWaits(c, cycles[0].before, s, target)
    requires var t := Final(c, cycles[0].before).t;
      && (forall d :: InBacklog(t, s, d) ==> t.deliveries[d].status == Pending)
      && |cycles| >= CeilDiv(|PendingBacklog(t, s)|, batch - stuck)
    ensures TakenBySome(cycles, batch, target)
  {
    var t := Final(c, cycles[0].before).t;
    assert Backlog(t, s) == PendingBacklog(t, s);
    ClaimedWithinBound(c, cycles, batch, stuck, s, target, |Backlog(t, s)|);
  }

  lemma {:induction false} ShareIsProduct(n: nat, gain: nat)
    ensures Share(n, gain) == n * gain
  {
    if n > 0 {
      ShareIsProduct(n - 1, gain);
      assert n * gain == (n - 1) * gain + gain;
    }
  }

  lemma ShareBelow(n: nat, gain: nat, size: nat)
    requires gain > 0 && Share(n, gain) < size
    ensures n < CeilDiv(size, gain)
  {
    ShareIsProduct(n, gain);
    if n >= CeilDiv(size, gain) { CeilBound(size, gain, n); }
  }

  lemma CeilBound(a: nat, b: nat, n: nat)
    requires b > 0 && n >= CeilDiv(a, b)
    ensures n * b >= a
  {
    var q := CeilDiv(a, b);
    assert q * b >= a;
    assert n * b >= q * b;
  }
}
