/** The plan-limit bound is reached: after all but one event of the plan, `k` calls all check before
    any of them inserts. */
module OvershootWitness {
  import opened Options
  import opened ProduceCalls

  /** A set of numbers from `lo` up to `hi` has at most `hi - lo` of them, and all of them if full. */
  lemma {:induction false} CountBetween(s: set<Id>, lo: nat, hi: nat)
    requires lo <= hi && forall c :: c in s ==> lo <= c < hi
    ensures |s| <= hi - lo
    ensures (forall c: Id :: lo <= c < hi ==> c in s) ==> |s| == hi - lo
    decreases hi
  {
    if lo == hi {
      assert s == {};
    } else {
      CountBetween(s - {hi - 1}, lo, hi - 1);
      assert hi - 1 !in s ==> s - {hi - 1} == s;
    }
  }

  /** Where a stage of the run has got to: calls below `base` have returned, and of the `k` racing
      calls after them `done` have taken the stage's step. Each event carries its call's number. */
  datatype Stage = Beginning | Checking | LookingUp | Inserting

  function Before(stage: Stage): Phase {
    match stage
    case Beginning => Begun
    case Checking => Begun
    case LookingUp => Passed
    case Inserting => Missed
  }

  function Later(stage: Stage, c: Id): Phase {
    match stage
    case Beginning => Begun
    case Checking => Passed
    case LookingUp => Missed
    case Inserting => Inserted(c)
  }

  function StageStep(stage: Stage, c: Id): Step {
    match stage
    case Beginning => Begin(c, 0, None)
    case Checking => CheckLimit(c)
    case LookingUp => LookUp(c)
    case Inserting => Insert(c, c)
  }

  function PhaseOf(stage: Stage, c: Id, base: nat, done: nat): Phase {
    if c < base then Returned(c) else if c < base + done then Later(stage, c) else Before(stage)
  }

  function CallsAt(stage: Stage, base: nat, k: nat, done: nat): nat {
    base + if stage.Beginning? then done else k
  }

  function EventsAt(stage: Stage, base: nat, done: nat): nat {
    base + if stage.Inserting? then done else 0
  }

  ghost predicate Reached(s: State, limits: Id -> nat, stage: Stage, base: nat, k: nat, done: nat) {
    && s.month == 0 && s.limits == limits && s.originals == multiset{}
    && (forall c: Id :: c in s.calls <==> c < CallsAt(stage, base, k, done))
    && (forall e: Id :: e in s.events <==> e < EventsAt(stage, base, done))
    && (forall e :: e in s.events ==> s.events[e] == Stored(0, None, true, 0))
    && (forall c :: c in s.calls ==> s.calls[c] == Call(0, None, PhaseOf(stage, c, base, done)))
  }

  lemma CheckPasses(s: State, limits: Id -> nat, base: nat, k: nat, i: nat)
    requires Reached(s, limits, Checking, base, k, i) && i < k && base < limits(0)
    ensures WithinLimit(|MonthEvents(s, 0)|, 1, limits(0))
  {
    CountBetween(MonthEvents(s, 0), 0, base);
  }

  lemma StageAdvances(s: State, limits: Id -> nat, stage: Stage, base: nat, k: nat, i: nat)
    requires Reached(s, limits, stage, base, k, i) && i < k && base < limits(0)
    ensures Enabled(s, StageStep(stage, base + i))
    ensures Reached(Next(s, StageStep(stage, base + i)), limits, stage, base, k, i + 1)
  {
    match stage
    case Beginning =>
    case Checking => CheckPasses(s, limits, base, k, i);
    case LookingUp =>
    case Inserting =>
  }

  /** A possible run with at most `bound` calls in flight that ends in this stage. */
  ghost predicate Reaches(run: Run, bound: nat, limits: Id -> nat, stage: Stage, base: nat, k: nat, done: nat) {
    Possible(run) && AtMostInFlight(run, 0, bound) && Reached(Final(run), limits, stage, base, k, done)
  }

  lemma FewInFlight(s: State, limits: Id -> nat, stage: Stage, base: nat, k: nat, done: nat)
    requires Reached(s, limits, stage, base, k, done) && done <= k
    ensures |InFlight(s, 0)| <= k
  {
    CountBetween(InFlight(s, 0), base, base + k);
  }

  lemma RunStage(run: Run, bound: nat, limits: Id -> nat, stage: Stage, base: nat, k: nat) returns (later: Run)
    requires Reaches(run, bound, limits, stage, base, k, 0) && base < limits(0) && k <= bound
    ensures Reaches(later, bound, limits, stage, base, k, k)
  {
    later := run;
    for i := 0 to k
      invariant Reaches(later, bound, limits, stage, base, k, i)
    {
      StageAdvances(Final(later), limits, stage, base, k, i);
      later := Do(later, StageStep(stage, base + i));
      FewInFlight(Final(later), limits, stage, base, k, i + 1);
    }
  }

  /** `k` calls begin, all of them pass the check, and then all of them insert. */
  lemma Race(run: Run, bound: nat, limits: Id -> nat, base: nat, k: nat) returns (later: Run)
    requires Reaches(run, bound, limits, Beginning, base, k, 0) && base < limits(0) && k <= bound
    ensures Reaches(later, bound, limits, Inserting, base, k, k)
  {
    later := RunStage(run, bound, limits, Beginning, base, k);
    assert Reaches(later, bound, limits, Checking, base, k, 0);
    later := RunStage(later, bound, limits, Checking, base, k);
    assert Reaches(later, bound, limits, LookingUp, base, k, 0);
    later := RunStage(later, bound, limits, LookingUp, base, k);
    assert Reaches(later, bound, limits, Inserting, base, k, 0);
    later := RunStage(later, bound, limits, Inserting, base, k);
  }

  /** The only racing call returns, without consumers to fan out to. */
  lemma CallReturns(s: State, limits: Id -> nat, base: nat, k: nat)
    requires Reached(s, limits, Inserting, base, 1, 1)
    ensures Enabled(s, FanOut(base, {})) && Reached(Next(s, FanOut(base, {})), limits, Beginning, base + 1, k, 0)
  {
    assert FannedOut(multiset{}, base, {}) == multiset{};
  }

  /** One call after the other, up to all but one event of the plan. */
  lemma UseUp(limits: Id -> nat, k: nat) returns (run: Run)
    requires limits(0) >= 1 && k >= 1
    ensures Reaches(run, k, limits, Beginning, limits(0) - 1, k, 0)
  {
    run := Start(limits);
    FewInFlight(Final(run), limits, Beginning, 0, k, 0);
    for base := 0 to limits(0) - 1
      invariant Reaches(run, k, limits, Beginning, base, k, 0)
    {
      assert Reaches(run, k, limits, Beginning, base, 1, 0);
      run := Race(run, k, limits, base, 1);
      CallReturns(Final(run), limits, base, k);
      run := Do(run, FanOut(base, {}));
      FewInFlight(Final(run), limits, Beginning, base + 1, k, 0);
    }
  }

  /** For every limit that allows anything, and every `k`, the overshoot bound is reached: it
      cannot be improved. */
  lemma {:induction false} OvershootReached(limits: Id -> nat, k: nat) returns (run: Run)
    requires limits(0) >= 1 && k >= 1
    ensures Possible(run) && AtMostInFlight(run, 0, k) && Final(run).limits == limits
    ensures |ApiEvents(Final(run), 0)| == limits(0) + k - 1
  {
    var base := limits(0) - 1;
    run := UseUp(limits, k);
    run := Race(run, k, limits, base, k);
    CountBetween(ApiEvents(Final(run), 0), 0, base + k);
  }
}
