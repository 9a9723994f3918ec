/** Concurrent produce calls: the plan-limit check, the idempotency lookup, the insert under the
    partial unique index, and the fan-out are separate steps, and calls interleave freely. */
module ProduceCalls {
  import opened Options
  import opened FiniteSets
  import Schema

  type Id = Schema.Id

  /** Where a produce call is between two awaits. */
  datatype Phase =
    | Begun                    // nothing checked yet
    | Passed                   // within the plan limit
    | Missed                   // no event under its key, or no key
    | Inserted(event: Id)      // its event row is in, fan-out still to come
    | Returned(event: Id)
    | Refused

  datatype Call = Call(tenant: Id, key: Option<Id>, phase: Phase)

  datatype Stored = Stored(tenant: Id, key: Option<Id>, viaApi: bool, month: nat)

  datatype State = State(
    month: nat,
    limits: Id -> nat,
    calls: map<Id, Call>,
    events: map<Id, Stored>,
    originals: multiset<(Id, Id)>)

  datatype Step =
    | Begin(call: Id, tenant: Id, key: Option<Id>)
    | CheckLimit(call: Id)
    | Refuse(call: Id)                          // unknown topic, payload too large
    | LookUp(call: Id)
    | Insert(call: Id, e: Id)
    | FanOut(call: Id, page: set<Id>)
    | ScheduleFires(e: Id, tenant: Id, page: set<Id>)
    | NextMonth

  datatype Run = Start(limits: Id -> nat) | Do(prev: Run, step: Step)

  // ---------------------------------------------------------------- counts

  function MonthEvents(s: State, tenant: Id): set<Id> {
    set e | e in s.events && s.events[e].tenant == tenant && s.events[e].month == s.month
  }

  function ApiEvents(s: State, tenant: Id): set<Id> {
    set e | e in s.events && s.events[e].tenant == tenant && s.events[e].month == s.month && s.events[e].viaApi
  }

  predicate Open(p: Phase) { !p.Returned? && !p.Refused? }

  function InFlight(s: State, tenant: Id): set<Id> {
    set c | c in s.calls && s.calls[c].tenant == tenant && Open(s.calls[c].phase)
  }

  /** Calls that passed the limit check and may still insert. */
  function Pending(s: State, tenant: Id): set<Id> {
    set c | c in s.calls && s.calls[c].tenant == tenant && (s.calls[c].phase == Passed || s.calls[c].phase == Missed)
  }

  /** `UsageService.assertWithinLimit`. */
  predicate WithinLimit(current: nat, incoming: nat, limit: nat) {
    current + incoming <= limit
  }

  function EventsWithKey(s: State, tenant: Id, key: Option<Id>): set<Id> {
    set e | e in s.events && key.Some? && s.events[e].tenant == tenant && s.events[e].key == key
  }

  // ---------------------------------------------------------------- steps

  predicate At(s: State, call: Id, phase: Phase) {
    call in s.calls && s.calls[call].phase == phase
  }

  ghost predicate Enabled(s: State, step: Step) {
    match step
    case Begin(call, _, _) => call !in s.calls
    case CheckLimit(call) => At(s, call, Begun)
    case Refuse(call) => At(s, call, Passed)
    case LookUp(call) => At(s, call, Passed)
    case Insert(call, e) => At(s, call, Missed) && e !in s.events
    case FanOut(call, _) => call in s.calls && s.calls[call].phase.Inserted?
    case ScheduleFires(e, _, _) => e !in s.events
    case NextMonth => true
  }

  function SetPhase(s: State, call: Id, phase: Phase): State
    requires call in s.calls
  {
    s.(calls := s.calls[call := s.calls[call].(phase := phase)])
  }

  /** One original per consumer of the page. */
  function FannedOut(originals: multiset<(Id, Id)>, e: Id, page: set<Id>): multiset<(Id, Id)> {
    originals + multiset(set c | c in page :: (e, c))
  }

  ghost function Next(s: State, step: Step): State
    requires Enabled(s, step)
  {
    match step
    case Begin(call, tenant, key) => s.(calls := s.calls[call := Call(tenant, key, Begun)])
    case CheckLimit(call) =>
      var tenant := s.calls[call].tenant;
      SetPhase(s, call, if WithinLimit(|MonthEvents(s, tenant)|, 1, s.limits(tenant)) then Passed else Refused)
    case Refuse(call) => SetPhase(s, call, Refused)
    case LookUp(call) =>
      var found := EventsWithKey(s, s.calls[call].tenant, s.calls[call].key);
      if found == {} then SetPhase(s, call, Missed) else
        var e :| e in found; SetPhase(s, call, Returned(e))
    case Insert(call, e) =>
      var c := s.calls[call];
      // the partial unique index on (idempotency_key, tenant_id)
      if EventsWithKey(s, c.tenant, c.key) != {} then SetPhase(s, call, Refused)
      else SetPhase(s, call, Inserted(e)).(events := s.events[e := Stored(c.tenant, c.key, true, s.month)])
    case FanOut(call, page) =>
      var e := s.calls[call].phase.event;
      SetPhase(s, call, Returned(e)).(originals := FannedOut(s.originals, e, page))
    case ScheduleFires(e, tenant, page) =>
      s.(events := s.events[e := Stored(tenant, None, false, s.month)],
         originals := FannedOut(s.originals, e, page))
    case NextMonth => s.(month := s.month + 1)
  }

  ghost predicate Possible(run: Run)
    decreases run, 0
  {
    run.Start? || (Possible(run.prev) && Enabled(Final(run.prev), run.step))
  }

  ghost function Final(run: Run): State
    requires Possible(run)
    decreases run, 1
  {
    match run
    case Start(limits) => State(0, limits, map[], map[], multiset{})
    case Do(prev, step) => Next(Final(prev), step)
  }

  // ---------------------------------------------------------------- idempotency

  predicate SameKey(a: Stored, b: Stored) {
    a.key.Some? && a.key == b.key && a.tenant == b.tenant
  }

  ghost predicate KeysUnique(s: State) {
    forall e, f ::
      e in s.events && f in s.events && SameKey(s.events[e], s.events[f]) ==> e == f
  }

  /** A call that has an event has one of its own tenant and key. */
  ghost predicate CallsMatch(s: State) {
    forall c :: c in s.calls && (s.calls[c].phase.Inserted? || s.calls[c].phase.Returned?) ==>
      CallMatches(s, s.calls[c])
  }

  ghost predicate CallMatches(s: State, c: Call)
    requires c.phase.Inserted? || c.phase.Returned?
  {
    c.phase.event in s.events && s.events[c.phase.event].tenant == c.tenant && s.events[c.phase.event].key == c.key
  }

  /** No event has two originals for one consumer. */
  ghost predicate OriginalsOnce(s: State) {
    forall e: Id, k: Id :: s.originals[(e, k)] <= 1 && (s.originals[(e, k)] == 1 ==> e in s.events)
  }

  /** An event whose fan-out is still to come has no originals, and one call that inserted it. */
  ghost predicate InsertersApart(s: State) {
    && (forall c, k: Id :: c in s.calls && s.calls[c].phase.Inserted? ==> s.originals[(s.calls[c].phase.event, k)] == 0)
    && (forall c, d ::
          c in s.calls && d in s.calls && s.calls[c].phase.Inserted? && s.calls[d].phase == s.calls[c].phase ==> c == d)
  }

  /** Two successful calls of one tenant with one key. */
  predicate BothReturned(c: Call, d: Call) {
    c.phase.Returned? && d.phase.Returned? && c.tenant == d.tenant && c.key.Some? && c.key == d.key
  }

  /** The partial unique index, when the lookup came too early. */
  lemma InsertKeepsKeys(s: State, call: Id, e: Id)
    requires Enabled(s, Insert(call, e)) && KeysUnique(s)
    ensures KeysUnique(Next(s, Insert(call, e)))
  {
    var c := s.calls[call];
    if EventsWithKey(s, c.tenant, c.key) == {} {
      forall f | f in s.events ensures !SameKey(s.events[f], Stored(c.tenant, c.key, true, s.month)) {
        assert f !in EventsWithKey(s, c.tenant, c.key);
      }
    }
  }

  lemma StepKeepsUniqueKeys(s: State, step: Step)
    requires Enabled(s, step) && KeysUnique(s)
    ensures KeysUnique(Next(s, step))
  {
    match step
    case Insert(call, e) => InsertKeepsKeys(s, call, e);
    case ScheduleFires(_, _, _) =>
    case _ => assert Next(s, step).events == s.events;
  }

  predicate HasEvent(p: Phase) { p.Inserted? || p.Returned? }

  lemma StepKeepsCallMatching(s: State, step: Step, d: Id)
    requires Enabled(s, step) && CallsMatch(s)
    requires d in Next(s, step).calls && HasEvent(Next(s, step).calls[d].phase)
    ensures CallMatches(Next(s, step), Next(s, step).calls[d])
  {
    if d in s.calls && Next(s, step).calls[d] == s.calls[d] {
      assert CallMatches(s, s.calls[d]);
    } else if step.FanOut? {
      assert CallMatches(s, s.calls[step.call]);
    }
  }

  lemma StepKeepsKeys(s: State, step: Step)
    requires Enabled(s, step) && KeysUnique(s) && CallsMatch(s)
    ensures KeysUnique(Next(s, step)) && CallsMatch(Next(s, step))
  {
    StepKeepsUniqueKeys(s, step);
    var u := Next(s, step);
    forall d | d in u.calls && HasEvent(u.calls[d].phase) ensures CallMatches(u, u.calls[d]) {
      StepKeepsCallMatching(s, step, d);
    }
  }

  /** A fan-out of an event without originals. */
  lemma FanOutAddsOnce(originals: multiset<(Id, Id)>, e: Id, page: set<Id>)
    requires forall k: Id :: originals[(e, k)] == 0
    ensures forall f: Id, k: Id ::
      FannedOut(originals, e, page)[(f, k)] == if f == e && k in page then 1 else originals[(f, k)]
  {
    var added := set c | c in page :: (e, c);
    assert FannedOut(originals, e, page) == originals + multiset(added);
    forall f: Id, k: Id
      ensures FannedOut(originals, e, page)[(f, k)] == if f == e && k in page then 1 else originals[(f, k)]
    {
      assert multiset(added)[(f, k)] == if (f, k) in added then 1 else 0;
    }
  }

  lemma FanOutKeepsOriginals(s: State, call: Id, page: set<Id>)
    requires Enabled(s, FanOut(call, page)) && CallsMatch(s) && OriginalsOnce(s) && InsertersApart(s)
    ensures var u := Next(s, FanOut(call, page)); OriginalsOnce(u) && InsertersApart(u)
  {
    var e := s.calls[call].phase.event;
    assert CallMatches(s, s.calls[call]);
    FanOutAddsOnce(s.originals, e, page);
  }

  lemma FireKeepsOriginals(s: State, e: Id, tenant: Id, page: set<Id>)
    requires Enabled(s, ScheduleFires(e, tenant, page)) && CallsMatch(s) && OriginalsOnce(s) && InsertersApart(s)
    ensures var u := Next(s, ScheduleFires(e, tenant, page)); OriginalsOnce(u) && InsertersApart(u)
  {
    FanOutAddsOnce(s.originals, e, page);
    assert forall c :: c in s.calls && s.calls[c].phase.Inserted? ==> CallMatches(s, s.calls[c]);
  }

  lemma StepKeepsOriginals(s: State, step: Step)
    requires Enabled(s, step) && CallsMatch(s) && OriginalsOnce(s) && InsertersApart(s)
    ensures OriginalsOnce(Next(s, step)) && InsertersApart(Next(s, step))
  {
    match step
    case FanOut(call, page) => FanOutKeepsOriginals(s, call, page);
    case ScheduleFires(e, tenant, page) => FireKeepsOriginals(s, e, tenant, page);
    case _ => assert Next(s, step).originals == s.originals;
  }

  lemma {:induction false} ProduceInvariant(run: Run)
    requires Possible(run)
    ensures KeysUnique(Final(run)) && CallsMatch(Final(run)) && OriginalsOnce(Final(run)) && InsertersApart(Final(run))
  {
    if run.Do? {
      ProduceInvariant(run.prev);
      StepKeepsKeys(Final(run.prev), run.step);
      StepKeepsOriginals(Final(run.prev), run.step);
    }
  }

  /** Under any interleaving there is at most one event per tenant and key, two calls of one
      tenant with the same key that both return, return the same event, and no consumer gets two
      original deliveries of any event. */
  lemma {:induction false} ProduceIsIdempotent(run: Run)
    requires Possible(run)
    ensures var s := Final(run);
      && (forall tenant, key :: |EventsWithKey(s, tenant, key)| <= 1)
      && (forall c, d ::
            c in s.calls && d in s.calls && BothReturned(s.calls[c], s.calls[d]) ==>
              s.calls[c].phase.event == s.calls[d].phase.event)
      && (forall e: Id, k: Id :: s.originals[(e, k)] <= 1)
  {
    ProduceInvariant(run);
    var s := Final(run);
    forall tenant, key ensures |EventsWithKey(s, tenant, key)| <= 1 {
      AtMostOne(s, tenant, key);
    }
    forall c, d | c in s.calls && d in s.calls && BothReturned(s.calls[c], s.calls[d])
      ensures s.calls[c].phase.event == s.calls[d].phase.event
    {
      assert CallMatches(s, s.calls[c]) && CallMatches(s, s.calls[d]);
    }
  }

  lemma AtMostOne(s: State, tenant: Id, key: Option<Id>)
    requires KeysUnique(s)
    ensures |EventsWithKey(s, tenant, key)| <= 1
  {
    var found := EventsWithKey(s, tenant, key);
    if found != {} {
      var e :| e in found;
      assert found == {e};
    }
  }

  // ---------------------------------------------------------------- what single steps answer

  predicate HasOwnKey(s: State, e: Id, c: Call) {
    c.key.Some? && e in s.events && s.events[e].tenant == c.tenant && s.events[e].key == c.key
  }

  /** A lookup finds an event of the call's own tenant and key, and misses exactly when there is none. */
  lemma LookUpAnswers(s: State, call: Id)
    requires Enabled(s, LookUp(call))
    ensures var c, after := s.calls[call], Next(s, LookUp(call)).calls[call].phase;
      && (after.Missed? || after.Returned?)
      && (after.Returned? ==> HasOwnKey(s, after.event, c))
      && (after.Missed? <==> forall e :: !HasOwnKey(s, e, c))
  {
    var c := s.calls[call];
    forall e ensures e in EventsWithKey(s, c.tenant, c.key) <==> HasOwnKey(s, e, c) {}
  }

  /** An insert is refused exactly when an event of the call's own tenant and key is there. */
  lemma InsertAnswers(s: State, call: Id, e: Id)
    requires Enabled(s, Insert(call, e))
    ensures var c, u := s.calls[call], Next(s, Insert(call, e));
      && (u.calls[call].phase == Refused <==> exists f :: HasOwnKey(s, f, c))
      && (u.calls[call].phase != Refused ==>
            u.calls[call].phase == Inserted(e) && u.events == s.events[e := Stored(c.tenant, c.key, true, s.month)])
  {
    var c := s.calls[call];
    forall f ensures f in EventsWithKey(s, c.tenant, c.key) <==> HasOwnKey(s, f, c) {}
  }

  /** The check passes exactly when one more event fits: the tenant's events of this month count,
      those of schedules included. */
  lemma CheckAnswers(s: State, call: Id)
    requires Enabled(s, CheckLimit(call))
    ensures var c, after := s.calls[call], Next(s, CheckLimit(call)).calls[call].phase;
      var counted := set e | e in s.events && s.events[e].tenant == c.tenant && s.events[e].month == s.month;
      after == if |counted| < s.limits(c.tenant) then Passed else Refused
  {
    var tenant := s.calls[call].tenant;
    assert MonthEvents(s, tenant) ==
      set e | e in s.events && s.events[e].tenant == tenant && s.events[e].month == s.month;
  }

  // ---------------------------------------------------------------- the plan limit

  /** At most `k` produce calls of the tenant are ever in flight at once. */
  ghost predicate AtMostInFlight(run: Run, tenant: Id, k: nat)
    requires Possible(run)
  {
    |InFlight(Final(run), tenant)| <= k && (run.Do? ==> AtMostInFlight(run.prev, tenant, k))
  }

  ghost predicate NothingFromLater(s: State) {
    forall e :: e in s.events ==> s.events[e].month <= s.month
  }

  /** The events counted, and the calls that passed the check and may still insert, stay within
      the overshoot; nobody passes under a limit of zero. */
  ghost predicate WithinOvershoot(s: State, tenant: Id, k: nat) {
    && NothingFromLater(s)
    && |ApiEvents(s, tenant)| + |Pending(s, tenant)| <= s.limits(tenant) + k - 1
    && (s.limits(tenant) == 0 ==> Pending(s, tenant) == {} && ApiEvents(s, tenant) == {})
  }

  lemma CheckKeepsOvershoot(s: State, step: Step, tenant: Id, k: nat)
    requires Enabled(s, step) && step.CheckLimit? && k >= 1 && WithinOvershoot(s, tenant, k)
    requires |Pending(Next(s, step), tenant)| <= k
    ensures WithinOvershoot(Next(s, step), tenant, k)
  {
    var u := Next(s, step);
    SubsetSize(ApiEvents(s, tenant), MonthEvents(s, tenant));
    assert ApiEvents(u, tenant) == ApiEvents(s, tenant);
    assert !(s.calls[step.call].tenant == tenant && u.calls[step.call].phase == Passed) ==>
      Pending(u, tenant) == Pending(s, tenant);
  }

  lemma InsertCounts(s: State, call: Id, e: Id, tenant: Id)
    requires Enabled(s, Insert(call, e))
    ensures var u := Next(s, Insert(call, e));
      && Pending(u, tenant) == Pending(s, tenant) - {call}
      && ApiEvents(u, tenant) <= ApiEvents(s, tenant) + if s.calls[call].tenant == tenant then {e} else {}
  {
  }

  lemma InsertKeepsOvershoot(s: State, call: Id, e: Id, tenant: Id, k: nat)
    requires Enabled(s, Insert(call, e)) && WithinOvershoot(s, tenant, k)
    ensures WithinOvershoot(Next(s, Insert(call, e)), tenant, k)
  {
    var u := Next(s, Insert(call, e));
    InsertCounts(s, call, e, tenant);
    if s.calls[call].tenant == tenant {
      assert call in Pending(s, tenant);
      SubsetSize(ApiEvents(u, tenant), ApiEvents(s, tenant) + {e});
    } else {
      SubsetSize(ApiEvents(u, tenant), ApiEvents(s, tenant));
    }
  }

  lemma MonthKeepsOvershoot(s: State, tenant: Id, k: nat)
    requires k >= 1 && WithinOvershoot(s, tenant, k) && |Pending(s, tenant)| <= k
    ensures WithinOvershoot(Next(s, NextMonth), tenant, k)
  {
    var u := Next(s, NextMonth);
    assert Pending(u, tenant) == Pending(s, tenant);
    assert ApiEvents(u, tenant) == {};
  }

  lemma OtherKeepsOvershoot(s: State, step: Step, tenant: Id, k: nat)
    requires Enabled(s, step) && !step.CheckLimit? && !step.Insert? && !step.NextMonth? && WithinOvershoot(s, tenant, k)
    ensures WithinOvershoot(Next(s, step), tenant, k)
  {
    var u := Next(s, step);
    assert ApiEvents(u, tenant) == ApiEvents(s, tenant);
    assert Pending(u, tenant) <= Pending(s, tenant);
    SubsetSize(Pending(u, tenant), Pending(s, tenant));
  }

  lemma StepKeepsOvershoot(s: State, step: Step, tenant: Id, k: nat)
    requires Enabled(s, step) && k >= 1 && WithinOvershoot(s, tenant, k)
    requires |InFlight(s, tenant)| <= k && |InFlight(Next(s, step), tenant)| <= k
    ensures WithinOvershoot(Next(s, step), tenant, k)
  {
    SubsetSize(Pending(s, tenant), InFlight(s, tenant));
    SubsetSize(Pending(Next(s, step), tenant), InFlight(Next(s, step), tenant));
    match step
    case CheckLimit(_) => CheckKeepsOvershoot(s, step, tenant, k);
    case Insert(call, e) => InsertKeepsOvershoot(s, call, e, tenant, k);
    case NextMonth => MonthKeepsOvershoot(s, tenant, k);
    case _ => OtherKeepsOvershoot(s, step, tenant, k);
  }

  lemma {:induction false} OvershootHolds(run: Run, tenant: Id, k: nat)
    requires Possible(run) && k >= 1 && AtMostInFlight(run, tenant, k)
    ensures WithinOvershoot(Final(run), tenant, k)
  {
    if run.Do? {
      OvershootHolds(run.prev, tenant, k);
      assert |InFlight(Final(run.prev), tenant)| <= k;
      StepKeepsOvershoot(Final(run.prev), run.step, tenant, k);
    }
  }

  /** With at most `k` calls in flight, a tenant's events of this month that came through the API
      exceed its plan limit by at most `k - 1`; one call at a time never exceeds it, and a limit of
      zero lets nothing through. */
  lemma {:induction false} OvershootBounded(run: Run, tenant: Id, k: nat)
    requires Possible(run) && k >= 1 && AtMostInFlight(run, tenant, k)
    ensures |ApiEvents(Final(run), tenant)| <= Final(run).limits(tenant) + k - 1
    ensures Final(run).limits(tenant) == 0 ==> ApiEvents(Final(run), tenant) == {}
  {
    OvershootHolds(run, tenant, k);
  }
}
