/** An event leaves `pending` with the first claim of one of its deliveries, in every run. */
module FirstClaim {
  import opened Options
  import opened Schema
  import opened ClaimSelection
  import opened Protocol
  import opened RowAgreement

  /** The deliveries that some claim has ever taken. */
  ghost function Claimed(run: Run): set<Id> {
    match run
    case Start(_) => {}
    case Do(prev, step) => if step.Claim? then Claimed(prev) + Elements(step.rows) else Claimed(prev)
  }

  ghost predicate EventClaimed(t: Tables, claimed: set<Id>, e: Id) {
    exists d :: d in claimed && d in t.deliveries && t.deliveries[d].event == e
  }

  /** The status, the start time and the claim history of an event tell the same story. */
  ghost predicate FirstClaimRecorded(t: Tables, claimed: set<Id>) {
    forall e :: e in t.events ==>
      && (t.events[e].status == EventPending <==> t.events[e].startedAt.None?)
      && (t.events[e].status == EventPending <==> !EventClaimed(t, claimed, e))
  }

  /** Only claimed rows are held, acknowledged, left unsynced, or out of `pending`. */
  ghost predicate OnlyClaimedMove(s: State, claimed: set<Id>) {
    && (forall d :: d in s.t.deliveries && s.t.deliveries[d].status != Pending ==> d in claimed)
    && (forall h :: h in s.holds ==> h.delivery in claimed)
    && (forall r :: r in s.acks ==> s.acks[r].delivery in claimed)
    && (forall e :: e in s.unsynced ==> EventClaimed(s.t, claimed, e))
    && claimed <= s.t.deliveries.Keys
  }

  ghost function ClaimedAfter(claimed: set<Id>, step: Step): set<Id> {
    if step.Claim? then claimed + Elements(step.rows) else claimed
  }

  /** The row that a closing write changes was claimed before. */
  lemma WrittenRowWasClaimed(c: Config, s: State, claimed: set<Id>, step: Step)
    requires Enabled(s, step) && IsWrite(step) && OnlyClaimedMove(s, claimed)
    ensures StepWrite(c, s, step).0 in claimed
  {
  }

  lemma EventClaimedStays(t: Tables, u: Tables, claimed: set<Id>, more: set<Id>, e: Id)
    requires Extends(t, u) && claimed <= more && EventClaimed(t, claimed, e)
    ensures EventClaimed(u, more, e)
  {
    var d :| d in claimed && d in t.deliveries && t.deliveries[d].event == e;
    assert d in u.deliveries && u.deliveries[d].event == e;
  }

  lemma OtherStepsMoveOnlyClaimed(c: Config, s: State, step: Step, d: Id)
    requires Enabled(s, step) && !IsWrite(step)
    requires d in Next(c, s, step).t.deliveries && Next(c, s, step).t.deliveries[d].status != Pending
    ensures (d in s.t.deliveries && s.t.deliveries[d].status != Pending) || (step.Claim? && d in step.rows)
  {
  }

  lemma RowsMoveOnlyOnceClaimed(c: Config, s: State, claimed: set<Id>, step: Step)
    requires Enabled(s, step) && OnlyClaimedMove(s, claimed)
    ensures forall d :: d in Next(c, s, step).t.deliveries && Next(c, s, step).t.deliveries[d].status != Pending ==>
      d in ClaimedAfter(claimed, step)
  {
    if IsWrite(step) {
      WrittenRowWasClaimed(c, s, claimed, step);
    } else {
      forall d | d in Next(c, s, step).t.deliveries && Next(c, s, step).t.deliveries[d].status != Pending
        ensures d in ClaimedAfter(claimed, step)
      {
        OtherStepsMoveOnlyClaimed(c, s, step, d);
      }
    }
  }

  lemma HoldersClaimed(c: Config, s: State, claimed: set<Id>, step: Step)
    requires Enabled(s, step) && OnlyClaimedMove(s, claimed)
    ensures forall h :: h in Next(c, s, step).holds ==> h.delivery in ClaimedAfter(claimed, step)
    ensures forall r :: r in Next(c, s, step).acks ==> Next(c, s, step).acks[r].delivery in ClaimedAfter(claimed, step)
  {
  }

  lemma NewlyUnsynced(c: Config, s: State, step: Step, e: Id)
    requires Enabled(s, step) && e in Next(c, s, step).unsynced && e !in s.unsynced
    ensures IsWrite(step) && StepWrite(c, s, step).0 in s.t.deliveries
    ensures s.t.deliveries[StepWrite(c, s, step).0].event == e
  {
  }

  lemma StepKeepsOnlyClaimedMove(c: Config, s: State, claimed: set<Id>, step: Step)
    requires Enabled(s, step) && OnlyClaimedMove(s, claimed)
    ensures OnlyClaimedMove(Next(c, s, step), ClaimedAfter(claimed, step))
  {
    var u, after := Next(c, s, step), ClaimedAfter(claimed, step);
    StepExtends(c, s, step);
    RowsMoveOnlyOnceClaimed(c, s, claimed, step);
    HoldersClaimed(c, s, claimed, step);
    forall e | e in u.unsynced ensures EventClaimed(u.t, after, e) {
      if e !in s.unsynced {
        NewlyUnsynced(c, s, step, e);
        WrittenRowWasClaimed(c, s, claimed, step);
      }
      EventClaimedStays(s.t, u.t, claimed, after, e);
    }
  }

  /** Only a claim gives an event its first claimed delivery. */
  lemma NoNewEventClaimed(c: Config, s: State, claimed: set<Id>, step: Step, e: Id)
    requires Enabled(s, step) && Agreed(s) && OnlyClaimedMove(s, claimed)
    requires step.Claim? ==> forall d :: d in step.rows ==> s.t.deliveries[d].event != e
    ensures EventClaimed(Next(c, s, step).t, ClaimedAfter(claimed, step), e) ==>
      e in s.t.events && EventClaimed(s.t, claimed, e)
  {
    var u, after := Next(c, s, step), ClaimedAfter(claimed, step);
    StepExtends(c, s, step);
    if EventClaimed(u.t, after, e) {
      var d :| d in after && d in u.t.deliveries && u.t.deliveries[d].event == e;
      assert d in claimed && d in s.t.deliveries;
    }
  }

  /** How one step changes an event: only its first claim takes it out of `pending`, and only
      that step writes its start time. */
  ghost predicate EventMoves(s: State, claimed: set<Id>, step: Step, before: Event, after: Event, e: Id) {
    if step.Claim? && (exists d :: d in step.rows && d in s.t.deliveries && s.t.deliveries[d].event == e)
       && !EventClaimed(s.t, claimed, e)
    then after.status == EventProcessing && after.startedAt == Some(s.now)
    else after.startedAt == before.startedAt && (after.status == EventPending <==> before.status == EventPending)
  }

  lemma WriteMovesEvent(s: State, claimed: set<Id>, d: Id, w: Write, e: Id)
    requires FirstClaimRecorded(s.t, claimed) && e in s.t.events && d in claimed
    ensures var t := Apply(s.t, d, w, s.now);
      && e in t.events && t.events[e].startedAt == s.t.events[e].startedAt
      && (t.events[e].status == EventPending <==> s.t.events[e].status == EventPending)
  {
  }

  lemma StepMovesEvent(c: Config, s: State, claimed: set<Id>, step: Step, e: Id)
    requires Enabled(s, step) && OnlyClaimedMove(s, claimed) && FirstClaimRecorded(s.t, claimed) && e in s.t.events
    ensures e in Next(c, s, step).t.events
    ensures EventMoves(s, claimed, step, s.t.events[e], Next(c, s, step).t.events[e], e)
  {
    if IsWrite(step) {
      WrittenRowWasClaimed(c, s, claimed, step);
      var (d, w) := StepWrite(c, s, step);
      WriteMovesEvent(s, claimed, d, w, e);
    } else if step.Claim? {
      ClaimMovesEvent(s.t, claimed, Elements(step.rows), s.now, e);
    } else {
      OtherStepMovesEvent(c, s, claimed, step, e);
    }
  }

  lemma OtherStepMovesEvent(c: Config, s: State, claimed: set<Id>, step: Step, e: Id)
    requires Enabled(s, step) && !IsWrite(step) && !step.Claim? && e in s.t.events
    requires OnlyClaimedMove(s, claimed) && FirstClaimRecorded(s.t, claimed)
    ensures var u := Next(c, s, step).t.events;
      && e in u && u[e].startedAt == s.t.events[e].startedAt
      && (u[e].status == EventPending <==> s.t.events[e].status == EventPending)
  {
  }

  lemma ClaimMovesEvent(t: Tables, claimed: set<Id>, rows: set<Id>, now: Time, e: Id)
    requires FirstClaimRecorded(t, claimed) && rows <= t.deliveries.Keys && e in t.events
    ensures var u := ClaimRows(t, rows, now).events[e];
      if (exists d :: d in rows && t.deliveries[d].event == e) && !EventClaimed(t, claimed, e)
      then u.status == EventProcessing && u.startedAt == Some(now)
      else u == t.events[e]
  {
  }

  lemma ClaimedEventIsClaimed(c: Config, s: State, claimed: set<Id>, step: Step, e: Id)
    requires Enabled(s, step) && Extends(s.t, Next(c, s, step).t)
    requires EventClaimed(s.t, claimed, e) ||
      (step.Claim? && exists d :: d in step.rows && d in s.t.deliveries && s.t.deliveries[d].event == e)
    ensures EventClaimed(Next(c, s, step).t, ClaimedAfter(claimed, step), e)
  {
    var u, after := Next(c, s, step), ClaimedAfter(claimed, step);
    if EventClaimed(s.t, claimed, e) {
      EventClaimedStays(s.t, u.t, claimed, after, e);
    } else {
      var d :| d in step.rows && d in s.t.deliveries && s.t.deliveries[d].event == e;
      assert d in after && d in u.t.deliveries && u.t.deliveries[d].event == e;
    }
  }

  ghost predicate ClaimsOneOf(s: State, step: Step, e: Id) {
    step.Claim? && exists d :: d in step.rows && d in s.t.deliveries && s.t.deliveries[d].event == e
  }

  lemma StepKeepsFirstClaimOf(c: Config, s: State, claimed: set<Id>, step: Step, e: Id)
    requires Enabled(s, step) && Agreed(s) && OnlyClaimedMove(s, claimed) && FirstClaimRecorded(s.t, claimed)
    requires e in s.t.events && Extends(s.t, Next(c, s, step).t)
    ensures var v := Next(c, s, step).t.events[e];
      && (v.status == EventPending <==> v.startedAt.None?)
      && (v.status == EventPending <==> !EventClaimed(Next(c, s, step).t, ClaimedAfter(claimed, step), e))
  {
    StepMovesEvent(c, s, claimed, step, e);
    if EventClaimed(s.t, claimed, e) || ClaimsOneOf(s, step, e) {
      ClaimedEventIsClaimed(c, s, claimed, step, e);
    } else {
      UntouchedEventStaysUnclaimed(c, s, claimed, step, e);
    }
  }

  lemma UntouchedEventStaysUnclaimed(c: Config, s: State, claimed: set<Id>, step: Step, e: Id)
    requires Enabled(s, step) && Agreed(s) && OnlyClaimedMove(s, claimed)
    requires !EventClaimed(s.t, claimed, e) && !ClaimsOneOf(s, step, e)
    ensures !EventClaimed(Next(c, s, step).t, ClaimedAfter(claimed, step), e)
  {
    if step.Claim? {
      forall d | d in step.rows ensures s.t.deliveries[d].event != e { assert d in s.t.deliveries; }
    }
    NoNewEventClaimed(c, s, claimed, step, e);
  }

  lemma NewEventIsPending(c: Config, s: State, step: Step, e: Id)
    requires Enabled(s, step) && e in Next(c, s, step).t.events && e !in s.t.events
    ensures var v := Next(c, s, step).t.events[e]; v.status == EventPending && v.startedAt.None?
  {
  }

  lemma NewEventIsUnclaimed(c: Config, s: State, claimed: set<Id>, step: Step, e: Id)
    requires Enabled(s, step) && Agreed(s) && OnlyClaimedMove(s, claimed) && e !in s.t.events
    ensures !EventClaimed(Next(c, s, step).t, ClaimedAfter(claimed, step), e)
  {
    assert step.Claim? ==> forall d :: d in step.rows ==> d in s.t.deliveries;
    NoNewEventClaimed(c, s, claimed, step, e);
  }

  lemma StepKeepsFirstClaim(c: Config, s: State, claimed: set<Id>, step: Step)
    requires Enabled(s, step) && Agreed(s) && OnlyClaimedMove(s, claimed) && FirstClaimRecorded(s.t, claimed)
    ensures FirstClaimRecorded(Next(c, s, step).t, ClaimedAfter(claimed, step))
  {
    var u, after := Next(c, s, step), ClaimedAfter(claimed, step);
    StepExtends(c, s, step);
    forall e | e in u.t.events
      ensures u.t.events[e].status == EventPending <==> u.t.events[e].startedAt.None?
      ensures u.t.events[e].status == EventPending <==> !EventClaimed(u.t, after, e)
    {
      if e in s.t.events {
        StepKeepsFirstClaimOf(c, s, claimed, step, e);
      } else {
        NewEventIsPending(c, s, step, e);
        NewEventIsUnclaimed(c, s, claimed, step, e);
      }
    }
  }

  /** Over all runs: an event is `pending` exactly when it has no start time, exactly when none
      of its deliveries was ever claimed. */
  lemma {:induction false} PendingUntilFirstClaim(c: Config, run: Run)
    requires Possible(c, run)
    ensures FirstClaimRecorded(Final(c, run).t, Claimed(run)) && OnlyClaimedMove(Final(c, run), Claimed(run))
  {
    if run.Do? {
      var s := Final(c, run.prev);
      PendingUntilFirstClaim(c, run.prev);
      RunsAgree(c, run.prev);
      StepKeepsOnlyClaimedMove(c, s, Claimed(run.prev), run.step);
      StepKeepsFirstClaim(c, s, Claimed(run.prev), run.step);
    }
  }

  /** Once an event has a start time it keeps that time and never returns to `pending`. */
  lemma {:induction false} StartTimeIsWrittenOnce(c: Config, run: Run, step: Step, e: Id)
    requires Possible(c, Do(run, step)) && e in Final(c, run).t.events
    ensures e in Final(c, Do(run, step)).t.events
    ensures EventMoves(Final(c, run), Claimed(run), step,
              Final(c, run).t.events[e], Final(c, Do(run, step)).t.events[e], e)
    ensures Final(c, run).t.events[e].startedAt.Some? ==>
      && Final(c, Do(run, step)).t.events[e].startedAt == Final(c, run).t.events[e].startedAt
      && Final(c, Do(run, step)).t.events[e].status != EventPending
  {
    PendingUntilFirstClaim(c, run);
    StepMovesEvent(c, Final(c, run), Claimed(run), step, e);
  }
}
