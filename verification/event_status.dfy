/** The status of an event against its deliveries, in every run: stale holders, overlapping
    acknowledges and split replays included. */
module EventQuiescence {
  import opened Schema
  import opened ClaimSelection
  import opened Protocol
  import opened RowAgreement

  // ---------------------------------------------------------------- quiescent agreement

  ghost predicate HasDelivery(t: Tables, e: Id) {
    exists d :: d in t.deliveries && t.deliveries[d].event == e
  }

  /** Every delivery of the event is closed, and no acknowledge still has to sync it. */
  ghost predicate Quiescent(s: State, e: Id) {
    HasDelivery(s.t, e) && !AnyOpen(s.t.deliveries, e) && e !in s.unsynced
  }

  ghost predicate QuiescentEventsAgree(s: State) {
    forall e :: e in s.t.events && Quiescent(s, e) ==> s.t.events[e].status == Aggregate(s.t.deliveries, e)
  }

  /** The deliveries of an event are the same rows with the same statuses. */
  ghost predicate SameDeliveriesOf(a: map<Id, Delivery>, b: map<Id, Delivery>, e: Id) {
    && (forall d :: d in a && a[d].event == e ==> d in b && b[d].event == e && b[d].status == a[d].status)
    && (forall d :: d in b && b[d].event == e ==> d in a && a[d].event == e)
  }

  lemma SameAggregate(a: map<Id, Delivery>, b: map<Id, Delivery>, e: Id)
    requires SameDeliveriesOf(a, b, e)
    ensures Aggregate(a, e) == Aggregate(b, e) && AnyOpen(a, e) == AnyOpen(b, e)
    ensures HasDelivery(Tables(map[], a, map[], map[]), e) == HasDelivery(Tables(map[], b, map[], map[]), e)
  {
  }

  /** A write leaves the events of other rows alone, and a `GiveUp` leaves its own event synced. */
  lemma WriteKeepsQuiescence(s: State, d: Id, w: Write)
    requires QuiescentEventsAgree(s)
    ensures QuiescentEventsAgree(Written(s, d, w))
  {
    var u := Written(s, d, w);
    forall e | e in u.t.events && Quiescent(u, e)
      ensures u.t.events[e].status == Aggregate(u.t.deliveries, e)
    {
      if d in s.t.deliveries && s.t.deliveries[d].event == e {
        assert w.Deliver? ==> e in u.unsynced;
        if !w.GiveUp? { assert u.t.deliveries[d].event == e && u.t.deliveries[d].Open(); }
      } else {
        SameAggregate(s.t.deliveries, u.t.deliveries, e);
        assert Quiescent(s, e);
      }
    }
  }

  /** A step that is not a closing write never closes a row. */
  ghost predicate OnlyOpens(t: Tables, u: Tables) {
    forall d :: d in u.deliveries ==>
      u.deliveries[d].Open() || (d in t.deliveries && u.deliveries[d].status == t.deliveries[d].status)
  }

  lemma OtherStepsOnlyOpen(c: Config, s: State, step: Step)
    requires Enabled(s, step) && !IsWrite(step)
    ensures OnlyOpens(s.t, Next(c, s, step).t)
  {
  }

  lemma OtherStepsKeepEvents(c: Config, s: State, step: Step, e: Id)
    requires Enabled(s, step) && !IsWrite(step) && e in s.t.events
    requires step.Claim? ==> forall d :: d in step.rows ==> s.t.deliveries[d].event != e
    requires step != Sync(e)
    ensures e in Next(c, s, step).t.events && Next(c, s, step).t.events[e] == s.t.events[e]
    ensures e in Next(c, s, step).unsynced <==> e in s.unsynced
  {
  }

  lemma StepKeepsQuiescence(c: Config, s: State, step: Step)
    requires Enabled(s, step) && Agreed(s) && QuiescentEventsAgree(s)
    ensures QuiescentEventsAgree(Next(c, s, step))
  {
    var u := Next(c, s, step);
    if IsWrite(step) {
      var (d, w) := StepWrite(c, s, step);
      var r := s.(holds := u.holds, acks := u.acks);
      assert forall e :: Quiescent(r, e) == Quiescent(s, e);
      WriteKeepsQuiescence(r, d, w);
    } else {
      OtherStepsOnlyOpen(c, s, step);
      StepExtends(c, s, step);
      forall e | e in u.t.events && Quiescent(u, e)
        ensures u.t.events[e].status == Aggregate(u.t.deliveries, e)
      {
        OtherStepKeepsQuiescence(c, s, step, e);
      }
    }
  }

  lemma NoOpenRowMeansSameRows(t: Tables, u: Tables, e: Id)
    requires OnlyOpens(t, u) && Extends(t, u) && !AnyOpen(u.deliveries, e)
    ensures SameDeliveriesOf(t.deliveries, u.deliveries, e)
  {
  }

  /** A claim opens every row it takes. */
  lemma ClaimOpensRows(c: Config, s: State, step: Step, e: Id)
    requires Enabled(s, step) && step.Claim? && !AnyOpen(Next(c, s, step).t.deliveries, e)
    ensures forall d :: d in step.rows ==> s.t.deliveries[d].event != e
  {
    var u := ClaimRows(s.t, Elements(step.rows), s.now).deliveries;
    forall d | d in step.rows ensures s.t.deliveries[d].event != e {
      assert d in u && u[d].Open() && u[d].event == s.t.deliveries[d].event;
    }
  }

  lemma OtherStepKeepsQuiescence(c: Config, s: State, step: Step, e: Id)
    requires Enabled(s, step) && !IsWrite(step) && Agreed(s) && QuiescentEventsAgree(s)
    requires OnlyOpens(s.t, Next(c, s, step).t) && Extends(s.t, Next(c, s, step).t)
    requires e in Next(c, s, step).t.events && Quiescent(Next(c, s, step), e)
    ensures Next(c, s, step).t.events[e].status == Aggregate(Next(c, s, step).t.deliveries, e)
  {
    var u := Next(c, s, step);
    NoOpenRowMeansSameRows(s.t, u.t, e);
    SameAggregate(s.t.deliveries, u.t.deliveries, e);
    assert HasDelivery(s.t, e) && e in s.t.events;
    if step != Sync(e) {
      if step.Claim? { ClaimOpensRows(c, s, step, e); }
      OtherStepsKeepEvents(c, s, step, e);
      assert Quiescent(s, e);
    }
  }

  lemma {:induction false} RunsKeepQuiescence(c: Config, run: Run)
    requires Possible(c, run)
    ensures QuiescentEventsAgree(Final(c, run))
  {
    if run.Do? {
      RunsKeepQuiescence(c, run.prev);
      RunsAgree(c, run.prev);
      StepKeepsQuiescence(c, Final(c, run.prev), run.step);
    }
  }

  /** In every reachable state an event with deliveries, all of them closed, and no acknowledge
      left to sync is `failed` when one of its deliveries failed and `delivered` otherwise. */
  lemma {:induction false} QuiescentEventStatus(c: Config, run: Run, e: Id)
    requires Possible(c, run)
    requires e in Final(c, run).t.events && e !in Final(c, run).unsynced
    requires exists d :: d in Final(c, run).t.deliveries && Final(c, run).t.deliveries[d].event == e
    requires forall d :: d in Final(c, run).t.deliveries && Final(c, run).t.deliveries[d].event == e ==>
      Final(c, run).t.deliveries[d].status == Delivered || Final(c, run).t.deliveries[d].status == Failed
    ensures Final(c, run).t.events[e].status ==
      if exists d :: d in Final(c, run).t.deliveries && Final(c, run).t.deliveries[d].event == e
                     && Final(c, run).t.deliveries[d].status == Failed
      then EventFailed else EventDelivered
  {
    RunsKeepQuiescence(c, run);
    assert Quiescent(Final(c, run), e);
  }
}
