/** Row agreement: what every run keeps, with no hypothesis on its actors. */
module RowAgreement {
  import opened Schema
  import opened Protocol

  // ---------------------------------------------------------------- rows keep their identity

  predicate SameDelivery(a: Delivery, b: Delivery) {
    a.tenant == b.tenant && a.event == b.event && a.consumer == b.consumer
  }

  predicate SameEvent(a: Event, b: Event) {
    b == a.(status := b.status, startedAt := b.startedAt, processedAt := b.processedAt)
  }

  predicate SameLetter(a: DeadLetter, b: DeadLetter) {
    b == a.(replayed := b.replayed)
  }

  predicate SameConsumer(a: Consumer, b: Consumer) {
    a.tenant == b.tenant && a.topic == b.topic && a.push == b.push
  }

  /** No row vanishes or changes what it is about. */
  ghost predicate Extends(t: Tables, u: Tables) {
    && (forall d :: d in t.deliveries ==> d in u.deliveries && SameDelivery(t.deliveries[d], u.deliveries[d]))
    && (forall e :: e in t.events ==> e in u.events && SameEvent(t.events[e], u.events[e]))
    && (forall l :: l in t.deadLetters ==> l in u.deadLetters && SameLetter(t.deadLetters[l], u.deadLetters[l]))
    && (forall c :: c in t.consumers ==> c in u.consumers && SameConsumer(t.consumers[c], u.consumers[c]))
  }

  lemma WriteExtends(t: Tables, d: Id, w: Write, now: Time)
    requires w.GiveUp? ==> w.letter !in t.deadLetters
    ensures Extends(t, Apply(t, d, w, now))
  {
  }

  lemma BulkExtends(c: Config, s: State, step: Step)
    requires Enabled(s, step) && (step.Claim? || step.ResetAcks? || step.ReleaseStuck? || step.Sync?)
    ensures Extends(s.t, Next(c, s, step).t)
  {
  }

  lemma ReplayExtends(c: Config, s: State, step: Step)
    requires Enabled(s, step) && (step.ReplayAtomic? || step.ReplayMark? || step.ReplayEnqueue?)
    ensures Extends(s.t, Next(c, s, step).t)
  {
  }

  lemma {:induction false} StepExtends(c: Config, s: State, step: Step)
    requires Enabled(s, step)
    ensures Extends(s.t, Next(c, s, step).t)
  {
    if IsWrite(step) {
      var (d, w) := StepWrite(c, s, step);
      WriteExtends(s.t, d, w, s.now);
    } else if step.Claim? || step.ResetAcks? || step.ReleaseStuck? || step.Sync? {
      BulkExtends(c, s, step);
    } else if step.ReplayAtomic? || step.ReplayMark? || step.ReplayEnqueue? {
      ReplayExtends(c, s, step);
    }
  }

  // ---------------------------------------------------------------- agreement

  /** A pair of an event and a consumer that may share a delivery. */
  predicate Matches(t: Tables, event: Id, consumer: Id, tenant: Id) {
    && event in t.events && consumer in t.consumers
    && t.events[event].tenant == tenant && t.consumers[consumer].tenant == tenant
    && t.consumers[consumer].topic == t.events[event].topic
  }

  ghost predicate RowsAgree(t: Tables) {
    && (forall d :: d in t.deliveries ==>
          Matches(t, t.deliveries[d].event, t.deliveries[d].consumer, t.deliveries[d].tenant))
    && (forall l :: l in t.deadLetters ==> LetterAgrees(t, t.deadLetters[l]))
  }

  /** A dead letter repeats its delivery's tenant, event and consumer and its event's payload. */
  predicate LetterAgrees(t: Tables, l: DeadLetter) {
    && l.delivery in t.deliveries
    && var row := t.deliveries[l.delivery];
    && l.tenant == row.tenant && l.event == row.event && l.consumer == row.consumer
    && row.event in t.events && l.payload == t.events[row.event].payload
  }

  /** References held outside the tables stay good. */
  ghost predicate References(s: State) {
    && (forall e, c :: (e, c) in s.fanout ==> e in s.t.events && Matches(s.t, e, c, s.t.events[e].tenant))
    && (forall r :: r in s.replays ==> s.replays[r].letter in s.t.deadLetters)
    && (forall h :: h in s.holds ==> h.delivery in s.t.deliveries)
    && (forall r :: r in s.acks ==> s.acks[r].delivery in s.t.deliveries)
  }

  ghost predicate Agreed(s: State) {
    RowsAgree(s.t) && References(s)
  }

  lemma ExtendsKeepsMatches(t: Tables, u: Tables, event: Id, consumer: Id, tenant: Id)
    requires Extends(t, u) && Matches(t, event, consumer, tenant)
    ensures Matches(u, event, consumer, tenant)
  {
  }

  /** Agreement survives any extension whose new rows agree. */
  lemma ExtendsKeepsAgreement(t: Tables, u: Tables)
    requires RowsAgree(t) && Extends(t, u)
    requires forall d :: d in u.deliveries && d !in t.deliveries ==>
      Matches(u, u.deliveries[d].event, u.deliveries[d].consumer, u.deliveries[d].tenant)
    requires forall l :: l in u.deadLetters && l !in t.deadLetters ==> LetterAgrees(u, u.deadLetters[l])
    ensures RowsAgree(u)
  {
    forall d | d in u.deliveries
      ensures Matches(u, u.deliveries[d].event, u.deliveries[d].consumer, u.deliveries[d].tenant)
    {
      if d in t.deliveries {
        ExtendsKeepsMatches(t, u, t.deliveries[d].event, t.deliveries[d].consumer, t.deliveries[d].tenant);
      }
    }
  }

  lemma WriteKeepsRowsAgree(t: Tables, d: Id, w: Write, now: Time)
    requires RowsAgree(t) && (w.GiveUp? ==> w.letter !in t.deadLetters)
    ensures RowsAgree(Apply(t, d, w, now))
  {
    WriteExtends(t, d, w, now);
    ExtendsKeepsAgreement(t, Apply(t, d, w, now));
  }

  lemma StepKeepsRowsAgree(c: Config, s: State, step: Step)
    requires Enabled(s, step) && Agreed(s)
    ensures RowsAgree(Next(c, s, step).t)
  {
    if IsWrite(step) {
      var (d, w) := StepWrite(c, s, step);
      WriteKeepsRowsAgree(s.t, d, w, s.now);
    } else {
      StepExtends(c, s, step);
      ExtendsKeepsAgreement(s.t, Next(c, s, step).t);
    }
  }

  lemma StepKeepsFanout(c: Config, s: State, step: Step)
    requires Enabled(s, step) && Agreed(s) && Extends(s.t, Next(c, s, step).t)
    ensures var u := Next(c, s, step);
      forall e, k :: (e, k) in u.fanout ==> e in u.t.events && Matches(u.t, e, k, u.t.events[e].tenant)
  {
    var u := Next(c, s, step);
    forall e, k | (e, k) in u.fanout ensures e in u.t.events && Matches(u.t, e, k, u.t.events[e].tenant) {
      if (e, k) in s.fanout { ExtendsKeepsMatches(s.t, u.t, e, k, s.t.events[e].tenant); }
    }
  }

  lemma StepKeepsHandles(c: Config, s: State, step: Step)
    requires Enabled(s, step) && Agreed(s) && Extends(s.t, Next(c, s, step).t)
    ensures var u := Next(c, s, step);
      && (forall h :: h in u.holds ==> h.delivery in u.t.deliveries)
      && (forall r :: r in u.acks ==> u.acks[r].delivery in u.t.deliveries)
  {
  }

  lemma ReplayStepKeepsReplays(c: Config, s: State, step: Step)
    requires Enabled(s, step) && Agreed(s) && Extends(s.t, Next(c, s, step).t)
    requires step.ReplayCheck? || step.ReplayEnqueue? || step.ReplayMark?
    ensures var u := Next(c, s, step); forall r :: r in u.replays ==> u.replays[r].letter in s.t.deadLetters
  {
  }

  lemma OtherStepsLeaveReplays(c: Config, s: State, step: Step)
    requires Enabled(s, step) && !step.ReplayCheck? && !step.ReplayEnqueue? && !step.ReplayMark?
    ensures Next(c, s, step).replays == s.replays
  {
  }

  lemma StepKeepsReplays(c: Config, s: State, step: Step)
    requires Enabled(s, step) && Agreed(s) && Extends(s.t, Next(c, s, step).t)
    ensures var u := Next(c, s, step); forall r :: r in u.replays ==> u.replays[r].letter in u.t.deadLetters
  {
    if step.ReplayCheck? || step.ReplayEnqueue? || step.ReplayMark? {
      ReplayStepKeepsReplays(c, s, step);
    } else {
      OtherStepsLeaveReplays(c, s, step);
    }
  }

  lemma StepKeepsReferences(c: Config, s: State, step: Step)
    requires Enabled(s, step) && Agreed(s)
    ensures References(Next(c, s, step))
  {
    StepExtends(c, s, step);
    StepKeepsFanout(c, s, step);
    StepKeepsHandles(c, s, step);
    StepKeepsReplays(c, s, step);
  }

  /** In every run the rows of the tables agree. */
  lemma {:induction false} RunsAgree(c: Config, run: Run)
    requires Possible(c, run)
    ensures Agreed(Final(c, run))
  {
    if run.Do? {
      RunsAgree(c, run.prev);
      StepKeepsRowsAgree(c, Final(c, run.prev), run.step);
      StepKeepsReferences(c, Final(c, run.prev), run.step);
    }
  }
}
