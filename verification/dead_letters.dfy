/** Dead letters against failed deliveries. */
module DeadLetters {
  import opened Schema
  import opened Protocol
  import opened RowAgreement
  import opened Leases

  predicate Names(t: Tables, l: Id, d: Id) {
    l in t.deadLetters && t.deadLetters[l].delivery == d
  }

  ghost predicate FailedHaveLetters(t: Tables) {
    forall d :: d in t.deliveries && t.deliveries[d].status == Failed ==> exists l :: Names(t, l, d)
  }

  ghost predicate LettersNameFailed(t: Tables) {
    && (forall l :: l in t.deadLetters ==>
          t.deadLetters[l].delivery in t.deliveries && t.deliveries[t.deadLetters[l].delivery].status == Failed)
    && (forall l, k ::
          l in t.deadLetters && k in t.deadLetters && t.deadLetters[l].delivery == t.deadLetters[k].delivery ==> l == k)
  }

  lemma NewlyFailedByWrite(t: Tables, written: Id, w: Write, now: Time, d: Id)
    requires d in Apply(t, written, w, now).deliveries && Apply(t, written, w, now).deliveries[d].status == Failed
    requires d in t.deliveries ==> t.deliveries[d].status != Failed
    ensures written == d && w.GiveUp? && Names(Apply(t, written, w, now), w.letter, d)
  {
  }

  lemma OnlyWritesFail(c: Config, s: State, step: Step, d: Id)
    requires Enabled(s, step) && !IsWrite(step)
    requires d in Next(c, s, step).t.deliveries && Next(c, s, step).t.deliveries[d].status == Failed
    ensures d in s.t.deliveries && s.t.deliveries[d].status == Failed
  {
  }

  lemma StepKeepsFailedHaveLetters(c: Config, s: State, step: Step)
    requires Enabled(s, step) && FailedHaveLetters(s.t)
    ensures FailedHaveLetters(Next(c, s, step).t)
  {
    var u := Next(c, s, step).t;
    StepExtends(c, s, step);
    forall d | d in u.deliveries && u.deliveries[d].status == Failed ensures exists l :: Names(u, l, d) {
      if d in s.t.deliveries && s.t.deliveries[d].status == Failed {
        var l :| Names(s.t, l, d);
        assert Names(u, l, d);
      } else {
        if !IsWrite(step) { OnlyWritesFail(c, s, step, d); }
        var (written, w) := StepWrite(c, s, step);
        NewlyFailedByWrite(s.t, written, w, s.now, d);
      }
    }
  }

  /** In every run a failed delivery has a dead letter, stale holders or not. */
  lemma {:induction false} FailedMeansDeadLettered(c: Config, run: Run)
    requires Possible(c, run)
    ensures FailedHaveLetters(Final(c, run).t)
  {
    if run.Do? {
      FailedMeansDeadLettered(c, run.prev);
      StepKeepsFailedHaveLetters(c, Final(c, run.prev), run.step);
    }
  }

  lemma WriteKeepsLetters(t: Tables, d: Id, w: Write, now: Time)
    requires LettersNameFailed(t) && (w.GiveUp? ==> w.letter !in t.deadLetters)
    requires d in t.deliveries && t.deliveries[d].status != Failed
    ensures LettersNameFailed(Apply(t, d, w, now))
  {
  }

  lemma StepKeepsLetters(c: Config, s: State, step: Step)
    requires Enabled(s, step) && LeaseInvariant(c, s) && InLease(c, s, step) && OwnAck(s, step)
    requires LettersNameFailed(s.t)
    ensures LettersNameFailed(Next(c, s, step).t)
  {
    if IsWrite(step) {
      LeasedWrite(c, s, step);
      var (d, w) := StepWrite(c, s, step);
      WriteKeepsLetters(s.t, d, w, s.now);
    }
  }

  lemma {:induction false} LettersHold(c: Config, run: Run)
    requires Possible(c, run) && Leased(c, run)
    ensures LettersNameFailed(Final(c, run).t)
  {
    if run.Do? {
      LettersHold(c, run.prev);
      LeasesHold(c, run.prev);
      StepKeepsLetters(c, Final(c, run.prev), run.step);
    }
  }

  ghost predicate OneLetter(t: Tables, d: Id) {
    exists l :: Names(t, l, d) && forall k :: Names(t, k, d) ==> k == l
  }

  lemma FailedIffOneLetter(t: Tables, d: Id)
    requires FailedHaveLetters(t) && LettersNameFailed(t) && d in t.deliveries
    ensures t.deliveries[d].status == Failed <==> OneLetter(t, d)
    ensures t.deliveries[d].status == Failed <==> exists l :: Names(t, l, d)
  {
    if l :| Names(t, l, d) {
      assert forall k :: Names(t, k, d) ==> k == l;
    }
  }

  /** Under H1 and H2 a delivery is `failed` exactly when exactly one dead letter names it, exactly
      when any does, and that record repeats the delivery's identifiers and the event's payload. */
  lemma {:induction false} DeadLetterBijection(c: Config, run: Run, d: Id)
    requires Possible(c, run) && Leased(c, run) && d in Final(c, run).t.deliveries
    ensures var t := Final(c, run).t;
      && (t.deliveries[d].status == Failed <==> OneLetter(t, d))
      && (t.deliveries[d].status == Failed <==> exists l :: Names(t, l, d))
      && (forall l :: Names(t, l, d) ==> LetterAgrees(t, t.deadLetters[l]))
  {
    FailedMeansDeadLettered(c, run);
    LettersHold(c, run);
    RunsAgree(c, run);
    FailedIffOneLetter(Final(c, run).t, d);
  }
}
