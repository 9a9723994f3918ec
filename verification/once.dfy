/** Exactly one delivery token per event and consumer, through any chain of failure, dead
    letter and replay. */
module AtMostOnce {
  import opened Schema
  import opened Protocol
  import opened RowAgreement
  import opened Leases
  import opened DeadLetters

  predicate PairRow(t: Tables, e: Id, c: Id, d: Id) {
    d in t.deliveries && t.deliveries[d].event == e && t.deliveries[d].consumer == c
  }

  predicate PairLetter(t: Tables, e: Id, c: Id, l: Id) {
    l in t.deadLetters && t.deadLetters[l].event == e && t.deadLetters[l].consumer == c
  }

  function Rows(t: Tables, e: Id, c: Id): set<Id> {
    set d | d in t.deliveries && PairRow(t, e, c, d)
  }

  function Unfailed(t: Tables, e: Id, c: Id): set<Id> {
    set d | d in t.deliveries && PairRow(t, e, c, d) && t.deliveries[d].status != Failed
  }

  function Letters(t: Tables, e: Id, c: Id): set<Id> {
    set l | l in t.deadLetters && PairLetter(t, e, c, l)
  }

  function Unreplayed(t: Tables, e: Id, c: Id): set<Id> {
    set l | l in t.deadLetters && PairLetter(t, e, c, l) && !t.deadLetters[l].replayed
  }

  /** The places where the one delivery of a pair can be: not yet inserted, in a row that has
      not failed, or in a dead letter that was not replayed. */
  function Tokens(s: State, e: Id, c: Id): nat {
    (if (e, c) in s.fanout then 1 else 0) + |Unfailed(s.t, e, c)| + |Unreplayed(s.t, e, c)|
  }

  /** The pairs that some fan-out has ever covered. */
  ghost function Paired(run: Run): set<(Id, Id)> {
    match run
    case Start(_) => {}
    case Do(prev, step) => PairedAfter(Paired(prev), step)
  }

  ghost function PairedAfter(paired: set<(Id, Id)>, step: Step): set<(Id, Id)> {
    if step.ReadConsumers? then paired + set c | c in step.page :: (step.e, c) else paired
  }

  ghost predicate TokensConserved(s: State, paired: set<(Id, Id)>) {
    && (forall e: Id, c: Id :: Tokens(s, e, c) == if (e, c) in paired then 1 else 0)
    && (forall e: Id, c: Id :: (e, c) in paired ==> e in s.fannedOut)
  }

  lemma GiveUpMovesToken(t: Tables, d: Id, letter: Id, now: Time, e: Id, c: Id)
    requires RowsAgree(t) && LettersNameFailed(t) && letter !in t.deadLetters
    requires PairRow(t, e, c, d) && t.deliveries[d].status != Failed
    ensures var u := Apply(t, d, GiveUp(letter), now);
      Unfailed(u, e, c) == Unfailed(t, e, c) - {d} && Unreplayed(u, e, c) == Unreplayed(t, e, c) + {letter}
  {
    assert t.deliveries[d].event in t.events;
  }

  lemma WriteKeepsPlaces(t: Tables, d: Id, w: Write, now: Time, e: Id, c: Id)
    requires w.GiveUp? ==> w.letter !in t.deadLetters && !PairRow(t, e, c, d)
    requires d in t.deliveries && t.deliveries[d].status != Failed
    ensures var u := Apply(t, d, w, now);
      Unfailed(u, e, c) == Unfailed(t, e, c) && Unreplayed(u, e, c) == Unreplayed(t, e, c)
  {
  }

  /** Only the protocol's own moves take a token from one place to the next. */
  lemma WriteMovesToken(t: Tables, d: Id, w: Write, now: Time, e: Id, c: Id)
    requires RowsAgree(t) && LettersNameFailed(t) && (w.GiveUp? ==> w.letter !in t.deadLetters)
    requires d in t.deliveries && t.deliveries[d].status != Failed
    ensures var u := Apply(t, d, w, now);
      |Unfailed(u, e, c)| + |Unreplayed(u, e, c)| == |Unfailed(t, e, c)| + |Unreplayed(t, e, c)|
  {
    if w.GiveUp? && PairRow(t, e, c, d) {
      GiveUpMovesToken(t, d, w.letter, now, e, c);
    } else {
      WriteKeepsPlaces(t, d, w, now, e, c);
    }
  }

  lemma InsertAddsToken(t: Tables, d: Id, row: Delivery, e: Id, c: Id)
    requires d !in t.deliveries && row.status == Pending
    ensures Unfailed(SetRow(t, d, row), e, c)
      == if row.event == e && row.consumer == c then Unfailed(t, e, c) + {d} else Unfailed(t, e, c)
    ensures Unreplayed(SetRow(t, d, row), e, c) == Unreplayed(t, e, c)
  {
  }

  lemma MarkTakesToken(t: Tables, letter: Id, e: Id, c: Id)
    requires letter in t.deadLetters && !t.deadLetters[letter].replayed
    ensures Unreplayed(MarkReplayed(t, letter), e, c)
      == if PairLetter(t, e, c, letter) then Unreplayed(t, e, c) - {letter} else Unreplayed(t, e, c)
    ensures Unfailed(MarkReplayed(t, letter), e, c) == Unfailed(t, e, c)
  {
  }

  lemma ReplayMovesToken(t: Tables, letter: Id, d: Id, at: Time, e: Id, c: Id)
    requires Replayable(t, letter) && d !in t.deliveries
    ensures var u := MarkReplayed(ReplayRow(t, letter, d, at), letter);
      |Unfailed(u, e, c)| + |Unreplayed(u, e, c)| == |Unfailed(t, e, c)| + |Unreplayed(t, e, c)|
  {
    var record := t.deadLetters[letter];
    InsertAddsToken(t, d, NewDelivery(record.tenant, record.event, record.consumer, 0, at), e, c);
    MarkTakesToken(ReplayRow(t, letter, d, at), letter, e, c);
    assert PairLetter(t, e, c, letter) ==> letter in Unreplayed(t, e, c);
  }

  lemma EnqueueMovesToken(c: Config, s: State, step: Step, e: Id, k: Id)
    requires Enabled(s, step) && step.EnqueueOriginal?
    ensures Tokens(Next(c, s, step), e, k) == Tokens(s, e, k)
  {
    InsertAddsToken(s.t, step.d, NewDelivery(s.t.events[step.e].tenant, step.e, step.c, 0, step.at), e, k);
  }

  lemma OtherStepsKeepTokens(c: Config, s: State, step: Step, e: Id, k: Id)
    requires Enabled(s, step) && !IsWrite(step) && OwnReplay(step)
    requires !step.EnqueueOriginal? && !step.ReplayAtomic?
    ensures Unfailed(Next(c, s, step).t, e, k) == Unfailed(s.t, e, k)
    ensures Unreplayed(Next(c, s, step).t, e, k) == Unreplayed(s.t, e, k)
    ensures !step.ReadConsumers? ==> Next(c, s, step).fanout == s.fanout
  {
  }

  lemma StepConservesToken(c: Config, s: State, paired: set<(Id, Id)>, step: Step, e: Id, k: Id)
    requires Enabled(s, step) && LeaseInvariant(c, s) && InLease(c, s, step) && OwnAck(s, step) && OwnReplay(step)
    requires RowsAgree(s.t) && LettersNameFailed(s.t) && TokensConserved(s, paired)
    ensures Tokens(Next(c, s, step), e, k) == if (e, k) in PairedAfter(paired, step) then 1 else 0
  {
    assert Tokens(s, e, k) == if (e, k) in paired then 1 else 0;
    if IsWrite(step) {
      LeasedWrite(c, s, step);
      var (d, w) := StepWrite(c, s, step);
      WriteMovesToken(s.t, d, w, s.now, e, k);
    } else if step.ReplayAtomic? {
      ReplayMovesToken(s.t, step.letter, step.d, step.at, e, k);
    } else if step.EnqueueOriginal? {
      EnqueueMovesToken(c, s, step, e, k);
    } else {
      OtherStepsKeepTokens(c, s, step, e, k);
    }
  }

  lemma StepConservesTokens(c: Config, s: State, paired: set<(Id, Id)>, step: Step)
    requires Enabled(s, step) && LeaseInvariant(c, s) && InLease(c, s, step) && OwnAck(s, step) && OwnReplay(step)
    requires RowsAgree(s.t) && LettersNameFailed(s.t) && TokensConserved(s, paired)
    ensures TokensConserved(Next(c, s, step), PairedAfter(paired, step))
  {
    forall e: Id, k: Id
      ensures Tokens(Next(c, s, step), e, k) == if (e, k) in PairedAfter(paired, step) then 1 else 0
    {
      StepConservesToken(c, s, paired, step, e, k);
    }
  }

  /** Under H1, H2 and H3 every fanned-out pair has exactly one token, and no other pair has any. */
  lemma {:induction false} TokensHold(c: Config, run: Run)
    requires Possible(c, run) && Leased(c, run) && AtomicReplays(run)
    ensures TokensConserved(Final(c, run), Paired(run))
  {
    match run
    case Start(at) =>
      assert forall e: Id, k: Id :: Tokens(Initial(at), e, k) == 0;
    case Do(prev, step) =>
      TokensHold(c, prev);
      RunsAgree(c, prev);
      LeasesHold(c, prev);
      LettersHold(c, prev);
      StepConservesTokens(c, Final(c, prev), Paired(prev), step);
  }

  // ---------------------------------------------------------------- counting rows

  lemma {:induction false} InjectiveImageSize(letters: set<Id>, m: map<Id, DeadLetter>)
    requires letters <= m.Keys
    requires forall l, k :: l in letters && k in letters && m[l].delivery == m[k].delivery ==> l == k
    ensures |set l | l in letters :: m[l].delivery| == |letters|
  {
    if letters != {} {
      var x :| x in letters;
      var rest := letters - {x};
      InjectiveImageSize(rest, m);
      assert (set l | l in letters :: m[l].delivery) == (set l | l in rest :: m[l].delivery) + {m[x].delivery};
    }
  }

  lemma FailedNamed(t: Tables, e: Id, c: Id)
    requires RowsAgree(t) && FailedHaveLetters(t) && LettersNameFailed(t)
    ensures Rows(t, e, c) - Unfailed(t, e, c) == set l | l in Letters(t, e, c) :: t.deadLetters[l].delivery
  {
    forall d | d in Rows(t, e, c) - Unfailed(t, e, c)
      ensures d in set l | l in Letters(t, e, c) :: t.deadLetters[l].delivery
    {
      var l :| Names(t, l, d);
      assert l in Letters(t, e, c);
    }
  }

  /** Failed rows and dead letters of a pair correspond one to one. */
  lemma FailedCount(t: Tables, e: Id, c: Id)
    requires RowsAgree(t) && FailedHaveLetters(t) && LettersNameFailed(t)
    ensures |Rows(t, e, c)| == |Unfailed(t, e, c)| + |Letters(t, e, c)|
  {
    InjectiveImageSize(Letters(t, e, c), t.deadLetters);
    FailedNamed(t, e, c);
    assert Unfailed(t, e, c) <= Rows(t, e, c);
  }

  /** Every row the pair ever had that was once `delivered`. */
  ghost predicate EverDelivered(c: Config, run: Run, d: Id)
    requires Possible(c, run)
  {
    || (d in Final(c, run).t.deliveries && Final(c, run).t.deliveries[d].status == Delivered)
    || (run.Do? && EverDelivered(c, run.prev, d))
  }

  lemma {:induction false} EverDeliveredIsDelivered(c: Config, run: Run, d: Id)
    requires Possible(c, run) && Leased(c, run) && EverDelivered(c, run, d)
    ensures d in Final(c, run).t.deliveries && Final(c, run).t.deliveries[d].status == Delivered
  {
    if !(d in Final(c, run).t.deliveries && Final(c, run).t.deliveries[d].status == Delivered) {
      EverDeliveredIsDelivered(c, run.prev, d);
      LeasesHold(c, run.prev);
      StepKeepsClosed(c, Final(c, run.prev), run.step, d);
    }
  }

  lemma SingletonRows(s: set<Id>, a: Id, b: Id)
    requires |s| <= 1 && a in s && b in s
    ensures a == b
  {
    assert |s - {a}| == |s| - 1;
    assert s - {a} == {};
  }

  /** Under H1, H2 and H3 the rows of a fanned-out pair number one (once its insert has happened)
      plus its replayed dead letters, so at most one of them has not failed. */
  lemma {:induction false} RowsPerPair(c: Config, run: Run, e: Id, k: Id)
    requires Possible(c, run) && Leased(c, run) && AtomicReplays(run)
    ensures var s := Final(c, run);
      var replayed := Letters(s.t, e, k) - Unreplayed(s.t, e, k);
      var inserted := if (e, k) in Paired(run) && (e, k) !in s.fanout then 1 else 0;
      |Rows(s.t, e, k)| == inserted + |replayed| && |Unfailed(s.t, e, k)| <= 1
  {
    var s := Final(c, run);
    TokensHold(c, run);
    RunsAgree(c, run);
    FailedMeansDeadLettered(c, run);
    LettersHold(c, run);
    FailedCount(s.t, e, k);
    assert Unreplayed(s.t, e, k) <= Letters(s.t, e, k);
    assert Tokens(s, e, k) == if (e, k) in Paired(run) then 1 else 0;
    assert (e, k) in s.fanout ==> Tokens(s, e, k) >= 1;
  }

  /** At most one row of a pair is ever `delivered`, over the whole run. */
  lemma {:induction false} DeliveredAtMostOnce(c: Config, run: Run, a: Id, b: Id)
    requires Possible(c, run) && Leased(c, run) && AtomicReplays(run)
    requires EverDelivered(c, run, a) && EverDelivered(c, run, b)
    requires a in Final(c, run).t.deliveries && b in Final(c, run).t.deliveries
    requires Final(c, run).t.deliveries[a].event == Final(c, run).t.deliveries[b].event
    requires Final(c, run).t.deliveries[a].consumer == Final(c, run).t.deliveries[b].consumer
    ensures a == b
  {
    var t := Final(c, run).t;
    var e, k := t.deliveries[a].event, t.deliveries[a].consumer;
    EverDeliveredIsDelivered(c, run, a);
    EverDeliveredIsDelivered(c, run, b);
    RowsPerPair(c, run, e, k);
    SingletonRows(Unfailed(t, e, k), a, b);
  }
}
