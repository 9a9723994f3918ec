/** The attempts of one poll run together: each reads and decides, makes its closing write, and
    syncs the event of a delivered row, in whatever order the attempts get their turns. */
module PollInterleavings {
  import opened Options
  import opened Checksum
  import opened Schema
  import opened ClaimSelection
  import opened QueueEngine
  import opened Protocol
  import opened DeliveryServices

  /** One poll: the tables before its claim, what it claimed and when, and what each exchange
      ends in. */
  datatype Poll = Poll(c: Config, hash: Hash, before: Tables, claimed: seq<ClaimedEvent>, at: Time,
                       responses: Id -> Response)

  /** `Wrote` carries the new dead letter's id and the time of the statement. */
  datatype Turn = Decides(i: nat) | Writes(i: nat, letter: Id, now: Time) | Syncs(i: nat, now: Time)

  datatype Written = Written(letter: Id, now: Time)

  datatype PollState = PollState(
    t: Tables,
    waiting: set<nat>,
    decided: map<nat, Outcome>,
    written: map<nat, Written>,
    unsynced: set<nat>,
    records: seq<M.Record>)

  datatype PollRun = Claimed | Then(prev: PollRun, turn: Turn)

  ghost predicate ValidPoll(p: Poll) {
    SnapshotsOf(p.before, p.claimed) && Distinct(Ids(p.claimed))
  }

  function ResponseTo(p: Poll, i: nat): Response
    requires i < |p.claimed|
  {
    p.responses(p.claimed[i].id)
  }

  function WriteOf(p: Poll, i: nat, o: Outcome, letter: Id): Write
    requires i < |p.claimed|
  {
    ClosingWrite(p.c, p.claimed[i].attempt, o, letter)
  }

  ghost predicate CanTake(p: Poll, s: PollState, turn: Turn) {
    turn.i < |p.claimed| &&
    match turn
    case Decides(i) => i in s.waiting
    case Writes(i, _, _) => i in s.decided
    case Syncs(i, _) => i in s.unsynced
  }

  /** An attempt whose event is gone ends with its decision. A success is recorded after its sync,
      everything else with its write. */
  ghost function AfterTurn(p: Poll, s: PollState, turn: Turn): PollState
    requires CanTake(p, s, turn)
  {
    var delivery := p.claimed[turn.i];
    match turn
    case Decides(i) =>
      (match OutcomeOf(p.hash, s.t, delivery, ResponseTo(p, i))
       case None => s.(waiting := s.waiting - {i})
       case Some(o) => s.(waiting := s.waiting - {i}, decided := s.decided[i := o]))
    case Writes(i, letter, now) =>
      var o := s.decided[i];
      var u := s.(t := Apply(s.t, delivery.id, WriteOf(p, i, o, letter), now), decided := s.decided - {i},
                  written := s.written[i := Written(letter, now)]);
      if o.Success? then u.(unsynced := s.unsynced + {i})
      else u.(records := s.records + RecordsOf(p.c, delivery, Some(o), ResponseTo(p, i)))
    case Syncs(i, now) =>
      s.(t := SyncEvent(s.t, delivery.event, now), unsynced := s.unsynced - {i},
         records := s.records + RecordsOf(p.c, delivery, Some(Success), ResponseTo(p, i)))
  }

  function Indices(n: nat): (r: set<nat>)
    ensures forall i: nat :: i in r <==> i < n
  {
    if n == 0 then {} else Indices(n - 1) + {n - 1}
  }

  ghost predicate PossibleTurns(p: Poll, run: PollRun)
    requires ValidPoll(p)
    decreases run, 0
  {
    run.Claimed? || (PossibleTurns(p, run.prev) && CanTake(p, PollEnd(p, run.prev), run.turn))
  }

  ghost function PollEnd(p: Poll, run: PollRun): PollState
    requires ValidPoll(p) && PossibleTurns(p, run)
    decreases run, 1
  {
    match run
    case Claimed =>
      ClaimedEventIds(p.before, p.claimed);
      PollState(ClaimRows(p.before, Elements(Ids(p.claimed)), p.at), Indices(|p.claimed|), map[], map[], {}, [])
    case Then(prev, turn) => AfterTurn(p, PollEnd(p, prev), turn)
  }

  /** Every attempt has come to its end. */
  predicate AllSettled(s: PollState) {
    s.waiting == {} && s.decided == map[] && s.unsynced == {}
  }

  // ---------------------------------------------------------------- rows

  ghost function OutcomeAt(p: Poll, i: nat): Option<Outcome>
    requires i < |p.claimed|
  {
    OutcomeOf(p.hash, p.before, p.claimed[i], ResponseTo(p, i))
  }

  /** The row was closed by the write of its own attempt's outcome. */
  ghost predicate RowClosed(p: Poll, t: Tables, i: nat, w: Written)
    requires i < |p.claimed|
  {
    var d := p.claimed[i].id;
    && d in p.before.deliveries && d in t.deliveries && OutcomeAt(p, i).Some?
    && t.deliveries[d] ==
         WriteRow(TakenRow(p.before, d, p.at), WriteOf(p, i, OutcomeAt(p, i).value, w.letter), w.now)
  }

  ghost predicate RowsInPhase(p: Poll, s: PollState) {
    && SamePayloads(p.before, s.t)
    && (forall d :: d in p.before.deliveries && d !in Ids(p.claimed) ==>
          d in s.t.deliveries && s.t.deliveries[d] == p.before.deliveries[d])
    && forall i: nat :: i < |p.claimed| ==> AttemptInPhase(p, s, i)
  }

  ghost predicate AttemptInPhase(p: Poll, s: PollState, i: nat)
    requires i < |p.claimed|
  {
    && OutcomeAt(p, i).Some?
    && (i in s.waiting || i in s.decided || i in s.written)
    && (i in s.waiting || i in s.decided ==> StillTaken(p.before, s.t, p.claimed[i].id, p.at) && i !in s.written)
    && (i in s.decided ==> i !in s.waiting && s.decided[i] == OutcomeAt(p, i).value)
    && (i in s.written ==> RowClosed(p, s.t, i, s.written[i]))
    && (i in s.unsynced ==> i in s.written && OutcomeAt(p, i) == Some(Success))
  }

  lemma PollBegins(p: Poll)
    requires ValidPoll(p)
    ensures RowsInPhase(p, PollEnd(p, Claimed))
  {
    ClaimKeepsPayloads(p.before, p.claimed, p.at);
    var s := PollEnd(p, Claimed);
    forall i: nat | i < |p.claimed| ensures AttemptInPhase(p, s, i) {
      assert Ids(p.claimed)[i] in Elements(Ids(p.claimed));
    }
  }

  lemma DecideKeepsPhases(p: Poll, s: PollState, i: nat)
    requires ValidPoll(p) && CanTake(p, s, Decides(i)) && RowsInPhase(p, s)
    ensures RowsInPhase(p, AfterTurn(p, s, Decides(i)))
  {
    var u := AfterTurn(p, s, Decides(i));
    assert AttemptInPhase(p, s, i);
    assert OutcomeOf(p.hash, s.t, p.claimed[i], ResponseTo(p, i)) == OutcomeAt(p, i);
    forall j: nat | j < |p.claimed| ensures AttemptInPhase(p, u, j) { assert AttemptInPhase(p, s, j); }
  }

  /** A step that leaves the attempt's row and its phase alone. */
  lemma OtherAttemptKeepsPhase(p: Poll, s: PollState, u: PollState, j: nat)
    requires j < |p.claimed| && AttemptInPhase(p, s, j)
    requires p.claimed[j].id in s.t.deliveries && p.claimed[j].id in u.t.deliveries
    requires u.t.deliveries[p.claimed[j].id] == s.t.deliveries[p.claimed[j].id]
    requires (j in u.waiting <==> j in s.waiting) && (j in u.unsynced <==> j in s.unsynced)
    requires (j in u.decided <==> j in s.decided) && (j in s.decided ==> u.decided[j] == s.decided[j])
    requires (j in u.written <==> j in s.written) && (j in s.written ==> u.written[j] == s.written[j])
    ensures AttemptInPhase(p, u, j)
  {
  }

  lemma WriteClosesRow(p: Poll, s: PollState, i: nat, letter: Id, now: Time)
    requires ValidPoll(p) && CanTake(p, s, Writes(i, letter, now)) && RowsInPhase(p, s)
    ensures var u := AfterTurn(p, s, Writes(i, letter, now));
      && SamePayloads(p.before, u.t) && AttemptInPhase(p, u, i)
      && (forall d :: d in s.t.deliveries && d != p.claimed[i].id ==>
            d in u.t.deliveries && u.t.deliveries[d] == s.t.deliveries[d])
  {
    assert AttemptInPhase(p, s, i);
    WriteTouches(s.t, p.claimed[i].id, WriteOf(p, i, s.decided[i], letter), now);
  }

  lemma WriteKeepsPhases(p: Poll, s: PollState, i: nat, letter: Id, now: Time)
    requires ValidPoll(p) && CanTake(p, s, Writes(i, letter, now)) && RowsInPhase(p, s)
    ensures RowsInPhase(p, AfterTurn(p, s, Writes(i, letter, now)))
  {
    var u, ids := AfterTurn(p, s, Writes(i, letter, now)), Ids(p.claimed);
    WriteClosesRow(p, s, i, letter, now);
    assert ids[i] == p.claimed[i].id;
    forall j: nat | j < |p.claimed| && j != i ensures AttemptInPhase(p, u, j) {
      assert AttemptInPhase(p, s, j);
      assert ids[j] == p.claimed[j].id && ids[j] != ids[i];
      OtherAttemptKeepsPhase(p, s, u, j);
    }
  }

  lemma SyncKeepsPhases(p: Poll, s: PollState, i: nat, now: Time)
    requires ValidPoll(p) && CanTake(p, s, Syncs(i, now)) && RowsInPhase(p, s)
    ensures RowsInPhase(p, AfterTurn(p, s, Syncs(i, now)))
  {
    var u := AfterTurn(p, s, Syncs(i, now));
    SyncTouches(s.t, p.claimed[i].event, now);
    forall j: nat | j < |p.claimed| ensures AttemptInPhase(p, u, j) { assert AttemptInPhase(p, s, j); }
  }

  lemma {:induction false} PhasesHold(p: Poll, run: PollRun)
    requires ValidPoll(p) && PossibleTurns(p, run)
    ensures RowsInPhase(p, PollEnd(p, run))
  {
    match run
    case Claimed => PollBegins(p);
    case Then(prev, turn) =>
      var s := PollEnd(p, prev);
      PhasesHold(p, prev);
      match turn
      case Decides(i) => DecideKeepsPhases(p, s, i);
      case Writes(i, letter, now) => WriteKeepsPhases(p, s, i, letter, now);
      case Syncs(i, now) => SyncKeepsPhases(p, s, i, now);
  }

  // ---------------------------------------------------------------- metrics

  /** Whether the attempt has made its record, if it makes one. */
  predicate HasRecorded(s: PollState, i: nat) {
    i in s.written && i !in s.unsynced
  }

  /** What the attempts below `n` that have come to their record count for the tenant. */
  ghost function CountedBelow(p: Poll, s: PollState, n: nat, t: M.Tenant, q: M.Quantity): nat
    requires n <= |p.claimed|
  {
    if n == 0 then 0
    else
      CountedBelow(p, s, n - 1, t, q)
      + if HasRecorded(s, n - 1) then Share(p, n - 1, t, q) else 0
  }

  ghost function RecordsAt(p: Poll, i: nat): seq<M.Record>
    requires i < |p.claimed|
  {
    RecordsOf(p.c, p.claimed[i], OutcomeAt(p, i), ResponseTo(p, i))
  }

  ghost function Share(p: Poll, i: nat, t: M.Tenant, q: M.Quantity): nat
    requires i < |p.claimed|
  {
    M.CountedAll(RecordsAt(p, i), t, q)
  }

  lemma {:induction false} OneMoreRecorded(p: Poll, s: PollState, u: PollState, i: nat, n: nat, t: M.Tenant,
                                           q: M.Quantity)
    requires n <= |p.claimed| && i < |p.claimed| && !HasRecorded(s, i) && HasRecorded(u, i)
    requires forall j: nat :: j < |p.claimed| && j != i ==> HasRecorded(u, j) == HasRecorded(s, j)
    ensures CountedBelow(p, u, n, t, q) == CountedBelow(p, s, n, t, q) + if i < n then Share(p, i, t, q) else 0
  {
    if n > 0 { OneMoreRecorded(p, s, u, i, n - 1, t, q); }
  }

  lemma {:induction false} SameRecorded(p: Poll, s: PollState, u: PollState, n: nat, t: M.Tenant, q: M.Quantity)
    requires n <= |p.claimed|
    requires forall j: nat :: j < |p.claimed| ==> HasRecorded(u, j) == HasRecorded(s, j)
    ensures CountedBelow(p, u, n, t, q) == CountedBelow(p, s, n, t, q)
  {
    if n > 0 { SameRecorded(p, s, u, n - 1, t, q); }
  }

  /** A turn that makes the attempt's record. */
  lemma RecordCounts(p: Poll, s: PollState, u: PollState, i: nat, t: M.Tenant, q: M.Quantity)
    requires i < |p.claimed| && M.CountedAll(s.records, t, q) == CountedBelow(p, s, |p.claimed|, t, q)
    requires u.records == s.records + RecordsAt(p, i)
    requires !HasRecorded(s, i) && HasRecorded(u, i)
    requires forall j: nat :: j < |p.claimed| && j != i ==> HasRecorded(u, j) == HasRecorded(s, j)
    ensures M.CountedAll(u.records, t, q) == CountedBelow(p, u, |p.claimed|, t, q)
  {
    M.CountedConcat(s.records, RecordsAt(p, i), t, q);
    OneMoreRecorded(p, s, u, i, |p.claimed|, t, q);
  }

  lemma TurnCounts(p: Poll, s: PollState, turn: Turn, t: M.Tenant, q: M.Quantity)
    requires ValidPoll(p) && CanTake(p, s, turn) && RowsInPhase(p, s)
    requires M.CountedAll(s.records, t, q) == CountedBelow(p, s, |p.claimed|, t, q)
    ensures var u := AfterTurn(p, s, turn);
      M.CountedAll(u.records, t, q) == CountedBelow(p, u, |p.claimed|, t, q)
  {
    var u, i := AfterTurn(p, s, turn), turn.i;
    assert AttemptInPhase(p, s, i);
    match turn
    case Decides(_) => SameRecorded(p, s, u, |p.claimed|, t, q);
    case Writes(_, _, _) =>
      if s.decided[i].Success? {
        SameRecorded(p, s, u, |p.claimed|, t, q);
      } else {
        RecordCounts(p, s, u, i, t, q);
      }
    case Syncs(_, _) => RecordCounts(p, s, u, i, t, q);
  }

  lemma {:induction false} NothingCounted(p: Poll, s: PollState, n: nat, t: M.Tenant, q: M.Quantity)
    requires n <= |p.claimed| && s.written == map[]
    ensures CountedBelow(p, s, n, t, q) == 0
  {
    if n > 0 { NothingCounted(p, s, n - 1, t, q); }
  }

  lemma {:induction false} RecordsCounted(p: Poll, run: PollRun, t: M.Tenant, q: M.Quantity)
    requires ValidPoll(p) && PossibleTurns(p, run)
    ensures M.CountedAll(PollEnd(p, run).records, t, q) == CountedBelow(p, PollEnd(p, run), |p.claimed|, t, q)
  {
    match run
    case Claimed => NothingCounted(p, PollEnd(p, run), |p.claimed|, t, q);
    case Then(prev, turn) =>
      PhasesHold(p, prev);
      RecordsCounted(p, prev, t, q);
      TurnCounts(p, PollEnd(p, prev), turn, t, q);
  }

  /** What the first `n` attempts count when they run one after the other. */
  ghost function InTurn(p: Poll, n: nat, t: M.Tenant, q: M.Quantity): nat
    requires n <= |p.claimed|
  {
    if n == 0 then 0 else InTurn(p, n - 1, t, q) + Share(p, n - 1, t, q)
  }

  lemma {:induction false} AllCounted(p: Poll, s: PollState, n: nat, t: M.Tenant, q: M.Quantity)
    requires n <= |p.claimed| && forall i: nat :: i < |p.claimed| ==> HasRecorded(s, i)
    ensures CountedBelow(p, s, n, t, q) == InTurn(p, n, t, q)
  {
    if n > 0 {
      AllCounted(p, s, n - 1, t, q);
      assert HasRecorded(s, n - 1);
    }
  }

  /** What the first `n` attempts record when they run one after the other. */
  ghost function RecordsBelow(p: Poll, n: nat): seq<M.Record>
    requires n <= |p.claimed|
  {
    if n == 0 then [] else RecordsBelow(p, n - 1) + RecordsAt(p, n - 1)
  }

  lemma {:induction false} RecordsBelowArePollRecords(p: Poll, n: nat)
    requires n <= |p.claimed|
    ensures RecordsBelow(p, n) == PollRecords(p.c, p.hash, p.before, p.claimed[..n], p.responses)
  {
    if n == 0 {
      assert p.claimed[..0] == [];
    } else {
      RecordsBelowArePollRecords(p, n - 1);
      assert p.claimed[..n][..n - 1] == p.claimed[..n - 1];
    }
  }

  lemma {:induction false} RecordsBelowCount(p: Poll, n: nat, t: M.Tenant, q: M.Quantity)
    requires n <= |p.claimed|
    ensures InTurn(p, n, t, q) == M.CountedAll(RecordsBelow(p, n), t, q)
  {
    if n > 0 {
      RecordsBelowCount(p, n - 1, t, q);
      M.CountedConcat(RecordsBelow(p, n - 1), RecordsAt(p, n - 1), t, q);
    }
  }

  lemma {:induction false} SettledRecords(p: Poll, run: PollRun, t: M.Tenant, q: M.Quantity)
    requires ValidPoll(p) && PossibleTurns(p, run) && AllSettled(PollEnd(p, run))
    ensures M.CountedAll(PollEnd(p, run).records, t, q) ==
      M.CountedAll(PollRecords(p.c, p.hash, p.before, p.claimed, p.responses), t, q)
  {
    var s := PollEnd(p, run);
    PhasesHold(p, run);
    forall i: nat | i < |p.claimed| ensures HasRecorded(s, i) { assert AttemptInPhase(p, s, i); }
    RecordsCounted(p, run, t, q);
    AllCounted(p, s, |p.claimed|, t, q);
    RecordsBelowCount(p, |p.claimed|, t, q);
    RecordsBelowArePollRecords(p, |p.claimed|);
    assert p.claimed[..|p.claimed|] == p.claimed;
  }

  /** However the attempts of a poll interleave: once all have settled, every claimed row is closed
      by its own outcome, on what was there at the claim, no other row has changed, and the
      metrics count what the attempts one after the other would. */
  lemma {:induction false} InterleavedPollCloses(p: Poll, run: PollRun, t: M.Tenant, q: M.Quantity)
    requires ValidPoll(p) && PossibleTurns(p, run) && AllSettled(PollEnd(p, run))
    ensures var s := PollEnd(p, run);
      && (forall i: nat :: i < |p.claimed| ==> i in s.written && RowClosed(p, s.t, i, s.written[i]))
      && (forall d :: d in p.before.deliveries && d !in Ids(p.claimed) ==>
            d in s.t.deliveries && s.t.deliveries[d] == p.before.deliveries[d])
      && M.CountedAll(s.records, t, q) ==
           M.CountedAll(PollRecords(p.c, p.hash, p.before, p.claimed, p.responses), t, q)
  {
    var s := PollEnd(p, run);
    PhasesHold(p, run);
    SettledRecords(p, run, t, q);
    forall i: nat | i < |p.claimed| ensures i in s.written && RowClosed(p, s.t, i, s.written[i]) {
      assert AttemptInPhase(p, s, i);
    }
  }
}
