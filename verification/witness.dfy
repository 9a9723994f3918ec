/** Runs that show each hypothesis is needed: drop one of H1, H2 and H3, keep the other two, and a
    guarantee fails, under every configuration. */
module HypothesesNeeded {
  import opened Options
  import opened Json
  import opened Schema
  import opened ClaimSelection
  import opened Protocol
  import opened Leases
  import opened AtMostOnce

  // ---------------------------------------------------------------- the hypotheses one by one

  ghost predicate AllInLease(c: Config, run: Run)
    requires Possible(c, run)
  {
    run.Do? ==> AllInLease(c, run.prev) && InLease(c, Final(c, run.prev), run.step)
  }

  ghost predicate AllOwnAcks(c: Config, run: Run)
    requires Possible(c, run)
  {
    run.Do? ==> AllOwnAcks(c, run.prev) && OwnAck(Final(c, run.prev), run.step)
  }

  /** The run ends in `s`; `h1`, `h2` and `h3` tell which hypotheses it is known to meet. */
  ghost predicate Reaches(c: Config, run: Run, s: State, h1: bool, h2: bool, h3: bool) {
    && Possible(c, run) && Final(c, run) == s
    && (h1 ==> AllInLease(c, run)) && (h2 ==> AllOwnAcks(c, run)) && (h3 ==> AtomicReplays(run))
  }

  lemma Extend(c: Config, run: Run, s: State, h1: bool, h2: bool, h3: bool, step: Step, u: State)
    requires Reaches(c, run, s, h1, h2, h3) && Enabled(s, step) && Next(c, s, step) == u
    ensures Reaches(c, Do(run, step), u, h1 && InLease(c, s, step), h2 && OwnAck(s, step), h3 && OwnReplay(step))
  {
  }

  // ---------------------------------------------------------------- one event, one push consumer

  const PUSHED := Consumer(0, 0, true, true, true, false)

  function TheEvent(status: EventStatus, startedAt: Option<Time>, processedAt: Option<Time>): Event {
    Event(0, 0, Null, 0, None, status, startedAt, processedAt)
  }

  function TheRow(status: DeliveryStatus, startedAt: Option<Time>): Delivery {
    Delivery(0, 0, 0, status, 0, 0, startedAt, None)
  }

  function World(event: Event, rows: map<Id, Delivery>, letters: map<Id, DeadLetter>): Tables {
    Tables(map[0 := event], rows, letters, map[0 := PUSHED])
  }

  const HELD := Hold(0, 0, 0, 0, false)

  const QUEUED := State(0, World(TheEvent(EventPending, None, None), map[0 := TheRow(Pending, None)], map[]),
                        0, {}, multiset{}, map[], {0}, {}, map[])

  const TAKEN := State(0, World(TheEvent(EventProcessing, Some(0), None), map[0 := TheRow(Processing, Some(0))], map[]),
                       1, {HELD}, multiset{}, map[], {0}, {}, map[])

  lemma ReachQueued(c: Config) returns (run: Run)
    ensures Reaches(c, run, QUEUED, true, true, true)
  {
    var s0 := Initial(0);
    var add := AddConsumer(0, PUSHED);
    var s1 := s0.(t := Tables(map[], map[], map[], map[0 := PUSHED]));
    run := Start(0);
    Extend(c, run, s0, true, true, true, add, s1);
    run := Do(run, add);
    var insert := InsertEvent(0, 0, 0, Null, 0, None);
    var s2 := s1.(t := World(TheEvent(EventPending, None, None), map[], map[]));
    Extend(c, run, s1, true, true, true, insert, s2);
    run := Do(run, insert);
    var read := ReadConsumers(0, {0});
    var s3 := s2.(fannedOut := {0}, fanout := {(0, 0)});
    assert (set id | id in {0} :: (0, id)) == {(0, 0)};
    Extend(c, run, s2, true, true, true, read, s3);
    run := Do(run, read);
    var enqueue := EnqueueOriginal(0, 0, 0, 0);
    Extend(c, run, s3, true, true, true, enqueue, QUEUED);
    run := Do(run, enqueue);
  }

  lemma TakeQueued(c: Config)
    ensures Enabled(QUEUED, Claim(Everyone, 1, {}, [0])) && Next(c, QUEUED, Claim(Everyone, 1, {}, [0])) == TAKEN
  {
    assert ClaimableRows(QUEUED.t, Everyone, {}, 0) == {0};
    assert Elements([0]) == {0};
    assert ClaimRows(QUEUED.t, {0}, 0) == TAKEN.t;
    assert NewHolds(QUEUED, Everyone, [0]) == {HELD};
  }

  lemma ReachTaken(c: Config) returns (run: Run)
    ensures Reaches(c, run, TAKEN, true, true, true)
  {
    run := ReachQueued(c);
    TakeQueued(c);
    Extend(c, run, QUEUED, true, true, true, Claim(Everyone, 1, {}, [0]), TAKEN);
    run := Do(run, Claim(Everyone, 1, {}, [0]));
  }

  // ---------------------------------------------------------------- without H1

  /** A holder that outlives its lease marks a released row `awaiting_ack`: the row is open and
      no claim and no reaper will ever match it. */
  lemma LeaseNeeded(c: Config) returns (run: Run)
    ensures Possible(c, run) && AllOwnAcks(c, run) && AtomicReplays(run)
    ensures var t := Final(c, run).t;
      0 in t.deliveries && t.deliveries[0].Open() && forall now :: !CanMove(c, t, 0, now)
  {
    run := ReachReleased(c);
    var s := Released(c);
    var close := Close(HELD, Accepted, 0);
    var u := s.(holds := {}, t := s.t.(deliveries := map[0 := TheRow(AwaitingAck, None)]));
    Extend(c, run, s, true, true, true, close, u);
    run := Do(run, close);
  }

  function Released(c: Config): State {
    TAKEN.(now := c.stuckThreshold + 1, t := TAKEN.t.(deliveries := map[0 := TheRow(Pending, None)]))
  }

  /** The stuck reaper has released the row, and the holder does not know. */
  lemma ReachReleased(c: Config) returns (run: Run)
    ensures Reaches(c, run, Released(c), true, true, true)
  {
    run := ReachTaken(c);
    var late := Advance(c.stuckThreshold + 1);
    var s := TAKEN.(now := c.stuckThreshold + 1);
    Extend(c, run, TAKEN, true, true, true, late, s);
    run := Do(run, late);
    Extend(c, run, s, true, true, true, ReleaseStuck, Released(c));
    run := Do(run, ReleaseStuck);
  }

  // ---------------------------------------------------------------- without H2

  /** A consumer acknowledges while the worker still waits for its 202: the delivered row goes
      back to `awaiting_ack`, although every holder kept its lease. */
  lemma OwnAckNeeded(c: Config) returns (run: Run, later: Run)
    ensures Possible(c, later) && Possible(c, run) && Continues(run, later)
    ensures AllInLease(c, later) && AtomicReplays(later)
    ensures var before, after := Final(c, run).t.deliveries, Final(c, later).t.deliveries;
      0 in before && 0 in after && before[0].status == Delivered && after[0].status == AwaitingAck
  {
    run := ReachTaken(c);
    var acknowledge := AckAtomic(0, 0, None, true, 0);
    var delivered := TheRow(Delivered, Some(0)).(deliveredAt := Some(0));
    var s1 := TAKEN.(t := TAKEN.t.(deliveries := map[0 := delivered]), unsynced := multiset{0});
    Extend(c, run, TAKEN, true, true, true, acknowledge, s1);
    run := Do(run, acknowledge);
    var close := Close(HELD, Accepted, 0);
    var s2 := s1.(holds := {}, t := s1.t.(deliveries := map[0 := delivered.(status := AwaitingAck)]));
    Extend(c, run, s1, true, false, true, close, s2);
    later := Do(run, close);
    assert Continues(run, later.prev);
  }

  // ---------------------------------------------------------------- without H3

  function Letter(replayed: bool): DeadLetter {
    DeadLetter(0, 0, 0, 0, Null, replayed)
  }

  const FAILED_EVENT := TheEvent(EventFailed, Some(0), Some(0))

  const FAILED_ROW := TheRow(Failed, Some(0))

  const GIVEN_UP := State(0, World(FAILED_EVENT, map[0 := FAILED_ROW], map[0 := Letter(false)]),
                          1, {}, multiset{}, map[], {0}, {}, map[])

  /** Two replays of the one dead letter have both passed their check and inserted a row. */
  const REPLAYED_TWICE := State(0,
    World(FAILED_EVENT,
          map[0 := FAILED_ROW, 1 := TheRow(Pending, None), 2 := TheRow(Pending, None)], map[0 := Letter(false)]),
    1, {}, multiset{}, map[], {0}, {}, map[0 := Enqueued(0), 1 := Enqueued(0)])

  lemma GiveUpTaken(c: Config)
    ensures Enabled(TAKEN, Close(HELD, ClientError, 0)) && Next(c, TAKEN, Close(HELD, ClientError, 0)) == GIVEN_UP
  {
    var failed := map[0 := FAILED_ROW];
    assert !AnyOpen(failed, 0) && failed[0].event == 0 && AnyFailed(failed, 0);
    assert TAKEN.t.deliveries[0 := FAILED_ROW] == failed;
  }

  /** Two requests have read the dead letter before either marks it. */
  const CHECKED_TWICE := GIVEN_UP.(replays := map[0 := Checked(0), 1 := Checked(0)])

  lemma ReachCheckedTwice(c: Config) returns (run: Run)
    ensures Reaches(c, run, CHECKED_TWICE, true, true, false)
  {
    run := ReachTaken(c);
    GiveUpTaken(c);
    Extend(c, run, TAKEN, true, true, true, Close(HELD, ClientError, 0), GIVEN_UP);
    run := Do(run, Close(HELD, ClientError, 0));
    var s1 := GIVEN_UP.(replays := map[0 := Checked(0)]);
    Extend(c, run, GIVEN_UP, true, true, true, ReplayCheck(0, 0), s1);
    run := Do(run, ReplayCheck(0, 0));
    Extend(c, run, s1, true, true, false, ReplayCheck(1, 0), CHECKED_TWICE);
    run := Do(run, ReplayCheck(1, 0));
  }

  lemma ReachReplayedTwice(c: Config) returns (run: Run)
    ensures Reaches(c, run, REPLAYED_TWICE, true, true, false)
  {
    run := ReachCheckedTwice(c);
    var rows := map[0 := FAILED_ROW, 1 := TheRow(Pending, None)];
    var s1 := CHECKED_TWICE.(replays := map[0 := Enqueued(0), 1 := Checked(0)],
                             t := World(FAILED_EVENT, rows, map[0 := Letter(false)]));
    Extend(c, run, CHECKED_TWICE, true, true, false, ReplayEnqueue(0, 1, 0), s1);
    run := Do(run, ReplayEnqueue(0, 1, 0));
    Extend(c, run, s1, true, true, false, ReplayEnqueue(1, 2, 0), REPLAYED_TWICE);
    run := Do(run, ReplayEnqueue(1, 2, 0));
  }

  const FIRST := Hold(1, 1, 0, 0, false)
  const SECOND := Hold(1, 2, 0, 0, false)

  const SENT := TheRow(Delivered, Some(0)).(deliveredAt := Some(0))

  function Replayed(first: Delivery, second: Delivery): Tables {
    World(FAILED_EVENT, map[0 := FAILED_ROW, 1 := first, 2 := second], map[0 := Letter(false)])
  }

  const BOTH_TAKEN := REPLAYED_TWICE.(t := Replayed(TheRow(Processing, Some(0)), TheRow(Processing, Some(0))),
                                      claims := 2, holds := {FIRST, SECOND})

  const ONE_SENT := BOTH_TAKEN.(t := Replayed(SENT, TheRow(Processing, Some(0))),
                                holds := {SECOND}, unsynced := multiset{0})

  const BOTH_SENT := ONE_SENT.(t := Replayed(SENT, SENT), holds := {}, unsynced := multiset{0, 0})

  lemma BothRowsTaken()
    ensures ClaimRows(REPLAYED_TWICE.t, {1, 2}, 0) == BOTH_TAKEN.t
    ensures NewHolds(REPLAYED_TWICE, Everyone, [1, 2]) == {FIRST, SECOND}
  {
  }

  lemma BothRowsDue()
    ensures ClaimAllowed(REPLAYED_TWICE.t, Everyone, {}, 0, 2, [1, 2])
  {
    assert ClaimableRows(REPLAYED_TWICE.t, Everyone, {}, 0) == {1, 2};
  }

  lemma TakeBoth(c: Config)
    ensures Enabled(REPLAYED_TWICE, Claim(Everyone, 2, {}, [1, 2]))
    ensures Next(c, REPLAYED_TWICE, Claim(Everyone, 2, {}, [1, 2])) == BOTH_TAKEN
  {
    BothRowsDue();
    BothRowsTaken();
    assert Elements([1, 2]) == {1, 2};
  }

  lemma SendBoth(c: Config)
    ensures Enabled(BOTH_TAKEN, Close(FIRST, Success, 1)) && Next(c, BOTH_TAKEN, Close(FIRST, Success, 1)) == ONE_SENT
    ensures Enabled(ONE_SENT, Close(SECOND, Success, 1)) && Next(c, ONE_SENT, Close(SECOND, Success, 1)) == BOTH_SENT
  {
    assert BOTH_TAKEN.t.deliveries[1 := SENT] == ONE_SENT.t.deliveries;
    assert ONE_SENT.t.deliveries[2 := SENT] == BOTH_SENT.t.deliveries;
  }

  /** Both rows are claimed and delivered: the consumer gets the event twice, although every
      holder kept its lease and nobody acknowledged through the API. */
  lemma AtomicReplayNeeded(c: Config) returns (run: Run)
    ensures Possible(c, run) && AllInLease(c, run) && AllOwnAcks(c, run)
    ensures var t := Final(c, run).t;
      && PairRow(t, 0, 0, 1) && PairRow(t, 0, 0, 2)
      && t.deliveries[1].status == Delivered && t.deliveries[2].status == Delivered
  {
    run := ReachReplayedTwice(c);
    TakeBoth(c);
    SendBoth(c);
    Extend(c, run, REPLAYED_TWICE, true, true, false, Claim(Everyone, 2, {}, [1, 2]), BOTH_TAKEN);
    run := Do(run, Claim(Everyone, 2, {}, [1, 2]));
    Extend(c, run, BOTH_TAKEN, true, true, false, Close(FIRST, Success, 1), ONE_SENT);
    run := Do(run, Close(FIRST, Success, 1));
    Extend(c, run, ONE_SENT, true, true, false, Close(SECOND, Success, 1), BOTH_SENT);
    run := Do(run, Close(SECOND, Success, 1));
  }
}
