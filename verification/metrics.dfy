/** The metrics accumulator: live maps, a flush that drains a snapshot of them with additive
    upserts, and the counters those upserts keep per tenant. */
module Metrics {
  import opened Options

  type Tenant = nat

  datatype Accumulator = Accumulator(successCount: nat, totalDurationMs: nat)

  datatype MetricsRow = MetricsRow(
    eventsToday: nat, eventsTotal: nat, successCount: nat, failureCount: nat, totalProcessingMs: nat)

  datatype Record = SuccessOf(tenant: Tenant, durationMs: nat) | FailureOf(tenant: Tenant)

  /** The three quantities counted for each tenant. */
  datatype Quantity = Successes | Failures | Milliseconds

  // ---------------------------------------------------------------- quantities per tenant

  function InMaps(successes: map<Tenant, Accumulator>, failures: map<Tenant, nat>, t: Tenant, q: Quantity): nat {
    match q
    case Successes => if t in successes then successes[t].successCount else 0
    case Failures => if t in failures then failures[t] else 0
    case Milliseconds => if t in successes then successes[t].totalDurationMs else 0
  }

  function InTable(rows: map<Tenant, MetricsRow>, t: Tenant, q: Quantity): nat {
    if t !in rows then 0
    else match q
      case Successes => rows[t].successCount
      case Failures => rows[t].failureCount
      case Milliseconds => rows[t].totalProcessingMs
  }

  function Counted(r: Record, t: Tenant, q: Quantity): nat {
    if r.tenant != t then 0
    else match q
      case Successes => if r.SuccessOf? then 1 else 0
      case Failures => if r.FailureOf? then 1 else 0
      case Milliseconds => if r.SuccessOf? then r.durationMs else 0
  }

  function CountedAll(records: seq<Record>, t: Tenant, q: Quantity): nat {
    if records == [] then 0
    else CountedAll(records[..|records| - 1], t, q) + Counted(records[|records| - 1], t, q)
  }

  /** Rows written only through the batch upserts: every event is a success or a failure. */
  ghost predicate Balanced(rows: map<Tenant, MetricsRow>) {
    forall t :: t in rows ==> rows[t].eventsTotal == rows[t].successCount + rows[t].failureCount
  }

  // ---------------------------------------------------------------- the steps between awaits

  /** The service between two awaits: the live maps, what a flush in progress has not written
      yet, and the table. */
  datatype MetricsState = MetricsState(
    successes: map<Tenant, Accumulator>,
    failures: map<Tenant, nat>,
    successSnapshot: map<Tenant, Accumulator>,
    failureSnapshot: map<Tenant, nat>,
    rows: map<Tenant, MetricsRow>)
  {
    predicate Flushed() { successSnapshot == map[] && failureSnapshot == map[] }
  }

  function Recorded(m: MetricsState, r: Record): MetricsState {
    match r
    case SuccessOf(t, ms) =>
      var current := if t in m.successes then m.successes[t] else Accumulator(0, 0);
      m.(successes := m.successes[t := Accumulator(current.successCount + 1, current.totalDurationMs + ms)])
    case FailureOf(t) => m.(failures := m.failures[t := (if t in m.failures then m.failures[t] else 0) + 1])
  }

  function RecordedAll(m: MetricsState, records: seq<Record>): MetricsState {
    if records == [] then m
    else Recorded(RecordedAll(m, records[..|records| - 1]), records[|records| - 1])
  }

  /** One success more for the tenant, with its milliseconds, and nothing else. */
  ghost predicate SuccessAdded(m: MetricsState, n: MetricsState, t: Tenant, ms: nat) {
    && n == m.(successes := n.successes)
    && n.successes == m.successes[t :=
         if t in m.successes then Accumulator(m.successes[t].successCount + 1, m.successes[t].totalDurationMs + ms)
         else Accumulator(1, ms)]
  }

  /** One failure more for the tenant, and nothing else. */
  ghost predicate FailureAdded(m: MetricsState, n: MetricsState, t: Tenant) {
    && n == m.(failures := n.failures)
    && n.failures == m.failures[t := if t in m.failures then m.failures[t] + 1 else 1]
  }

  function SnapshotTaken(m: MetricsState): MetricsState {
    MetricsState(map[], map[], m.successes, m.failures, m.rows)
  }

  function SuccessUpsert(rows: map<Tenant, MetricsRow>, t: Tenant, count: nat, ms: nat): map<Tenant, MetricsRow> {
    var r := if t in rows then rows[t] else MetricsRow(0, 0, 0, 0, 0);
    rows[t := MetricsRow(r.eventsToday + count, r.eventsTotal + count, r.successCount + count, r.failureCount,
                         r.totalProcessingMs + ms)]
  }

  function FailureUpsert(rows: map<Tenant, MetricsRow>, t: Tenant, count: nat): map<Tenant, MetricsRow> {
    var r := if t in rows then rows[t] else MetricsRow(0, 0, 0, 0, 0);
    rows[t := MetricsRow(r.eventsToday + count, r.eventsTotal + count, r.successCount, r.failureCount + count,
                         r.totalProcessingMs)]
  }

  function SuccessWritten(m: MetricsState, t: Tenant): MetricsState
    requires t in m.successSnapshot
  {
    var a := m.successSnapshot[t];
    m.(rows := SuccessUpsert(m.rows, t, a.successCount, a.totalDurationMs), successSnapshot := m.successSnapshot - {t})
  }

  function FailureWritten(m: MetricsState, t: Tenant): MetricsState
    requires t in m.failureSnapshot
  {
    m.(rows := FailureUpsert(m.rows, t, m.failureSnapshot[t]), failureSnapshot := m.failureSnapshot - {t})
  }

  /** A batch call throws: the rest of the snapshot is lost. */
  function SnapshotDropped(m: MetricsState): MetricsState {
    m.(successSnapshot := map[], failureSnapshot := map[])
  }

  // ---------------------------------------------------------------- conservation, step by step

  function Live(m: MetricsState, t: Tenant, q: Quantity): nat {
    InMaps(m.successes, m.failures, t, q)
  }

  function Unwritten(m: MetricsState, t: Tenant, q: Quantity): nat {
    InMaps(m.successSnapshot, m.failureSnapshot, t, q)
  }

  /** Everything the service still accounts for. */
  function Accounted(m: MetricsState, t: Tenant, q: Quantity): nat {
    Live(m, t, q) + Unwritten(m, t, q) + InTable(m.rows, t, q)
  }

  lemma RecordingAdds(m: MetricsState, r: Record, t: Tenant, q: Quantity)
    ensures Live(Recorded(m, r), t, q) == Live(m, t, q) + Counted(r, t, q)
    ensures Recorded(m, r) == m.(successes := Recorded(m, r).successes, failures := Recorded(m, r).failures)
  {
  }

  lemma SnapshotConserves(m: MetricsState, t: Tenant, q: Quantity)
    requires m.Flushed()
    ensures Accounted(SnapshotTaken(m), t, q) == Accounted(m, t, q) && Live(SnapshotTaken(m), t, q) == 0
  {
  }

  lemma SuccessWriteConserves(m: MetricsState, w: Tenant, t: Tenant, q: Quantity)
    requires w in m.successSnapshot
    ensures Accounted(SuccessWritten(m, w), t, q) == Accounted(m, t, q)
  {
  }

  lemma FailureWriteConserves(m: MetricsState, w: Tenant, t: Tenant, q: Quantity)
    requires w in m.failureSnapshot
    ensures Accounted(FailureWritten(m, w), t, q) == Accounted(m, t, q)
  {
  }

  lemma DropLosesUnwritten(m: MetricsState, t: Tenant, q: Quantity)
    ensures Accounted(SnapshotDropped(m), t, q) + Unwritten(m, t, q) == Accounted(m, t, q)
  {
  }

  lemma UpsertsKeepBalance(rows: map<Tenant, MetricsRow>, t: Tenant, count: nat, ms: nat)
    ensures Balanced(rows) ==> Balanced(SuccessUpsert(rows, t, count, ms)) && Balanced(FailureUpsert(rows, t, count))
  {
  }

  lemma {:induction false} RecordingAllAdds(m: MetricsState, records: seq<Record>, t: Tenant, q: Quantity)
    ensures Live(RecordedAll(m, records), t, q) == Live(m, t, q) + CountedAll(records, t, q)
    ensures RecordedAll(m, records) ==
      m.(successes := RecordedAll(m, records).successes, failures := RecordedAll(m, records).failures)
  {
    if records != [] {
      var init, last := records[..|records| - 1], records[|records| - 1];
      RecordingAllAdds(m, init, t, q);
      RecordingAdds(RecordedAll(m, init), last, t, q);
    }
  }

  lemma {:induction false} CountedConcat(a: seq<Record>, b: seq<Record>, t: Tenant, q: Quantity)
    ensures CountedAll(a + b, t, q) == CountedAll(a, t, q) + CountedAll(b, t, q)
  {
    if b == [] {
      assert a + b == a;
    } else {
      var init, last := b[..|b| - 1], b[|b| - 1];
      var c := a + b;
      assert c[..|c| - 1] == a + init && c[|c| - 1] == last;
      CountedConcat(a, init, t, q);
    }
  }

  lemma {:induction false} RecordedAllConcat(m: MetricsState, a: seq<Record>, b: seq<Record>)
    ensures RecordedAll(m, a + b) == RecordedAll(RecordedAll(m, a), b)
  {
    if b == [] {
      assert a + b == a;
    } else {
      var init, last := b[..|b| - 1], b[|b| - 1];
      var c := a + b;
      assert c[..|c| - 1] == a + init && c[|c| - 1] == last;
      RecordedAllConcat(m, a, init);
    }
  }

  lemma RecordedNext(m: MetricsState, records: seq<Record>, i: nat)
    requires i < |records|
    ensures RecordedAll(m, records[..i + 1]) == Recorded(RecordedAll(m, records[..i]), records[i])
  {
    assert records[..i + 1][..i] == records[..i];
  }

  // ---------------------------------------------------------------- the classes

  class TenantMetricsRepository {
    var rows: map<Tenant, MetricsRow>

    constructor ()
      ensures rows == map[]
    {
      rows := map[];
    }

    method IncrementSuccessBatch(t: Tenant, successCount: nat, totalProcessingMs: nat)
      modifies this
      ensures rows == SuccessUpsert(old(rows), t, successCount, totalProcessingMs)
      ensures t in rows && rows == old(rows)[t := rows[t]]
      ensures t !in old(rows) ==>
        rows[t] == MetricsRow(successCount, successCount, successCount, 0, totalProcessingMs)
      ensures t in old(rows) ==>
        && rows[t].eventsToday == old(rows)[t].eventsToday + successCount
        && rows[t].eventsTotal == old(rows)[t].eventsTotal + successCount
        && rows[t].successCount == old(rows)[t].successCount + successCount
        && rows[t].failureCount == old(rows)[t].failureCount
        && rows[t].totalProcessingMs == old(rows)[t].totalProcessingMs + totalProcessingMs
    {
      if t !in rows {
        rows := rows[t := MetricsRow(successCount, successCount, successCount, 0, totalProcessingMs)];
      } else {
        var r := rows[t];
        rows := rows[t := r.(successCount := r.successCount + successCount,
                             eventsToday := r.eventsToday + successCount,
                             eventsTotal := r.eventsTotal + successCount,
                             totalProcessingMs := r.totalProcessingMs + totalProcessingMs)];
      }
    }

    method IncrementFailureBatch(t: Tenant, failureCount: nat)
      modifies this
      ensures rows == FailureUpsert(old(rows), t, failureCount)
      ensures t in rows && rows == old(rows)[t := rows[t]]
      ensures t !in old(rows) ==> rows[t] == MetricsRow(failureCount, failureCount, 0, failureCount, 0)
      ensures t in old(rows) ==>
        && rows[t].eventsToday == old(rows)[t].eventsToday + failureCount
        && rows[t].eventsTotal == old(rows)[t].eventsTotal + failureCount
        && rows[t].successCount == old(rows)[t].successCount
        && rows[t].failureCount == old(rows)[t].failureCount + failureCount
        && rows[t].totalProcessingMs == old(rows)[t].totalProcessingMs
    {
      if t !in rows {
        rows := rows[t := MetricsRow(failureCount, failureCount, 0, failureCount, 0)];
      } else {
        var r := rows[t];
        rows := rows[t := r.(failureCount := r.failureCount + failureCount,
                             eventsToday := r.eventsToday + failureCount,
                             eventsTotal := r.eventsTotal + failureCount)];
      }
    }
  }

  class MetricsService {
    const repository: TenantMetricsRepository
    var successCounts: map<Tenant, Accumulator>
    var failureCounts: map<Tenant, nat>

    /** The service while no flush is in progress. */
    ghost function State(): MetricsState
      reads this, repository
    {
      MetricsState(successCounts, failureCounts, map[], map[], repository.rows)
    }

    constructor (repository: TenantMetricsRepository)
      ensures this.repository == repository && successCounts == map[] && failureCounts == map[]
    {
      this.repository := repository;
      successCounts, failureCounts := map[], map[];
    }

    method RecordSuccess(t: Tenant, durationMs: nat)
      modifies this
      ensures State() == Recorded(old(State()), SuccessOf(t, durationMs))
      ensures SuccessAdded(old(State()), State(), t, durationMs)
    {
      var current := if t in successCounts then successCounts[t] else Accumulator(0, 0);
      successCounts := successCounts[t := Accumulator(current.successCount + 1, current.totalDurationMs + durationMs)];
    }

    method RecordFailure(t: Tenant)
      modifies this
      ensures State() == Recorded(old(State()), FailureOf(t))
      ensures FailureAdded(old(State()), State(), t)
    {
      failureCounts := failureCounts[t := (if t in failureCounts then failureCounts[t] else 0) + 1];
    }

    /** The service during a flush that still holds these snapshots. */
    ghost function Midway(successSnapshot: map<Tenant, Accumulator>, failureSnapshot: map<Tenant, nat>): MetricsState
      reads this, repository
    {
      MetricsState(successCounts, failureCounts, successSnapshot, failureSnapshot, repository.rows)
    }

    method RecordOne(r: Record, ghost successSnapshot: map<Tenant, Accumulator>,
                     ghost failureSnapshot: map<Tenant, nat>)
      modifies this
      ensures Midway(successSnapshot, failureSnapshot) == Recorded(old(Midway(successSnapshot, failureSnapshot)), r)
    {
      match r
      case SuccessOf(t, ms) => RecordSuccess(t, ms);
      case FailureOf(t) => RecordFailure(t);
    }

    /** What deliveries record while a flush waits for the database. */
    method Interleave(records: seq<Record>, ghost successSnapshot: map<Tenant, Accumulator>,
                      ghost failureSnapshot: map<Tenant, nat>)
      modifies this
      ensures Midway(successSnapshot, failureSnapshot) ==
        RecordedAll(old(Midway(successSnapshot, failureSnapshot)), records)
    {
      ghost var start := Midway(successSnapshot, failureSnapshot);
      for i := 0 to |records|
        invariant Midway(successSnapshot, failureSnapshot) == RecordedAll(start, records[..i])
      {
        RecordOne(records[i], successSnapshot, failureSnapshot);
        RecordedNext(start, records, i);
      }
      assert records[..|records|] == records;
    }

    /** The loop over the success snapshot. `left` is what an exception leaves unwritten. */
    method FlushSuccesses(snapshot: map<Tenant, Accumulator>, ghost failureSnapshot: map<Tenant, nat>,
                          during: seq<seq<Record>>, failing: Option<nat>, ghost start: MetricsState)
      returns (threw: bool, calls: nat, ghost seen: seq<Record>, ghost left: map<Tenant, Accumulator>)
      requires Conserved(Midway(snapshot, failureSnapshot), [], start)
      modifies this, repository
      ensures Balanced(old(repository.rows)) ==> Balanced(repository.rows)
      ensures Conserved(Midway(left, failureSnapshot), seen, start)
      ensures seen == RecordedDuring(during, calls)
      ensures if threw then failing == Some(calls - 1) else left == map[] && calls == |snapshot|
    {
      threw, calls, seen := false, 0, [];
      var remaining := snapshot;
      while remaining != map[]
        invariant Balanced(old(repository.rows)) ==> Balanced(repository.rows)
        invariant Conserved(Midway(remaining, failureSnapshot), seen, start)
        invariant seen == RecordedDuring(during, calls) && calls + |remaining| == |snapshot|
        decreases |remaining|
      {
        ghost var m, before := Midway(remaining, failureSnapshot), seen;
        var t :| t in remaining;
        var records := DuringCall(during, calls);
        calls, seen := calls + 1, seen + records;
        if failing == Some(calls - 1) {
          Interleave(records, remaining, failureSnapshot);
          Advanced(m, m, before, records, start);
          threw, left := true, remaining;
          return;
        }
        repository.IncrementSuccessBatch(t, remaining[t].successCount, remaining[t].totalDurationMs);
        UpsertsKeepBalance(m.rows, t, remaining[t].successCount, remaining[t].totalDurationMs);
        remaining := remaining - {t};
        Interleave(records, remaining, failureSnapshot);
        SuccessWriteAdvances(m, t, before, records, start);
      }
      left := map[];
    }

    /** The loop over the failure snapshot, after `done` batch calls. */
    method FlushFailures(snapshot: map<Tenant, nat>, during: seq<seq<Record>>, failing: Option<nat>, done: nat,
                         ghost start: MetricsState)
      returns (threw: bool, calls: nat, ghost seen: seq<Record>, ghost left: map<Tenant, nat>)
      requires Conserved(Midway(map[], snapshot), RecordedDuring(during, done), start)
      modifies this, repository
      ensures Balanced(old(repository.rows)) ==> Balanced(repository.rows)
      ensures Conserved(Midway(map[], left), seen, start)
      ensures seen == RecordedDuring(during, calls)
      ensures if threw then failing == Some(calls - 1) else left == map[] && calls == done + |snapshot|
    {
      threw, calls, seen := false, done, RecordedDuring(during, done);
      var remaining := snapshot;
      while remaining != map[]
        invariant Balanced(old(repository.rows)) ==> Balanced(repository.rows)
        invariant Conserved(Midway(map[], remaining), seen, start)
        invariant seen == RecordedDuring(during, calls) && calls + |remaining| == done + |snapshot|
        decreases |remaining|
      {
        ghost var m, before := Midway(map[], remaining), seen;
        var t :| t in remaining;
        var records := DuringCall(during, calls);
        calls, seen := calls + 1, seen + records;
        if failing == Some(calls - 1) {
          Interleave(records, map[], remaining);
          Advanced(m, m, before, records, start);
          threw, left := true, remaining;
          return;
        }
        repository.IncrementFailureBatch(t, remaining[t]);
        UpsertsKeepBalance(m.rows, t, remaining[t], 0);
        remaining := remaining - {t};
        Interleave(records, map[], remaining);
        FailureWriteAdvances(m, t, before, records, start);
      }
      left := map[];
    }

    /** One flush. `during[k]` is what deliveries record while the k-th batch call is awaited;
        call number `failing` throws. `seen` is everything recorded meanwhile, and `lost` holds
        the rest of the snapshot that an exception throws away. */
    method Flush(during: seq<seq<Record>>, failing: Option<nat>)
      returns (threw: bool, calls: nat, ghost seen: seq<Record>, ghost lost: MetricsState)
      modifies this, repository
      ensures Balanced(old(repository.rows)) ==> Balanced(repository.rows)
      ensures forall t, q ::
        Accounted(State(), t, q) + Unwritten(lost, t, q) == Accounted(old(State()), t, q) + CountedAll(seen, t, q)
      ensures forall t, q :: Live(State(), t, q) == CountedAll(seen, t, q)
      ensures seen == RecordedDuring(during, calls)
      ensures if threw then failing == Some(calls - 1) else
        lost.Flushed() && calls == |old(successCounts)| + |old(failureCounts)|
    {
      threw, calls, seen, lost := false, 0, [], State();
      if successCounts == map[] && failureCounts == map[] { return; }

      var successSnapshot, failureSnapshot := successCounts, failureCounts;
      successCounts, failureCounts := map[], map[];
      ghost var left, leftFailures;
      threw, calls, seen, left := FlushSuccesses(successSnapshot, failureSnapshot, during, failing, old(State()));
      lost := Midway(left, failureSnapshot);
      if !threw {
        threw, calls, seen, leftFailures := FlushFailures(failureSnapshot, during, failing, calls, old(State()));
        lost := Midway(map[], leftFailures);
      }
      Dropped(lost, seen, old(State()));
    }
  }

  /** What is recorded while batch call number `k` is awaited. */
  function DuringCall(during: seq<seq<Record>>, k: nat): seq<Record> {
    if k < |during| then during[k] else []
  }

  /** What is recorded while the first `calls` batch calls are awaited. */
  ghost function RecordedDuring(during: seq<seq<Record>>, calls: nat): seq<Record> {
    if calls == 0 then [] else RecordedDuring(during, calls - 1) + DuringCall(during, calls - 1)
  }

  /** A flush in progress: only what was recorded since is live, and nothing is lost or counted
      twice. */
  ghost predicate Conserved(m: MetricsState, seen: seq<Record>, start: MetricsState) {
    && (forall t, q :: Live(m, t, q) == CountedAll(seen, t, q))
    && (forall t, q :: Accounted(m, t, q) == Accounted(start, t, q) + CountedAll(seen, t, q))
  }

  /** `m` keeps the totals of `m0`; recording on top of it adds just the records. */
  lemma Advanced(m0: MetricsState, m: MetricsState, seen: seq<Record>, records: seq<Record>, start: MetricsState)
    requires Conserved(m0, seen, start) && m.successes == m0.successes && m.failures == m0.failures
    requires forall t, q :: Accounted(m, t, q) == Accounted(m0, t, q)
    ensures Conserved(RecordedAll(m, records), seen + records, start)
  {
    var n := RecordedAll(m, records);
    forall t, q
      ensures Live(n, t, q) == CountedAll(seen + records, t, q)
      ensures Accounted(n, t, q) == Accounted(start, t, q) + CountedAll(seen + records, t, q)
    {
      RecordingAllAdds(m, records, t, q);
      CountedConcat(seen, records, t, q);
    }
  }

  lemma SuccessWriteAdvances(m: MetricsState, t: Tenant, seen: seq<Record>, records: seq<Record>, start: MetricsState)
    requires Conserved(m, seen, start) && t in m.successSnapshot
    ensures Conserved(RecordedAll(SuccessWritten(m, t), records), seen + records, start)
  {
    forall u, q { SuccessWriteConserves(m, t, u, q); }
    Advanced(m, SuccessWritten(m, t), seen, records, start);
  }

  lemma FailureWriteAdvances(m: MetricsState, t: Tenant, seen: seq<Record>, records: seq<Record>, start: MetricsState)
    requires Conserved(m, seen, start) && t in m.failureSnapshot
    ensures Conserved(RecordedAll(FailureWritten(m, t), records), seen + records, start)
  {
    forall u, q { FailureWriteConserves(m, t, u, q); }
    Advanced(m, FailureWritten(m, t), seen, records, start);
  }

  lemma Dropped(m: MetricsState, seen: seq<Record>, start: MetricsState)
    requires Conserved(m, seen, start)
    ensures forall t, q ::
      Accounted(SnapshotDropped(m), t, q) + Unwritten(m, t, q) == Accounted(start, t, q) + CountedAll(seen, t, q)
  {
    forall t, q { DropLosesUnwritten(m, t, q); }
  }
}
