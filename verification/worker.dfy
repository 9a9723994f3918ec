/** The worker process: six recurring tasks around one metrics service, and the order in which
    `stop` winds them down. */
module WorkerShutdown {
  import opened Options
  import opened RecurringTasks
  import opened Metrics

  datatype TaskName = DeliveryTask | SchedulerTask | ResetTask | UnstuckTask | CleanupTask | FlushTask

  /** Where `Worker.stop` is: not called, waiting for the services, waiting for the flush task,
      in the last flush, resolved, or rejected by an exception in the last flush. */
  datatype Phase = Working | StoppingServices | StoppingFlush | FinalFlush | Stopped | Rejected

  datatype WorkerState = WorkerState(tasks: TaskName -> TaskState, metrics: MetricsState, phase: Phase)

  datatype WorkerStep =
    | TimerGoesOff(name: TaskName, id: nat)
    | RunEnds(name: TaskName, run: nat)
    | DeliveryRecords(r: Record)
    | SuccessCallDone(t: Tenant)
    | FailureCallDone(t: Tenant)
    | CallThrows
    | StopCalled
    | ServicesStopped
    | FlushTaskStopped
    | FinalFlushDone

  datatype WorkerRun = Began(rows: map<Tenant, MetricsRow>) | Went(prev: WorkerRun, step: WorkerStep)

  predicate FlushInProgress(s: WorkerState) {
    s.tasks(FlushTask).running != {} || s.phase == FinalFlush
  }

  predicate Settled(s: WorkerState, name: TaskName) {
    s.tasks(name).running == {}
  }

  ghost predicate CanStep(s: WorkerState, step: WorkerStep) {
    match step
    case TimerGoesOff(name, id) => id in s.tasks(name).armed
    case RunEnds(name, run) => run in s.tasks(name).running && (name == FlushTask ==> s.metrics.Flushed())
    case DeliveryRecords(_) => !Settled(s, DeliveryTask)
    case SuccessCallDone(t) => FlushInProgress(s) && t in s.metrics.successSnapshot
    case FailureCallDone(t) =>
      FlushInProgress(s) && s.metrics.successSnapshot == map[] && t in s.metrics.failureSnapshot
    case CallThrows => FlushInProgress(s) && !s.metrics.Flushed()
    case StopCalled => s.phase == Working
    case ServicesStopped => s.phase == StoppingServices && forall name :: name != FlushTask ==> Settled(s, name)
    case FlushTaskStopped => s.phase == StoppingFlush && Settled(s, FlushTask)
    case FinalFlushDone => s.phase == FinalFlush && s.metrics.Flushed()
  }

  function SetTask(s: WorkerState, name: TaskName, task: TaskState): WorkerState {
    s.(tasks := n => if n == name then task else s.tasks(n))
  }

  function AfterStep(s: WorkerState, step: WorkerStep): WorkerState
    requires step.SuccessCallDone? ==> step.t in s.metrics.successSnapshot
    requires step.FailureCallDone? ==> step.t in s.metrics.failureSnapshot
  {
    match step
    case TimerGoesOff(name, id) =>
      var u := SetTask(s, name, AfterFire(s.tasks(name), id));
      if name == FlushTask then u.(metrics := SnapshotTaken(s.metrics)) else u
    case RunEnds(name, run) => SetTask(s, name, AfterSettle(s.tasks(name), run))
    case DeliveryRecords(r) => s.(metrics := Recorded(s.metrics, r))
    case SuccessCallDone(t) => s.(metrics := SuccessWritten(s.metrics, t))
    case FailureCallDone(t) => s.(metrics := FailureWritten(s.metrics, t))
    case CallThrows =>
      s.(metrics := SnapshotDropped(s.metrics), phase := if s.phase == FinalFlush then Rejected else s.phase)
    case StopCalled =>
      s.(tasks := n => if n == FlushTask then s.tasks(n) else AfterStop(s.tasks(n)), phase := StoppingServices)
    case ServicesStopped => SetTask(s, FlushTask, AfterStop(s.tasks(FlushTask))).(phase := StoppingFlush)
    case FlushTaskStopped => s.(metrics := SnapshotTaken(s.metrics), phase := FinalFlush)
    case FinalFlushDone => s.(phase := Stopped)
  }

  /** A worker after `start`, over the metrics table it found. */
  function Started(rows: map<Tenant, MetricsRow>): WorkerState {
    WorkerState(n => AfterStart(IDLE), MetricsState(map[], map[], map[], map[], rows), Working)
  }

  ghost predicate PossibleRun(run: WorkerRun)
    decreases run, 0
  {
    run.Began? || (PossibleRun(run.prev) && CanStep(StateOf(run.prev), run.step))
  }

  ghost function StateOf(run: WorkerRun): WorkerState
    requires PossibleRun(run)
    decreases run, 1
  {
    match run
    case Began(rows) => Started(rows)
    case Went(prev, step) => AfterStep(StateOf(prev), step)
  }

  ghost function TableAtStart(run: WorkerRun): map<Tenant, MetricsRow> {
    match run
    case Began(rows) => rows
    case Went(prev, _) => TableAtStart(prev)
  }

  /** Everything the deliveries of the run recorded. */
  ghost function AllRecords(run: WorkerRun): seq<Record> {
    match run
    case Began(_) => []
    case Went(prev, step) => if step.DeliveryRecords? then AllRecords(prev) + [step.r] else AllRecords(prev)
  }

  /** What throwing batch calls dropped. */
  ghost function Lost(run: WorkerRun, t: Tenant, q: Quantity): nat
    requires PossibleRun(run)
  {
    match run
    case Began(_) => 0
    case Went(prev, step) =>
      Lost(prev, t, q) + if step.CallThrows? then Unwritten(StateOf(prev).metrics, t, q) else 0
  }

  ghost predicate NoCallThrows(run: WorkerRun) {
    run.Went? ==> NoCallThrows(run.prev) && !run.step.CallThrows?
  }

  // ---------------------------------------------------------------- the invariant

  predicate ServicesDown(p: Phase) { p != Working && p != StoppingServices }

  predicate FlushDown(p: Phase) { p == FinalFlush || p == Stopped || p == Rejected }

  ghost predicate NothingLive(m: MetricsState) {
    m.successes == map[] && m.failures == map[]
  }

  ghost predicate Orderly(s: WorkerState) {
    && (forall name :: Consistent(s.tasks(name)))
    && (s.phase != Working ==> forall name :: name != FlushTask ==> s.tasks(name).stopped)
    && (ServicesDown(s.phase) ==> s.tasks(FlushTask).stopped && forall name :: name != FlushTask ==> Settled(s, name))
    && (FlushDown(s.phase) ==> Settled(s, FlushTask) && NothingLive(s.metrics))
    && (!FlushInProgress(s) ==> s.metrics.Flushed())
  }

  lemma StepKeepsOrder(s: WorkerState, step: WorkerStep)
    requires CanStep(s, step) && Orderly(s)
    ensures Orderly(AfterStep(s, step))
  {
    var u := AfterStep(s, step);
    forall name ensures Consistent(u.tasks(name)) {
      match step
      case TimerGoesOff(n, id) => EventKeepsConsistent(s.tasks(n), TimerFires(id));
      case RunEnds(n, run) => EventKeepsConsistent(s.tasks(n), RunSettles(run));
      case StopCalled => EventKeepsConsistent(s.tasks(name), StopCall);
      case ServicesStopped => EventKeepsConsistent(s.tasks(FlushTask), StopCall);
      case _ =>
    }
    if step.TimerGoesOff? {
      var n, task := step.name, s.tasks(step.name);
      assert Consistent(task) && (s.phase != Working && n != FlushTask ==> task.stopped);
    }
    forall name | ServicesDown(u.phase) && name != FlushTask ensures Settled(u, name) {
      assert Settled(s, name) && s.tasks(name).stopped;
      assert u.tasks(name).running <= s.tasks(name).running;
    }
  }

  lemma StepConserves(s: WorkerState, step: WorkerStep, t: Tenant, q: Quantity)
    requires CanStep(s, step) && Orderly(s)
    ensures Accounted(AfterStep(s, step).metrics, t, q) + (if step.CallThrows? then Unwritten(s.metrics, t, q) else 0)
      == Accounted(s.metrics, t, q) + (if step.DeliveryRecords? then Counted(step.r, t, q) else 0)
  {
    match step
    case TimerGoesOff(name, id) =>
      if name == FlushTask { SnapshotConserves(s.metrics, t, q); }
    case DeliveryRecords(r) => RecordingAdds(s.metrics, r, t, q);
    case SuccessCallDone(w) => SuccessWriteConserves(s.metrics, w, t, q);
    case FailureCallDone(w) => FailureWriteConserves(s.metrics, w, t, q);
    case CallThrows => DropLosesUnwritten(s.metrics, t, q);
    case FlushTaskStopped => SnapshotConserves(s.metrics, t, q);
    case _ =>
  }

  /** In every run each task has at most one timer or run, and nothing recorded is counted twice
      or disappears except with a throwing call. */
  lemma {:induction false} RunsStayOrderly(run: WorkerRun, t: Tenant, q: Quantity)
    requires PossibleRun(run)
    ensures Orderly(StateOf(run)) && forall name :: Exclusive(StateOf(run).tasks(name))
    ensures Accounted(StateOf(run).metrics, t, q) + Lost(run, t, q)
      == InTable(TableAtStart(run), t, q) + CountedAll(AllRecords(run), t, q)
  {
    if run.Went? {
      var s := StateOf(run.prev);
      RunsStayOrderly(run.prev, t, q);
      StepKeepsOrder(s, run.step);
      StepConserves(s, run.step, t, q);
      if run.step.DeliveryRecords? {
        assert AllRecords(run)[..|AllRecords(run)| - 1] == AllRecords(run.prev);
      }
    }
    forall name ensures Exclusive(StateOf(run).tasks(name)) { ConsistentIsExclusive(StateOf(run).tasks(name)); }
  }

  lemma {:induction false} NothingLostWithoutThrows(run: WorkerRun, t: Tenant, q: Quantity)
    requires PossibleRun(run) && NoCallThrows(run)
    ensures Lost(run, t, q) == 0
  {
    if run.Went? { NothingLostWithoutThrows(run.prev, t, q); }
  }

  /** Whatever the interleaving of runs, records, flushes, throws and the shutdown, a table that
      begins with every event counted as a success or a failure stays so. */
  lemma {:induction false} RunsKeepBalance(run: WorkerRun)
    requires PossibleRun(run) && Balanced(TableAtStart(run))
    ensures Balanced(StateOf(run).metrics.rows)
  {
    if run.Went? {
      var m := StateOf(run.prev).metrics;
      RunsKeepBalance(run.prev);
      match run.step
      case SuccessCallDone(t) =>
        UpsertsKeepBalance(m.rows, t, m.successSnapshot[t].successCount, m.successSnapshot[t].totalDurationMs);
      case FailureCallDone(t) => UpsertsKeepBalance(m.rows, t, m.failureSnapshot[t], 0);
      case _ =>
    }
  }

  /** After `stop` resolves nothing runs or is armed, and the table holds everything recorded,
      except what throwing calls dropped. */
  lemma {:induction false} ShutdownIsClean(run: WorkerRun, t: Tenant, q: Quantity)
    requires PossibleRun(run) && StateOf(run).phase == Stopped
    ensures forall name :: Quiescent(StateOf(run).tasks(name))
    ensures InTable(StateOf(run).metrics.rows, t, q) + Lost(run, t, q)
      == InTable(TableAtStart(run), t, q) + CountedAll(AllRecords(run), t, q)
    ensures NoCallThrows(run) ==>
      InTable(StateOf(run).metrics.rows, t, q) == InTable(TableAtStart(run), t, q) + CountedAll(AllRecords(run), t, q)
  {
    RunsStayOrderly(run, t, q);
    forall name ensures Quiescent(StateOf(run).tasks(name)) {
      assert Settled(StateOf(run), name) && Consistent(StateOf(run).tasks(name)) && StateOf(run).tasks(name).stopped;
    }
    if NoCallThrows(run) { NothingLostWithoutThrows(run, t, q); }
  }

  // ---------------------------------------------------------------- the class

  /** `Worker` with the services' tasks; each method is one synchronous stretch of the source,
      between which other tasks may run. */
  class Worker {
    const delivery: RecurringTask
    const scheduler: RecurringTask
    const reset: RecurringTask
    const unstuck: RecurringTask
    const cleanup: RecurringTask
    const flush: RecurringTask
    const metrics: MetricsService

    constructor (metrics: MetricsService)
      ensures this.metrics == metrics && Separate() && fresh(Tasks())
      ensures forall n :: TaskOf(n) == IDLE
    {
      this.metrics := metrics;
      delivery := new RecurringTask();
      scheduler := new RecurringTask();
      reset := new RecurringTask();
      unstuck := new RecurringTask();
      cleanup := new RecurringTask();
      flush := new RecurringTask();
    }

    ghost function Tasks(): set<object> {
      {delivery, scheduler, reset, unstuck, cleanup, flush}
    }

    ghost predicate Separate() {
      && delivery !in {scheduler, reset, unstuck, cleanup, flush} && scheduler !in {reset, unstuck, cleanup, flush}
      && reset !in {unstuck, cleanup, flush} && unstuck !in {cleanup, flush} && cleanup != flush
    }

    function TaskNamed(n: TaskName): RecurringTask {
      match n
      case DeliveryTask => delivery
      case SchedulerTask => scheduler
      case ResetTask => reset
      case UnstuckTask => unstuck
      case CleanupTask => cleanup
      case FlushTask => flush
    }

    ghost function TaskOf(n: TaskName): TaskState
      reads Tasks()
    {
      TaskNamed(n).State()
    }

    method Start()
      requires Separate()
      modifies Tasks()
      ensures forall n :: TaskOf(n) == AfterStart(old(TaskOf(n)))
    {
      flush.Start();
      delivery.Start();
      reset.Start();
      unstuck.Start();
      scheduler.Start();
      cleanup.Start();
    }

    /** The first half of `stop`: every service's task is stopped, and all of them are awaited. */
    method StopServices() returns (awaited: seq<Option<nat>>)
      requires Separate()
      modifies Tasks()
      ensures forall n :: TaskOf(n) == if n == FlushTask then old(TaskOf(n)) else AfterStop(old(TaskOf(n)))
      ensures awaited == [delivery.active, scheduler.active, reset.active, unstuck.active, cleanup.active]
    {
      var d := delivery.Stop();
      var s := scheduler.Stop();
      var r := reset.Stop();
      var u := unstuck.Stop();
      var c := cleanup.Stop();
      awaited := [d, s, r, u, c];
    }

    /** The second half: the flush task is stopped and awaited. */
    method StopFlushTask() returns (awaited: Option<nat>)
      requires Separate()
      modifies flush
      ensures forall n :: TaskOf(n) == if n == FlushTask then AfterStop(old(TaskOf(n))) else old(TaskOf(n))
      ensures awaited == flush.active
    {
      awaited := flush.Stop();
    }

    /** The last flush, with nothing left that could record meanwhile: unless a call throws, the
        table now holds all that was accounted for. */
    method LastFlush(failing: Option<nat>) returns (threw: bool)
      modifies metrics, metrics.repository
      ensures Balanced(old(metrics.repository.rows)) ==> Balanced(metrics.repository.rows)
      ensures !threw ==> forall t, q :: InTable(metrics.repository.rows, t, q) == Accounted(old(metrics.State()), t, q)
      ensures failing.None? ==> !threw
    {
      var calls;
      ghost var seen, lost;
      threw, calls, seen, lost := metrics.Flush([], failing);
    }
  }
}
