/** The recurring task: a timer that runs an action and re-arms itself when the run settles.
    `timer`, `active` and `stopped` are its fields; `armed` and `running` are what the
    event loop really has pending. */
module RecurringTasks {
  import opened Options

  datatype TaskState = TaskState(
    timer: Option<nat>,
    active: Option<nat>,
    stopped: bool,
    armed: set<nat>,
    running: set<nat>,
    nextId: nat)

  /** A new task, before its first `start`. */
  const IDLE := TaskState(None, None, true, {}, {}, 0)

  function AfterSchedule(s: TaskState): TaskState {
    s.(timer := Some(s.nextId), armed := s.armed + {s.nextId}, nextId := s.nextId + 1)
  }

  function AfterStart(s: TaskState): TaskState {
    if !s.stopped then s else AfterSchedule(s.(stopped := false))
  }

  /** The synchronous part of `stop`; the call completes when no run is active. */
  function AfterStop(s: TaskState): TaskState {
    match s.timer
    case None => s.(stopped := true)
    case Some(id) => s.(stopped := true, timer := None, armed := s.armed - {id})
  }

  /** An armed timer goes off; its identifier stays in the `timer` field. */
  function AfterFire(s: TaskState, id: nat): TaskState {
    s.(armed := s.armed - {id}, running := s.running + {s.nextId}, active := Some(s.nextId), nextId := s.nextId + 1)
  }

  /** A run settles and its `finally` callback runs. */
  function AfterSettle(s: TaskState, run: nat): TaskState {
    var t := s.(running := s.running - {run}, active := None);
    if t.stopped then t else AfterSchedule(t)
  }

  datatype TaskEvent = StartCall | StopCall | TimerFires(id: nat) | RunSettles(run: nat)

  predicate Happens(s: TaskState, e: TaskEvent) {
    match e
    case TimerFires(id) => id in s.armed
    case RunSettles(run) => run in s.running
    case _ => true
  }

  function After(s: TaskState, e: TaskEvent): TaskState {
    match e
    case StartCall => AfterStart(s)
    case StopCall => AfterStop(s)
    case TimerFires(id) => AfterFire(s, id)
    case RunSettles(run) => AfterSettle(s, run)
  }

  /** A stop was called and its run is still going. */
  predicate StopPending(s: TaskState) {
    s.stopped && s.running != {}
  }

  /** Never two runs, two armed timers, or a run plus a timer. */
  predicate Exclusive(s: TaskState) {
    |s.armed| + |s.running| <= 1
  }

  /** Nothing will happen any more. */
  predicate Quiescent(s: TaskState) {
    s.armed == {} && s.running == {}
  }

  /** The fields describe the event loop: one timer or one run while started, at most the last
      run once stopped. */
  ghost predicate Consistent(s: TaskState) {
    && (s.active.Some? ==> s.running == {s.active.value} && s.armed == {})
    && (s.active.None? ==> s.running == {})
    && (s.stopped ==> s.armed == {})
    && (!s.stopped && s.active.None? ==> s.timer.Some? && s.armed == {s.timer.value})
    && (s.timer.Some? ==> s.timer.value < s.nextId) && (s.active.Some? ==> s.active.value < s.nextId)
  }

  lemma ConsistentIsExclusive(s: TaskState)
    requires Consistent(s)
    ensures Exclusive(s)
    ensures s.stopped && !StopPending(s) ==> Quiescent(s)
    ensures !s.stopped ==> |s.armed| + |s.running| == 1
  {
  }

  lemma EventKeepsConsistent(s: TaskState, e: TaskEvent)
    requires Consistent(s) && Happens(s, e) && (e.StartCall? ==> !StopPending(s))
    ensures Consistent(After(s, e))
  {
  }

  /** On a consistent task a start keeps the timers and runs exclusive exactly when no stop is
      pending; after a start during a pending stop, the run's end arms a second timer. */
  lemma StartIsSafeIffNoStopPending(s: TaskState)
    requires Consistent(s)
    ensures Exclusive(AfterStart(s)) <==> !StopPending(s)
    ensures StopPending(s) ==> |AfterSettle(AfterStart(s), s.active.value).armed| == 2
  {
    if StopPending(s) {
      assert AfterStart(s).armed == {s.nextId};
      assert AfterSettle(AfterStart(s), s.active.value).armed == {s.nextId, s.nextId + 1};
    }
  }

  /** A pending stop is reached by start, timer and stop; starting there leaves a run and a timer. */
  lemma PendingStopHappens()
    ensures var s := AfterStop(AfterFire(AfterStart(IDLE), 0));
      && Happens(AfterStart(IDLE), TimerFires(0))
      && Consistent(s) && StopPending(s) && !Exclusive(AfterStart(s))
  {
    var s := AfterStop(AfterFire(AfterStart(IDLE), 0));
    EventKeepsConsistent(IDLE, StartCall);
    EventKeepsConsistent(AfterStart(IDLE), TimerFires(0));
    EventKeepsConsistent(AfterFire(AfterStart(IDLE), 0), StopCall);
    StartIsSafeIffNoStopPending(s);
  }

  ghost predicate PossibleEvents(s: TaskState, events: seq<TaskEvent>)
    decreases |events|
  {
    events != [] ==>
      && Happens(s, events[0])
      && (events[0].StartCall? ==> !StopPending(s))
      && PossibleEvents(After(s, events[0]), events[1..])
  }

  function AfterAll(s: TaskState, events: seq<TaskEvent>): TaskState
    decreases |events|
  {
    if events == [] then s else AfterAll(After(s, events[0]), events[1..])
  }

  /** Over every history in which no start falls between a stop call and its completion. */
  lemma {:induction false} TaskStaysExclusive(s: TaskState, events: seq<TaskEvent>)
    requires Consistent(s) && PossibleEvents(s, events)
    ensures Consistent(AfterAll(s, events)) && Exclusive(AfterAll(s, events))
    decreases |events|
  {
    ConsistentIsExclusive(s);
    if events != [] {
      EventKeepsConsistent(s, events[0]);
      TaskStaysExclusive(After(s, events[0]), events[1..]);
    }
  }

  /** Once stopped, and until the next start, a task arms nothing, and at most one settled run
      leaves it quiet for good. */
  lemma {:induction false} StoppedTaskGoesQuiet(s: TaskState, events: seq<TaskEvent>)
    requires Consistent(s) && s.stopped && PossibleEvents(s, events)
    requires forall i :: 0 <= i < |events| ==> !events[i].StartCall?
    ensures AfterAll(s, events).stopped && AfterAll(s, events).armed == {}
    ensures AfterAll(s, events).running <= s.running
    ensures (exists i :: 0 <= i < |events| && events[i].RunSettles?) ==> Quiescent(AfterAll(s, events))
    decreases |events|
  {
    if events != [] {
      EventKeepsConsistent(s, events[0]);
      StoppedTaskGoesQuiet(After(s, events[0]), events[1..]);
      if i :| 0 <= i < |events| && events[i].RunSettles? {
        assert i > 0 ==> events[1..][i - 1].RunSettles?;
      }
    }
  }

  // ---------------------------------------------------------------- the class

  class RecurringTask {
    var timer: Option<nat>
    var active: Option<nat>
    var stopped: bool
    var armed: set<nat>
    var running: set<nat>
    var nextId: nat

    ghost function State(): TaskState
      reads this
    {
      TaskState(timer, active, stopped, armed, running, nextId)
    }

    constructor ()
      ensures State() == IDLE
    {
      timer, active, stopped := None, None, true;
      armed, running, nextId := {}, {}, 0;
    }

    method Start()
      modifies this
      ensures State() == AfterStart(old(State()))
      ensures !old(stopped) ==> State() == old(State())
      ensures old(stopped) ==>
        && !stopped && timer == Some(old(nextId)) && armed == old(armed) + {old(nextId)}
        && active == old(active) && running == old(running)
    {
      if !stopped { return; }
      stopped := false;
      Schedule();
    }

    method Stop() returns (waitsFor: Option<nat>)
      modifies this
      ensures State() == AfterStop(old(State())) && waitsFor == active
      ensures stopped && timer == None && active == old(active) && running == old(running)
      ensures armed == if old(timer) == None then old(armed) else old(armed) - {old(timer).value}
    {
      stopped := true;
      if timer.Some? {
        armed := armed - {timer.value};
        timer := None;
      }
      waitsFor := active;
    }

    method Schedule()
      modifies this`timer, this`armed, this`nextId
      ensures State() == AfterSchedule(old(State()))
    {
      timer := Some(nextId);
      armed := armed + {nextId};
      nextId := nextId + 1;
    }

    method OnTimer(id: nat) returns (run: nat)
      requires id in armed
      modifies this
      ensures State() == AfterFire(old(State()), id) && active == Some(run)
      ensures armed == old(armed) - {id} && running == old(running) + {run}
      ensures timer == old(timer) && stopped == old(stopped)
    {
      armed := armed - {id};
      run := nextId;
      running := running + {run};
      active := Some(run);
      nextId := nextId + 1;
    }

    method OnSettled(run: nat)
      requires run in running
      modifies this
      ensures State() == AfterSettle(old(State()), run)
      ensures running == old(running) - {run} && active == None && stopped == old(stopped)
      ensures stopped ==> timer == old(timer) && armed == old(armed)
      ensures !stopped ==> timer == Some(old(nextId)) && armed == old(armed) + {old(nextId)}
    {
      running := running - {run};
      active := None;
      if !stopped { Schedule(); }
    }
  }
}
