/** Theorems about whole runs of controllersrv. */
module ControllerRuns {
  import opened Sequences
  import opened Wrappers
  import opened Tasks
  import opened Controller
  import opened ControllerSafety

  lemma {:induction false} RunKeepsInv<Id>(s: State<Id>, run: seq<Step<Id>>)
    requires Inv(s) && Legal(s, run)
    ensures Inv(After(s, run))
    decreases |run|
  {
    if run != [] {
      StepKeepsInv(s, run[0]);
      RunKeepsInv(Apply(s, run[0]), run[1..]);
    }
  }

  // ---- Serials ------------------------------------------------------------------------

  /** A task that is queued or being worked on, or whose end is not published yet. */
  ghost predicate Live<Id>(s: State<Id>, id: Id) {
    id in s.q.heap && (!s.q.heap[id].IsFinished() || s.Window(id))
  }

  /** A submission is refused as a duplicate exactly when a live task carries the serial. */
  lemma DuplicateExactlyWhenLive<Id>(s: State<Id>, serial: Serial)
    requires Inv(s)
    ensures EnqueueResultOf(s.q, serial) == DuplicateSerial <==>
            exists id :: id in s.q.heap && s.q.heap[id].serial == serial && Live(s, id)
  {
    if serial in s.q.active {
      assert Live(s, s.q.tasks[serial]);
    }
  }

  /** In every reachable state one serial has at most one live task, and it is accepted again
      only when every earlier task with that serial has ended and been released. */
  lemma OneLiveTaskPerSerial<Id>(s: State<Id>, run: seq<Step<Id>>)
    requires Inv(s) && Legal(s, run)
    ensures var t := After(s, run);
            forall a, b | a in t.q.heap && b in t.q.heap && Live(t, a) && Live(t, b) ::
              t.q.heap[a].serial == t.q.heap[b].serial ==> a == b
    ensures var t := After(s, run);
            forall a | a in t.q.heap :: EnqueueResultOf(t.q, t.q.heap[a].serial) == Accepted ==>
              t.q.heap[a].IsFinished() && !t.Window(a) && a !in t.q.queue
  {
    RunKeepsInv(s, run);
    var t := After(s, run);
  }

  /** The queue holds pending tasks with pairwise distinct serials, each the very task its
      serial is mapped to. */
  lemma QueueIsSound<Id>(s: State<Id>, run: seq<Step<Id>>)
    requires Inv(s) && Legal(s, run)
    ensures var t := After(s, run);
            && |t.q.queue| <= TASK_QUEUE_MAX_SIZE
            && (forall i | 0 <= i < |t.q.queue| ::
                  && t.q.queue[i] in t.q.heap && t.q.heap[t.q.queue[i]].status == Pending
                  && t.q.heap[t.q.queue[i]].serial in t.q.active
                  && t.q.heap[t.q.queue[i]].serial in t.q.tasks
                  && t.q.tasks[t.q.heap[t.q.queue[i]].serial] == t.q.queue[i])
            && (forall i, j | 0 <= i < j < |t.q.queue| ::
                  t.q.heap[t.q.queue[i]].serial != t.q.heap[t.q.queue[j]].serial)
  {
    RunKeepsInv(s, run);
    var t := After(s, run);
    forall i | 0 <= i < |t.q.queue| ensures t.q.queue[i] == t.accepted[|t.taken| + i] && t.q.queue[i] in t.accepted {
    }
  }

  // ---- One task's life ----------------------------------------------------------------

  function Rank(st: OperationStatus): nat {
    match st
    case Pending => 0
    case Running => 1
    case _ => 2
  }

  /** `d2` is what `d1` may have become. */
  ghost predicate Later(d1: TaskData, d2: TaskData) {
    && d2.serial == d1.serial && d2.operation == d1.operation
    && d2.serviceNames == d1.serviceNames && d2.createdAt == d1.createdAt
    && Rank(d1.status) <= Rank(d2.status)
    && d1.retryCount <= d2.retryCount
    && (d1.startedAt.Some? ==> d2.startedAt == d1.startedAt)
    && (d1.IsFinished() ==>
          d2.status == d1.status && d2.finishedAt == d1.finishedAt && d2.retryCount == d1.retryCount)
  }

  /** A step leaves alone every task that the worker does not hold. */
  lemma OthersKept<Id>(s: State<Id>, step: Step<Id>, id: Id)
    requires Inv(s) && Enabled(s, step) && id in s.q.heap && !s.Holds(id)
    ensures id in Apply(s, step).q.heap && Apply(s, step).q.heap[id] == s.q.heap[id]
    ensures id in s.stranded ==> id in Apply(s, step).stranded || s.q.heap[id].IsFinished()
  {
    if !s.phase.Idle? { WorkerOwns(s); }
  }

  lemma ReleaseAdvances<Id>(s: State<Id>)
    requires Inv(s) && Enabled(s, Release)
    ensures s.phase.id in Apply(s, Release).q.heap
    ensures Later(s.q.heap[s.phase.id], Apply(s, Release).q.heap[s.phase.id])
  {
    WorkerOwns(s);
  }

  lemma HeldAdvances<Id>(s: State<Id>, step: Step<Id>)
    requires Inv(s) && Enabled(s, step) && !s.phase.Idle?
    ensures s.phase.id in s.q.heap && s.phase.id in Apply(s, step).q.heap
    ensures Later(s.q.heap[s.phase.id], Apply(s, step).q.heap[s.phase.id])
  {
    WorkerOwns(s);
    if step.Release? { ReleaseAdvances(s); }
  }

  lemma StepAdvancesTask<Id>(s: State<Id>, step: Step<Id>, id: Id)
    requires Inv(s) && Enabled(s, step) && id in s.q.heap
    ensures id in Apply(s, step).q.heap && Later(s.q.heap[id], Apply(s, step).q.heap[id])
  {
    if s.Holds(id) { HeldAdvances(s, step); } else { OthersKept(s, step, id); }
  }

  lemma StepOnlyAdvances<Id>(s: State<Id>, step: Step<Id>)
    requires Inv(s) && Enabled(s, step)
    ensures var t := Apply(s, step);
            && s.accepted <= t.accepted && s.taken <= t.taken && s.clock <= t.clock
            && forall id | id in s.q.heap :: id in t.q.heap && Later(s.q.heap[id], t.q.heap[id])
  {
    forall id | id in s.q.heap ensures id in Apply(s, step).q.heap && Later(s.q.heap[id], Apply(s, step).q.heap[id]) {
      StepAdvancesTask(s, step, id);
    }
  }

  /** Along any run a task only moves PENDING, RUNNING, terminal; its start, once set, and its end
      never change; tasks enter and leave the queue in one fixed order. */
  lemma {:induction false} RunOnlyAdvances<Id>(s: State<Id>, run: seq<Step<Id>>)
    requires Inv(s) && Legal(s, run)
    ensures var t := After(s, run);
            && s.accepted <= t.accepted && s.taken <= t.taken && s.clock <= t.clock
            && forall id | id in s.q.heap :: id in t.q.heap && Later(s.q.heap[id], t.q.heap[id])
    decreases |run|
  {
    if run != [] {
      StepOnlyAdvances(s, run[0]);
      StepKeepsInv(s, run[0]);
      RunOnlyAdvances(Apply(s, run[0]), run[1..]);
      LaterStill(s.q.heap, Apply(s, run[0]).q.heap, After(s, run).q.heap);
    }
  }

  lemma LaterStill<Id>(h0: map<Id, TaskData>, h1: map<Id, TaskData>, h2: map<Id, TaskData>)
    requires forall id | id in h0 :: id in h1 && Later(h0[id], h1[id])
    requires forall id | id in h1 :: id in h2 && Later(h1[id], h2[id])
    ensures forall id | id in h0 :: id in h2 && Later(h0[id], h2[id])
  {
  }

  /** A task in any reachable state: a success came at the latest on the last attempt, a failure
      after exactly the allowed number of failed attempts, and no ended task lacks its end time. */
  lemma RetryAccounting<Id>(now: int, run: seq<Step<Id>>, id: Id)
    requires Legal(Initial<Id>(now), run)
    requires id in After(Initial<Id>(now), run).q.heap
    ensures var d := After(Initial<Id>(now), run).q.heap[id];
            && (d.status == Success ==> d.retryCount < MAX_RETRIES && d.result.Some?)
            && (d.status == Failed ==> d.retryCount == MAX_RETRIES && d.error.Some?)
            && (d.IsFinished() ==> d.startedAt.Some? && d.finishedAt.Some? && d.startedAt.value <= d.finishedAt.value)
  {
    InitialInv<Id>(now);
    RunKeepsInv(Initial<Id>(now), run);
  }

  // ---- One task at a time -------------------------------------------------------------

  /** The first task was over, or given up by a stop, before the second one started. */
  ghost predicate InOrder<Id>(s: State<Id>, first: Id, second: Id) {
    && first in s.q.heap && second in s.q.heap
    && var a := s.q.heap[first];
       var b := s.q.heap[second];
       b.startedAt.Some? ==>
         && (a.startedAt.Some? ==> a.startedAt.value <= b.startedAt.value)
         && (a.finishedAt.Some? ==> a.finishedAt.value <= b.startedAt.value)
         && (a.IsFinished() || first in s.stranded)
  }

  /** Execution intervals, in the order of taking, do not overlap. */
  ghost predicate OneAtATime<Id>(s: State<Id>) {
    && (!s.phase.Idle? ==> s.taken != [] && s.taken[|s.taken| - 1] == s.phase.id)
    && (forall i, j | 0 <= i < j < |s.taken| :: InOrder(s, s.taken[i], s.taken[j]))
  }

  lemma TakenAreKnown<Id>(s: State<Id>)
    requires Ledger(s)
    ensures forall i | 0 <= i < |s.taken| :: s.taken[i] in s.q.heap && s.taken[i] in s.accepted
    ensures forall i, j | 0 <= i < j < |s.taken| :: s.taken[i] != s.taken[j]
  {
    forall i | 0 <= i < |s.taken| ensures s.taken[i] == s.accepted[i] {}
  }

  /** What a step makes of the start and the end of the task the worker holds. */
  lemma HeldTask<Id>(s: State<Id>, step: Step<Id>, id: Id)
    requires Inv(s) && Enabled(s, step) && s.Holds(id)
    ensures id in s.q.heap && id in Apply(s, step).q.heap
    ensures var d := Apply(s, step).q.heap[id].startedAt; d == s.q.heap[id].startedAt || d == Some(s.clock)
  {
    WorkerOwns(s);
  }

  lemma StepKeepsOrder<Id>(s: State<Id>, step: Step<Id>, first: Id, second: Id)
    requires Inv(s) && Enabled(s, step)
    requires InOrder(s, first, second) && first in s.taken && first != second && !s.Holds(first)
    ensures InOrder(Apply(s, step), first, second)
  {
    OthersKept(s, step, first);
    assert TaskWellFormed(s.q.heap[first], s.clock);
    if s.Holds(second) {
      HeldTask(s, step, second);
      StillInOrder(s, Apply(s, step), first, second);
    } else {
      OthersKept(s, step, second);
    }
  }

  /** A task that starts now starts after every task that is over. */
  lemma StillInOrder<Id>(s: State<Id>, t: State<Id>, first: Id, second: Id)
    requires InOrder(s, first, second) && first in t.q.heap && second in t.q.heap
    requires t.q.heap[first] == s.q.heap[first] && TaskWellFormed(s.q.heap[first], s.clock)
    requires s.q.heap[first].IsFinished() || (first in s.stranded && first in t.stranded)
    requires t.q.heap[second].startedAt in { s.q.heap[second].startedAt, Some(s.clock) }
    ensures InOrder(t, first, second)
  {
  }

  lemma StepKeepsOneAtATime<Id>(s: State<Id>, step: Step<Id>)
    requires Inv(s) && OneAtATime(s) && Enabled(s, step)
    ensures OneAtATime(Apply(s, step))
  {
    var t := Apply(s, step);
    TakenAreKnown(s);
    OnlyLastHeld(s);
    if !s.phase.Idle? { WorkerOwns(s); }
    LastTaken(s, step);
    forall i, j | 0 <= i < j < |t.taken| ensures InOrder(t, t.taken[i], t.taken[j]) {
      if j < |s.taken| {
        assert t.taken[i] == s.taken[i] && t.taken[j] == s.taken[j];
        assert InOrder(s, s.taken[i], s.taken[j]);
        StepKeepsOrder(s, step, s.taken[i], s.taken[j]);
      } else {
        assert t.taken[i] == s.taken[i];
        JustTaken(s, s.taken[i]);
      }
    }
  }

  lemma LastTaken<Id>(s: State<Id>, step: Step<Id>)
    requires OneAtATime(s) && Enabled(s, step)
    requires !s.phase.Idle? ==> s.phase.id in s.q.heap
    ensures var t := Apply(s, step);
            && t.taken == (if step.Take? then s.taken + [s.q.queue[0]] else s.taken)
            && (!t.phase.Idle? ==> t.taken != [] && t.taken[|t.taken| - 1] == t.phase.id)
  {
  }

  lemma OnlyLastHeld<Id>(s: State<Id>)
    requires Ledger(s) && OneAtATime(s)
    ensures forall i | 0 <= i < |s.taken| - 1 :: !s.Holds(s.taken[i])
  {
    TakenAreKnown(s);
  }

  /** A task that has just been taken has not started. */
  lemma JustTaken<Id>(s: State<Id>, earlier: Id)
    requires Inv(s) && Enabled(s, Take) && earlier in s.taken
    ensures InOrder(Apply(s, Take), earlier, s.q.queue[0])
  {
    HeadNotTaken(s);
    assert TaskWellFormed(s.q.heap[s.q.queue[0]], s.clock);
    assert earlier in s.accepted;
  }

  lemma {:induction false} RunKeepsOneAtATime<Id>(s: State<Id>, run: seq<Step<Id>>)
    requires Inv(s) && OneAtATime(s) && Legal(s, run)
    ensures OneAtATime(After(s, run))
    decreases |run|
  {
    if run != [] {
      StepKeepsInv(s, run[0]);
      StepKeepsOneAtATime(s, run[0]);
      RunKeepsOneAtATime(Apply(s, run[0]), run[1..]);
    }
  }

  /** From a fresh start, however submissions, clean-up, stops and restarts interleave with the
      worker: tasks start in acceptance order, the execution intervals are disjoint, and the only
      tasks found RUNNING are the worker's current one and those given up by a stop. */
  lemma TasksRunOneByOne<Id>(now: int, run: seq<Step<Id>>)
    requires Legal(Initial<Id>(now), run)
    ensures var t := After(Initial<Id>(now), run);
            && t.accepted == t.taken + t.q.queue
            && Distinct(t.accepted)
            && (forall i, j | 0 <= i < j < |t.taken| :: InOrder(t, t.taken[i], t.taken[j]))
            && (forall id | id in t.q.heap :: t.q.heap[id].status == Running ==> t.Holds(id) || id in t.stranded)
            && (forall id | id in t.q.queue :: id in t.q.heap && t.q.heap[id].startedAt == None)
  {
    var s := Initial<Id>(now);
    InitialInv<Id>(now);
    RunKeepsInv(s, run);
    RunKeepsOneAtATime(s, run);
    RunningTasks(After(s, run));
  }

  lemma RunningTasks<Id>(t: State<Id>)
    requires Inv(t)
    ensures forall id | id in t.q.heap :: t.q.heap[id].status == Running ==> t.Holds(id) || id in t.stranded
    ensures forall id | id in t.q.queue :: id in t.q.heap && t.q.heap[id].startedAt == None
  {
    forall id | id in t.q.queue ensures id in t.accepted {
      var i :| 0 <= i < |t.q.queue| && t.q.queue[i] == id;
      assert t.accepted[|t.taken| + i] == id;
    }
    forall id | id in t.q.heap && t.q.heap[id].status == Running ensures t.Holds(id) || id in t.stranded {
      assert id in t.accepted && id !in t.q.queue;
    }
  }

  // ---- Stopping in the middle of a task --------------------------------------------------

  ghost predicate GivenUp<Id>(s: State<Id>, id: Id) {
    id in s.stranded && id in s.q.heap && !s.q.heap[id].IsFinished()
  }

  lemma StepKeepsGivenUp<Id>(s: State<Id>, step: Step<Id>, id: Id)
    requires Inv(s) && Enabled(s, step) && GivenUp(s, id)
    ensures GivenUp(Apply(s, step), id)
    ensures Apply(s, step).q.heap[id] == s.q.heap[id]
  {
    if !s.phase.Idle? { WorkerOwns(s); }
    if step.Cleanup? {
      assert s.q.tasks[s.q.heap[id].serial] == id;
    }
  }

  /** A task the worker had in hand when it was stopped stays exactly as it was for ever, across
      restarts and clean-ups, and its serial is refused as a duplicate for ever. */
  lemma {:induction false} GivenUpForEver<Id>(s: State<Id>, run: seq<Step<Id>>, id: Id)
    requires Inv(s) && GivenUp(s, id) && Legal(s, run)
    ensures var t := After(s, run);
            && GivenUp(t, id) && t.q.heap[id] == s.q.heap[id]
            && EnqueueResultOf(t.q, s.q.heap[id].serial) == DuplicateSerial
    decreases |run|
  {
    if run != [] {
      StepKeepsGivenUp(s, run[0], id);
      StepKeepsInv(s, run[0]);
      GivenUpForEver(Apply(s, run[0]), run[1..], id);
    }
  }

  /** Exactly when a stop gives up a task: the worker has one in hand that has not ended. */
  lemma StopGivesUp<Id>(s: State<Id>, id: Id)
    requires Inv(s) && Enabled(s, StopWorker) && id !in s.stranded
    ensures GivenUp(Apply(s, StopWorker), id) <==> s.Holds(id) && !s.phase.Finishing?
  {
    if !s.phase.Idle? { WorkerOwns(s); }
  }

  // ---- Progress ---------------------------------------------------------------------------

  function PhaseWork<Id>(p: Phase<Id>): nat {
    match p
    case Idle => 0
    case Finishing(_, _) => 1
    case Executing(_, n) => if n <= MAX_RETRIES then 2 + MAX_RETRIES - n else 2
    case Marked(_) => 3 + MAX_RETRIES
    case Holding(_) => 4 + MAX_RETRIES
  }

  /** How many worker steps the tasks at hand can still cost. */
  function Work<Id>(s: State<Id>): nat {
    (5 + MAX_RETRIES) * |s.q.queue| + PhaseWork(s.phase)
  }

  predicate IsWorkerStep<Id>(step: Step<Id>) {
    step.Take? || step.MarkRunning? || step.PublishRunning? || step.FailAttempt? || step.Finish? || step.Release?
  }

  function WorkerSteps<Id>(run: seq<Step<Id>>): nat {
    if run == [] then 0 else (if IsWorkerStep(run[0]) then 1 else 0) + WorkerSteps(run[1..])
  }

  /** A running worker with anything left to do can always move. */
  lemma WorkerNeverStuck<Id>(s: State<Id>)
    requires Inv(s) && s.running
    ensures Work(s) > 0 <==> exists step: Step<Id> :: IsWorkerStep(step) && Enabled(s, step)
  {
    if !s.phase.Idle? { WorkerOwns(s); }
    if Work(s) > 0 {
      var step: Step<Id> :=
        match s.phase
        case Idle => Take
        case Holding(_) => MarkRunning
        case Marked(_) => PublishRunning
        case Executing(_, _) => Finish(TimedOut(""))
        case Finishing(_, _) => Release;
      assert IsWorkerStep(step) && Enabled(s, step);
    }
  }

  lemma WorkerStepWorks<Id>(s: State<Id>, step: Step<Id>)
    requires Inv(s) && Enabled(s, step) && !step.Submit?
    ensures Work(Apply(s, step)) + (if IsWorkerStep(step) then 1 else 0) <= Work(s)
  {
  }

  /** Without new submissions the worker takes at most `Work` steps, whatever else happens,
      so the queue drains: a run that has used them all up ends with nothing queued or in hand. */
  lemma {:induction false} QueueDrains<Id>(s: State<Id>, run: seq<Step<Id>>)
    requires Inv(s) && Legal(s, run)
    requires forall i | 0 <= i < |run| :: !run[i].Submit?
    ensures WorkerSteps(run) + Work(After(s, run)) <= Work(s)
    ensures WorkerSteps(run) >= Work(s) ==> After(s, run).q.queue == [] && After(s, run).phase.Idle?
    decreases |run|
  {
    if run != [] {
      WorkerStepWorks(s, run[0]);
      StepKeepsInv(s, run[0]);
      QueueDrains(Apply(s, run[0]), run[1..]);
    }
  }
}
