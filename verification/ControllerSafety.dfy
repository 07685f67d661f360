/** What every run of controllersrv keeps. */
module ControllerSafety {
  import opened Wrappers
  import opened Tasks
  import opened Controller

  lemma InitialInv<Id>(now: int)
    ensures Inv(Initial<Id>(now))
  {
  }

  /** The next task to be taken has never been taken before. */
  lemma HeadNotTaken<Id>(s: State<Id>)
    requires Ledger(s) && s.q.queue != []
    ensures s.q.queue[0] !in s.taken && s.q.queue[0] in s.q.heap && s.q.queue[0] !in s.q.queue[1..]
    ensures forall id | id in s.q.queue :: id !in s.taken
  {
    var n := |s.taken|;
    assert s.accepted[n] == s.q.queue[0];
    forall i, j | 0 <= i < n && 0 <= j < |s.q.queue| ensures s.taken[i] != s.q.queue[j] {
      assert s.accepted[i] == s.taken[i] && s.accepted[n + j] == s.q.queue[j];
    }
    forall j | 1 <= j < |s.q.queue| ensures s.q.queue[j] != s.q.queue[0] {
      assert s.accepted[n + j] == s.q.queue[j];
    }
  }

  /** The worker's own task owns its serial, and its status update reaches that very task. */
  lemma WorkerOwns<Id>(s: State<Id>)
    requires Inv(s) && !s.phase.Idle?
    ensures s.phase.id in s.q.heap && s.phase.id !in s.q.queue
    ensures s.q.heap[s.phase.id].serial in s.q.tasks && s.q.tasks[s.q.heap[s.phase.id].serial] == s.phase.id
    ensures s.q.heap[s.phase.id].serial in s.q.active
  {
    assert s.phase.id in s.accepted;
    if s.q.queue != [] { HeadNotTaken(s); }
  }

  lemma StepKeepsLedger<Id>(s: State<Id>, step: Step<Id>)
    requires Inv(s) && Enabled(s, step)
    ensures Ledger(Apply(s, step))
  {
    if !s.phase.Idle? { WorkerOwns(s); }
    if step.Take? {
      assert s.q.queue == [s.q.queue[0]] + s.q.queue[1..];
    } else if !step.Submit? {
      HeapStays(s, step);
    }
  }

  /** Only a submission adds a task, and only it and `Take` move anything in the queue. */
  lemma HeapStays<Id>(s: State<Id>, step: Step<Id>)
    requires Enabled(s, step) && !step.Submit?
    requires !s.phase.Idle? ==> s.phase.id in s.q.heap
    requires forall n | n in s.q.tasks :: s.q.tasks[n] in s.q.heap
    ensures Apply(s, step).q.heap.Keys == s.q.heap.Keys && Apply(s, step).accepted == s.accepted
    ensures !step.Take? ==> Apply(s, step).q.queue == s.q.queue && Apply(s, step).taken == s.taken
  {
  }

  lemma SubmitKeepsInv<Id>(s: State<Id>, id: Id, data: TaskData)
    requires Inv(s) && Enabled(s, Submit(id, data))
    ensures Inv(Apply(s, Submit(id, data)))
  {
    StepKeepsLedger(s, Submit(id, data));
    SubmitKeepsOwned(s, id, data);
    SubmitKeepsPlaced(s, id, data);
  }

  lemma SubmitKeepsPlaced<Id>(s: State<Id>, id: Id, data: TaskData)
    requires Inv(s) && Enabled(s, Submit(id, data))
    ensures Placed(Apply(s, Submit(id, data))) && Timed(Apply(s, Submit(id, data)))
  {
  }

  lemma SubmitKeepsOwned<Id>(s: State<Id>, id: Id, data: TaskData)
    requires Inv(s) && Enabled(s, Submit(id, data))
    ensures Indexed(Apply(s, Submit(id, data))) && Owned(Apply(s, Submit(id, data)))
  {
  }

  lemma TakeKeepsInv<Id>(s: State<Id>)
    requires Inv(s) && Enabled(s, Take)
    ensures Inv(Apply(s, Take))
  {
    StepKeepsLedger(s, Take);
    HeadNotTaken(s);
  }

  lemma StopKeepsInv<Id>(s: State<Id>)
    requires Inv(s) && Enabled(s, StopWorker)
    ensures Inv(Apply(s, StopWorker))
  {
    if !s.phase.Idle? { WorkerOwns(s); }
    StepKeepsLedger(s, StopWorker);
  }

  /** Whatever the worker does to its own task, consistently with where it is, keeps the invariant. */
  lemma OwnTaskRewritten<Id>(s: State<Id>, d: TaskData, p: Phase<Id>)
    requires Inv(s) && !s.phase.Idle? && !p.Idle? && p.id == s.phase.id
    requires s.phase.id in s.q.heap && d.serial == s.q.heap[s.phase.id].serial
    requires TaskWellFormed(d, s.clock) && PhaseAgrees(p, d)
    requires p.Finishing? ==> d.finishedAt.Some? && s.clock - d.finishedAt.value <= SERIAL_NUMBER_MAX_AGE
    ensures Inv(s.(q := WithTask(s.q, s.phase.id, d), phase := p))
  {
    WorkerOwns(s);
    RewrittenLedger(s, d, p);
    RewrittenOwned(s, d, p);
    RewrittenPlaced(s, d, p);
  }

  lemma RewrittenLedger<Id>(s: State<Id>, d: TaskData, p: Phase<Id>)
    requires Inv(s) && !s.phase.Idle? && s.phase.id in s.q.heap && d.serial == s.q.heap[s.phase.id].serial
    ensures Ledger(s.(q := WithTask(s.q, s.phase.id, d), phase := p)) && Indexed(s.(q := WithTask(s.q, s.phase.id, d), phase := p))
  {
  }

  lemma RewrittenOwned<Id>(s: State<Id>, d: TaskData, p: Phase<Id>)
    requires Inv(s) && !s.phase.Idle? && !p.Idle? && p.id == s.phase.id
    requires s.phase.id in s.q.heap && d.serial == s.q.heap[s.phase.id].serial && PhaseAgrees(p, d)
    ensures Owned(s.(q := WithTask(s.q, s.phase.id, d), phase := p))
  {
    WorkerOwns(s);
    var s' := s.(q := WithTask(s.q, s.phase.id, d), phase := p);
    forall id | id in s'.q.heap && (!s'.q.heap[id].IsFinished() || s'.Window(id))
      ensures s'.q.heap[id].serial in s'.q.active && s'.q.tasks[s'.q.heap[id].serial] == id
    {
      assert id == s.phase.id || (s'.q.heap[id] == s.q.heap[id] && (s'.Window(id) ==> s.Window(id)));
    }
  }

  lemma RewrittenPlaced<Id>(s: State<Id>, d: TaskData, p: Phase<Id>)
    requires Inv(s) && !s.phase.Idle? && !p.Idle? && p.id == s.phase.id && s.phase.id in s.q.heap && s.phase.id !in s.q.queue
    requires TaskWellFormed(d, s.clock) && PhaseAgrees(p, d)
    requires p.Finishing? ==> d.finishedAt.Some? && s.clock - d.finishedAt.value <= SERIAL_NUMBER_MAX_AGE
    ensures Placed(s.(q := WithTask(s.q, s.phase.id, d), phase := p)) && Timed(s.(q := WithTask(s.q, s.phase.id, d), phase := p))
  {
  }

  lemma WorkerStepKeepsInv<Id>(s: State<Id>, step: Step<Id>)
    requires Inv(s) && Enabled(s, step)
    requires step.MarkRunning? || step.PublishRunning? || step.FailAttempt? || step.Finish?
    ensures Inv(Apply(s, step))
  {
    WorkerOwns(s);
    var s' := Apply(s, step);
    var d, p := s'.q.heap[s.phase.id], s'.phase;
    OwnStep(s, step);
    OwnTaskRewritten(s, d, p);
  }

  /** These steps rewrite the task in hand, consistently with where the worker is. */
  lemma OwnStep<Id>(s: State<Id>, step: Step<Id>)
    requires Inv(s) && Enabled(s, step) && !s.phase.Idle? && s.phase.id in s.q.heap
    requires s.q.heap[s.phase.id].serial in s.q.tasks && s.q.tasks[s.q.heap[s.phase.id].serial] == s.phase.id
    requires step.MarkRunning? || step.PublishRunning? || step.FailAttempt? || step.Finish?
    ensures var s' := Apply(s, step);
            && s.phase.id in s'.q.heap
            && var d, p := s'.q.heap[s.phase.id], s'.phase;
               && s' == s.(q := WithTask(s.q, s.phase.id, d), phase := p) && !p.Idle? && p.id == s.phase.id
               && d.serial == s.q.heap[s.phase.id].serial && TaskWellFormed(d, s.clock) && PhaseAgrees(p, d)
               && (p.Finishing? ==> d.finishedAt == Some(s.clock))
  {
    assert TaskWellFormed(s.q.heap[s.phase.id], s.clock);
  }

  /** Publishing an outcome does not change the status the task already has. */
  lemma PublishedOutcome<Id>(s: State<Id>)
    requires Inv(s) && s.phase.Finishing?
    ensures s.phase.id in s.q.heap
    ensures var o := s.phase.outcome;
            Inv(s.(q := WithTask(s.q, s.phase.id, Overwritten(s.q.heap[s.phase.id], o.Status(), o.PublishedResult(), o.PublishedError()))))
  {
    WorkerOwns(s);
    var o := s.phase.outcome;
    OwnTaskRewritten(s, Overwritten(s.q.heap[s.phase.id], o.Status(), o.PublishedResult(), o.PublishedError()), s.phase);
  }

  lemma SerialFreed<Id>(s: State<Id>)
    requires Inv(s) && s.phase.Finishing? && s.phase.id in s.q.heap
    ensures Inv(s.(q := s.q.(active := s.q.active - {s.q.heap[s.phase.id].serial}), phase := Idle))
  {
    WorkerOwns(s);
  }

  lemma ReleaseKeepsInv<Id>(s: State<Id>)
    requires Inv(s) && Enabled(s, Release)
    ensures Inv(Apply(s, Release))
  {
    WorkerOwns(s);
    var serial := s.q.heap[s.phase.id].serial;
    if serial == "" {
    } else {
      var o := s.phase.outcome;
      PublishedOutcome(s);
      var s1 := s.(q := WithTask(s.q, s.phase.id, Overwritten(s.q.heap[s.phase.id], o.Status(), o.PublishedResult(), o.PublishedError())));
      SerialFreed(s1);
      assert Apply(s, Release) == s1.(q := s1.q.(active := s1.q.active - {serial}), phase := Idle);
    }
  }

  lemma CleanupKeepsOwned<Id>(s: State<Id>)
    requires Inv(s) && Enabled(s, Cleanup)
    ensures Indexed(Apply(s, Cleanup)) && Owned(Apply(s, Cleanup))
  {
    if !s.phase.Idle? { WorkerOwns(s); }
  }

  lemma CleanupKeepsPlaced<Id>(s: State<Id>)
    requires Inv(s) && Enabled(s, Cleanup)
    ensures Placed(Apply(s, Cleanup)) && Timed(Apply(s, Cleanup))
  {
  }

  lemma CleanupKeepsInv<Id>(s: State<Id>)
    requires Inv(s) && Enabled(s, Cleanup)
    ensures Inv(Apply(s, Cleanup))
  {
    StepKeepsLedger(s, Cleanup);
    CleanupKeepsOwned(s);
    CleanupKeepsPlaced(s);
  }

  lemma StepKeepsInv<Id>(s: State<Id>, step: Step<Id>)
    requires Inv(s) && Enabled(s, step)
    ensures Inv(Apply(s, step))
  {
    match step
    case Submit(id, data) => SubmitKeepsInv(s, id, data);
    case StartWorker =>
    case StopWorker => StopKeepsInv(s);
    case Take => TakeKeepsInv(s);
    case MarkRunning => WorkerStepKeepsInv(s, step);
    case PublishRunning => WorkerStepKeepsInv(s, step);
    case FailAttempt => WorkerStepKeepsInv(s, step);
    case Finish(_) => WorkerStepKeepsInv(s, step);
    case Release => ReleaseKeepsInv(s);
    case Cleanup => CleanupKeepsInv(s);
    case Tick(_) =>
  }
}
