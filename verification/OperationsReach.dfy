/** Which worlds the service-operation protocol can lead to, and runs that lead there. */
module OperationsReach {
  import opened Wrappers
  import opened Sequences
  import opened Whitespace
  import opened Tasks
  import opened Controller
  import ControllerSafety
  import Runs = ControllerRuns
  import opened Operations
  import opened OperationsSafety
  import opened OperationsRuns

  /** What can get lost in a run: that the caller of controllersrv sees a failure reply instead of the
      answer, or an exception. */
  datatype Losses = Losses(failures: bool, exceptions: bool)

  const NO_LOSSES := Losses(false, false)

  predicate Allows(l: Losses, m: Move) {
    (m.GetFailureReply? ==> l.failures) && (m.GetException? ==> l.exceptions)
  }

  predicate Within(l: Losses, run: seq<Move>) {
    forall i | 0 <= i < |run| :: Allows(l, run[i])
  }

  ghost predicate Leads(l: Losses, w: World, v: World) {
    exists run :: Feasible(w, run) && Within(l, run) && Reached(w, run) == v
  }

  lemma LeadsNowhere(l: Losses, w: World)
    ensures Leads(l, w, w)
  {
    assert Feasible(w, []) && Within(l, []) && Reached(w, []) == w;
  }

  /** One move more at the end. */
  lemma LeadsOn(l: Losses, w: World, v: World, m: Move)
    requires Leads(l, w, v) && Can(v, m) && Allows(l, m)
    ensures Leads(l, w, Do(v, m))
  {
    var run :| Feasible(w, run) && Within(l, run) && Reached(w, run) == v;
    OneMore(w, run, m);
    assert Feasible(w, run + [m]) && Within(l, run + [m]);
  }

  lemma {:induction false} OneMore(w: World, run: seq<Move>, m: Move)
    requires Feasible(w, run) && Can(Reached(w, run), m)
    ensures Feasible(w, run + [m]) && Reached(w, run + [m]) == Do(Reached(w, run), m)
    decreases |run|
  {
    if run == [] {
      assert [] + [m] == [m];
    } else {
      OneMore(Do(w, run[0]), run[1..], m);
      assert (run + [m])[0] == run[0] && (run + [m])[1..] == run[1..] + [m];
    }
  }

  /** One step of controllersrv more at the end. */
  lemma LeadsInside(l: Losses, w: World, v: World, step: Step<nat>)
    requires Leads(l, w, v) && Enabled(v.ctl, step) && !step.Submit?
    ensures Leads(l, w, v.(ctl := Apply(v.ctl, step)))
  {
    LeadsOn(l, w, v, Internal(step));
  }

  /** What every run keeps holds wherever it leads. */
  lemma LeadsKeepsInv(l: Losses, w: World, v: World)
    requires WorldInv(w) && Leads(l, w, v)
    ensures WorldInv(v)
  {
    var run :| Feasible(w, run) && Within(l, run) && Reached(w, run) == v;
    RunKeepsInv(w, run);
  }

  // ---- Letting controllersrv work off what it has ------------------------------------------------

  /** Nothing queued and nothing in hand. */
  ghost predicate Drained(c: State<nat>) {
    c.running && c.phase.Idle? && c.q.queue == []
  }

  /** A serial is taken for good when a stop has given up a task with it. */
  ghost predicate TakenForGood(c: State<nat>, serial: Serial) {
    exists id :: Runs.GivenUp(c, id) && c.q.heap[id].serial == serial
  }

  /** From any world the worker can be left to drain its queue, while nothing else happens. */
  lemma {:induction false} WorkerCanDrain(l: Losses, w0: World, w: World) returns (v: World)
    requires Leads(l, w0, w) && Inv(w.ctl) && w.ctl.running
    ensures Leads(l, w0, v) && v == w.(ctl := v.ctl) && Inv(v.ctl) && Drained(v.ctl)
    ensures forall serial | TakenForGood(v.ctl, serial) :: TakenForGood(w.ctl, serial)
    decreases Runs.Work(w.ctl)
  {
    Runs.WorkerNeverStuck(w.ctl);
    if Runs.Work(w.ctl) == 0 {
      v := w;
    } else {
      var step: Step<nat> :| Runs.IsWorkerStep(step) && Enabled(w.ctl, step);
      DrainingStep(w.ctl, step);
      LeadsInside(l, w0, w, step);
      v := WorkerCanDrain(l, w0, w.(ctl := Apply(w.ctl, step)));
    }
  }

  lemma DrainingStep(c: State<nat>, step: Step<nat>)
    requires Inv(c) && c.running && Enabled(c, step) && Runs.IsWorkerStep(step)
    ensures Inv(Apply(c, step)) && Apply(c, step).running && Runs.Work(Apply(c, step)) < Runs.Work(c)
    ensures forall serial | TakenForGood(Apply(c, step), serial) :: TakenForGood(c, serial)
  {
    Runs.WorkerStepWorks(c, step);
    ControllerSafety.StepKeepsInv(c, step);
    WorkerGivesUpNothing(c, step);
  }

  /** Only a stop takes a serial for good. */
  lemma WorkerGivesUpNothing(c: State<nat>, step: Step<nat>)
    requires Inv(c) && Enabled(c, step) && !step.StopWorker? && !step.Submit?
    ensures forall serial | TakenForGood(Apply(c, step), serial) :: TakenForGood(c, serial)
  {
    forall serial | TakenForGood(Apply(c, step), serial) ensures TakenForGood(c, serial) {
      var id :| Runs.GivenUp(Apply(c, step), id) && Apply(c, step).q.heap[id].serial == serial;
      StillGivenUp(c, step, id);
    }
  }

  lemma StillGivenUp(c: State<nat>, step: Step<nat>, id: nat)
    requires Inv(c) && Enabled(c, step) && !step.StopWorker? && !step.Submit?
    requires Runs.GivenUp(Apply(c, step), id)
    ensures Runs.GivenUp(c, id) && c.q.heap[id].serial == Apply(c, step).q.heap[id].serial
  {
    if !c.phase.Idle? { ControllerSafety.WorkerOwns(c); }
  }

  lemma ReservedAfterDraining(c: State<nat>, n: Serial)
    requires Inv(c) && Drained(c) && n in c.q.active
    ensures n in c.q.tasks && c.q.tasks[n] in c.q.heap && c.q.tasks[n] in c.stranded && c.q.heap[c.q.tasks[n]].serial == n
  {
    var id := c.q.tasks[n];
    assert id in c.accepted && c.accepted == c.taken;
  }

  /** Clean-up after the retention age then frees every serial except those taken for good. */
  lemma CleanedAfterDraining(c: State<nat>, now: int)
    requires Inv(c) && Drained(c) && now > c.clock + SERIAL_NUMBER_MAX_AGE
    ensures Enabled(c, Tick(now))
    ensures forall n | n in Apply(Apply(c, Tick(now)), Cleanup).q.active :: TakenForGood(c, n)
  {
    forall n | n in Apply(Apply(c, Tick(now)), Cleanup).q.active ensures TakenForGood(c, n) {
      ReservedAfterDraining(c, n);
      var id := c.q.tasks[n];
      assert TaskWellFormed(c.q.heap[id], c.clock);
      assert Runs.GivenUp(c, id);
    }
  }

  lemma CanBeRunning(l: Losses, w0: World, w: World) returns (v: World)
    requires Leads(l, w0, w) && Inv(w.ctl)
    ensures Leads(l, w0, v) && v == w.(ctl := v.ctl) && Inv(v.ctl) && v.ctl.running
    ensures forall serial | TakenForGood(v.ctl, serial) :: TakenForGood(w.ctl, serial)
  {
    v := w;
    if !w.ctl.running {
      LeadsInside(l, w0, w, StartWorker);
      ControllerSafety.StepKeepsInv(w.ctl, StartWorker);
      WorkerGivesUpNothing(w.ctl, StartWorker);
      v := w.(ctl := Apply(w.ctl, StartWorker));
    }
  }

  lemma CanBeCleaned(l: Losses, w0: World, w: World) returns (v: World)
    requires Leads(l, w0, w) && Inv(w.ctl) && Drained(w.ctl)
    ensures Leads(l, w0, v) && v == w.(ctl := v.ctl) && Inv(v.ctl) && v.ctl.q.queue == []
    ensures forall n | n in v.ctl.q.active :: TakenForGood(w.ctl, n)
  {
    var now := w.ctl.clock + SERIAL_NUMBER_MAX_AGE + 1;
    CleanedAfterDraining(w.ctl, now);
    LeadsInside(l, w0, w, Tick(now));
    ControllerSafety.StepKeepsInv(w.ctl, Tick(now));
    var w1 := w.(ctl := Apply(w.ctl, Tick(now)));
    LeadsInside(l, w0, w1, Cleanup);
    ControllerSafety.StepKeepsInv(w1.ctl, Cleanup);
    v := w1.(ctl := Apply(w1.ctl, Cleanup));
  }

  /** Time can pass, once the worker has drained its queue. */
  lemma TimeCanPass(l: Losses, w0: World, w: World, time: int) returns (v: World)
    requires Leads(l, w0, w) && Inv(w.ctl)
    ensures Leads(l, w0, v) && v == w.(ctl := v.ctl) && v.ctl.clock > time
  {
    var w1 := CanBeRunning(l, w0, w);
    v := WorkerCanDrain(l, w0, w1);
    if v.ctl.clock <= time {
      LeadsInside(l, w0, v, Tick(time + 1));
      v := v.(ctl := Apply(v.ctl, Tick(time + 1)));
    }
  }

  /** Any serial that is not taken for good can become free again. Only when draining is not enough,
      because a stop has kept an ended task from being released, a day has to pass. */
  lemma SerialCanBeFreed(l: Losses, w0: World, w: World, serial: Serial) returns (v: World)
    requires Leads(l, w0, w) && Inv(w.ctl) && !TakenForGood(w.ctl, serial)
    ensures Leads(l, w0, v) && v == w.(ctl := v.ctl) && Inv(v.ctl)
    ensures EnqueueResultOf(v.ctl.q, serial) == Accepted
  {
    var w1 := CanBeRunning(l, w0, w);
    v := WorkerCanDrain(l, w0, w1);
    if serial in v.ctl.q.active {
      v := CanBeCleaned(l, w0, v);
    }
  }

  // ---- Calls in order ----------------------------------------------------------------------------

  /** A request counts its calls: those made are not later than where it is. */
  ghost predicate CallsCounted(w: World, r: Request)
    requires r in w.handlers
  {
    match w.handlers[r].pc
    case Checking => forall call | call in w.sent :: call.request != r
    case Creating => forall call | call in w.sent :: call.request != r
    case Calling(n, _) => forall call | call in w.sent && call.request == r :: call.attempt < n
    case Waiting(n, _) => Call(r, n) in w.sent && forall call | call in w.sent && call.request == r :: call.attempt <= n
    case Writing(_, _, _) => true
    case Done => true
  }

  ghost predicate Counted(w: World) {
    forall r | r in w.handlers :: CallsCounted(w, r)
  }

  lemma MoveKeepsCounted(w: World, m: Move)
    requires CallsSound(w) && Counted(w) && Can(w, m)
    ensures Counted(Do(w, m))
  {
    forall r | r in Do(w, m).handlers ensures CallsCounted(Do(w, m), r) {
      if RequestOf(m) == Some(r) {
        OwnMoveCounts(w, m, r);
      } else {
        assert r in w.handlers by { HandlersGrow(w, m, r); }
        OthersStaySame(w, m, r);
        SameCounts(w, Do(w, m), r);
      }
    }
  }

  lemma HandlersGrow(w: World, m: Move, r: Request)
    requires Can(w, m) && r in Do(w, m).handlers
    ensures r !in w.handlers ==> RequestOf(m) == Some(r)
  {
    if RequestOf(m).None? { QuietHandlers(w, m); }
  }

  lemma QuietHandlers(w: World, m: Move)
    requires Can(w, m) && RequestOf(m).None?
    ensures Do(w, m).handlers == w.handlers
  {
  }

  lemma OwnMoveCounts(w: World, m: Move, r: Request)
    requires CallsSound(w) && Counted(w) && Can(w, m) && RequestOf(m) == Some(r)
    ensures r in Do(w, m).handlers && CallsCounted(Do(w, m), r)
  {
    if r in w.handlers { assert CallsCounted(w, r); }
  }

  lemma SameCounts(w: World, w': World, r: Request)
    requires SameFor(w, w', r) && CallsCounted(w, r)
    ensures CallsCounted(w', r)
  {
  }

  lemma {:induction false} RunKeepsCounted(w: World, run: seq<Move>)
    requires WorldInv(w) && Counted(w) && Feasible(w, run)
    ensures WorldInv(Reached(w, run)) && Counted(Reached(w, run))
    decreases |run|
  {
    if run != [] {
      MoveKeepsCounted(w, run[0]);
      MoveKeepsInv(w, run[0]);
      RunKeepsCounted(Do(w, run[0]), run[1..]);
    }
  }

  // ---- Deliveries -------------------------------------------------------------------------------------

  /** A call under way can be delivered, whatever the answer. */
  lemma CanBeDelivered(l: Losses, w0: World, w: World, call: Operations.Call) returns (v: World, id: nat)
    requires Leads(l, w0, w) && call in w.sent && call !in w.answers && call.request in w.handlers
    requires Strip(w.handlers[call.request].op) != ""
    ensures id !in w.ctl.q.heap
    ensures var serial := Strip(w.handlers[call.request].op);
            && v == w.(answers := w.answers[call := EnqueueResultOf(w.ctl.q, serial)],
                       ctl := Apply(w.ctl, Submit(id, FreshTask(serial, w.ctl.clock))))
    ensures Leads(l, w0, v)
  {
    var serial := Strip(w.handlers[call.request].op);
    id := AboveAll(w.ctl.q.heap.Keys);
    var move := Deliver(call, id, FreshTask(serial, w.ctl.clock));
    LeadsOn(l, w0, w, move);
    v := Do(w, move);
  }
}
