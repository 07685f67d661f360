/** The subprocesses of the worker beside its steps: a command that is cancelled from outside, by the
    overall limit or a stop, leaves its process running. */
module Subprocesses {
  import opened Wrappers
  import opened Sequences
  import opened Tasks
  import opened Controller
  import opened ControllerSafety

  /** `command` is the process that the current attempt waits for; `live` are those that run. */
  datatype Machine = Machine(ctl: State<nat>, command: Option<nat>, live: set<nat>, spawned: nat)

  /** `Over`: the attempt has seen its process end; it kills and reaps it first if it must. */
  datatype Event =
    | Spawn
    | Dies(p: nat)
    | Over
    | Move(step: Step<nat>)

  /** An attempt ends only after its command; the overall limit and a stop come at any time. */
  predicate Can(m: Machine, e: Event) {
    match e
    case Spawn => m.command.None? && m.ctl.phase.Executing? && m.ctl.phase.failures < MAX_RETRIES
    case Dies(p) => p in m.live
    case Over => m.command.Some? && m.command.value !in m.live
    case Move(step) =>
      && Enabled(m.ctl, step)
      && (step.FailAttempt? ==> m.command.None?)
      && (step.Finish? ==> step.outcome.TimedOut? || m.command.None?)
  }

  function Do(m: Machine, e: Event): Machine
    requires Can(m, e)
  {
    match e
    case Spawn => m.(command := Some(m.spawned), live := m.live + {m.spawned}, spawned := m.spawned + 1)
    case Dies(p) => m.(live := m.live - {p})
    case Over => m.(command := None)
    case Move(step) =>
      m.(ctl := Apply(m.ctl, step), command := if step.StopWorker? || step.Finish? then None else m.command)
  }

  ghost predicate Sound(m: Machine) {
    && Inv(m.ctl)
    && (m.command.Some? ==> m.ctl.phase.Executing? && m.command.value < m.spawned)
    && forall p | p in m.live :: p < m.spawned
  }

  lemma EventKeepsSound(m: Machine, e: Event)
    requires Sound(m) && Can(m, e)
    ensures Sound(Do(m, e))
  {
    if e.Move? { StepKeepsInv(m.ctl, e.step); }
  }

  /** A process that runs on although no attempt waits for it. */
  predicate Orphan(m: Machine, p: nat) {
    p in m.live && m.command != Some(p)
  }

  /** The limit or a stop falls inside a command whose process has not ended. */
  predicate Abandons(m: Machine, e: Event) {
    e.Move? && (e.step.StopWorker? || e.step.Finish?) && m.command.Some? && m.command.value in m.live
  }

  /** For every event: a process becomes an orphan exactly when its command is abandoned. */
  lemma OrphanedExactlyWhen(m: Machine, e: Event, p: nat)
    requires Sound(m) && Can(m, e) && !Orphan(m, p)
    ensures Orphan(Do(m, e), p) <==> Abandons(m, e) && m.command == Some(p)
  {
  }

  ghost predicate NoOrphans(m: Machine) {
    forall p :: !Orphan(m, p)
  }

  ghost predicate Overlap(m: Machine) {
    exists p, q :: p in m.live && q in m.live && p != q
  }

  // ---- Runs ----------------------------------------------------------------------------------------

  /** A run in which no command is abandoned. */
  predicate Patient(m: Machine, run: seq<Event>)
    decreases |run|
  {
    run == [] || (Can(m, run[0]) && !Abandons(m, run[0]) && Patient(Do(m, run[0]), run[1..]))
  }

  function After(m: Machine, run: seq<Event>): Machine
    requires Patient(m, run)
    decreases |run|
  {
    if run == [] then m else After(Do(m, run[0]), run[1..])
  }

  /** Without orphans, and as long as no command is abandoned, one subprocess runs at a time, over every
      run with submissions, restarts and clean-ups. */
  lemma {:induction false} OneProcessAtATime(m: Machine, run: seq<Event>)
    requires Sound(m) && NoOrphans(m) && Patient(m, run)
    ensures NoOrphans(After(m, run)) && !Overlap(After(m, run))
    decreases |run|
  {
    if run == [] {
      forall p | p in m.live ensures m.command == Some(p) {
        assert !Orphan(m, p);
      }
    } else {
      forall p ensures !Orphan(Do(m, run[0]), p) { OrphanedExactlyWhen(m, run[0], p); }
      EventKeepsSound(m, run[0]);
      OneProcessAtATime(Do(m, run[0]), run[1..]);
    }
  }

  lemma Before(m: Machine, e: Event, rest: seq<Event>)
    requires Can(m, e) && !Abandons(m, e) && Patient(Do(m, e), rest)
    ensures Patient(m, [e] + rest) && After(m, [e] + rest) == After(Do(m, e), rest)
  {
    assert ([e] + rest)[0] == e && ([e] + rest)[1..] == rest;
  }

  // ---- An orphan meets the next command ------------------------------------------------------------

  lemma FromExecuting(m: Machine, orphan: nat) returns (run: seq<Event>)
    requires Sound(m) && orphan in m.live && m.command.None? && m.ctl.phase.Executing? && m.ctl.phase.failures < MAX_RETRIES
    ensures Patient(m, run) && Overlap(After(m, run))
  {
    Before(m, Spawn, []);
    run := [Spawn] + [];
    assert orphan in After(m, run).live && m.spawned in After(m, run).live;
  }

  lemma FromMarked(m: Machine, orphan: nat) returns (run: seq<Event>)
    requires Sound(m) && orphan in m.live && m.command.None? && m.ctl.phase.Marked?
    ensures Patient(m, run) && Overlap(After(m, run))
  {
    WorkerOwns(m.ctl);
    var e := Move(PublishRunning);
    EventKeepsSound(m, e);
    var rest := FromExecuting(Do(m, e), orphan);
    Before(m, e, rest);
    run := [e] + rest;
  }

  lemma FromHolding(m: Machine, orphan: nat) returns (run: seq<Event>)
    requires Sound(m) && orphan in m.live && m.command.None? && m.ctl.phase.Holding?
    ensures Patient(m, run) && Overlap(After(m, run))
  {
    WorkerOwns(m.ctl);
    var e := Move(MarkRunning);
    EventKeepsSound(m, e);
    var rest := FromMarked(Do(m, e), orphan);
    Before(m, e, rest);
    run := [e] + rest;
  }

  lemma FromQueued(m: Machine, orphan: nat) returns (run: seq<Event>)
    requires Sound(m) && orphan in m.live && m.command.None? && m.ctl.phase.Idle? && m.ctl.running && m.ctl.q.queue != []
    ensures Patient(m, run) && Overlap(After(m, run))
  {
    var e := Move(Take);
    EventKeepsSound(m, e);
    var rest := FromHolding(Do(m, e), orphan);
    Before(m, e, rest);
    run := [e] + rest;
  }

  /** A serial longer than any of these. */
  lemma {:induction false} UnusedSerial(serials: set<Serial>) returns (s: Serial)
    ensures s !in serials && forall t | t in serials :: |t| < |s|
    decreases serials
  {
    if serials == {} {
      s := "a";
    } else {
      var t :| t in serials;
      var shorter := UnusedSerial(serials - {t});
      s := shorter + t + "a";
      assert forall u | u in serials :: u == t || u in serials - {t};
    }
  }

  lemma FromRunning(m: Machine, orphan: nat) returns (run: seq<Event>)
    requires Sound(m) && orphan in m.live && m.command.None? && m.ctl.phase.Idle? && m.ctl.running
    ensures Patient(m, run) && Overlap(After(m, run))
  {
    if m.ctl.q.queue != [] {
      run := FromQueued(m, orphan);
    } else {
      var serial := UnusedSerial(m.ctl.q.active);
      var id := AboveAll(m.ctl.q.heap.Keys);
      var e := Move(Submit(id, FreshTask(serial, m.ctl.clock)));
      EventKeepsSound(m, e);
      var rest := FromQueued(Do(m, e), orphan);
      Before(m, e, rest);
      run := [e] + rest;
    }
  }

  lemma FromIdle(m: Machine, orphan: nat) returns (run: seq<Event>)
    requires Sound(m) && orphan in m.live && m.command.None? && m.ctl.phase.Idle?
    ensures Patient(m, run) && Overlap(After(m, run))
  {
    if m.ctl.running {
      run := FromRunning(m, orphan);
    } else {
      var e := Move(StartWorker);
      EventKeepsSound(m, e);
      var rest := FromRunning(Do(m, e), orphan);
      Before(m, e, rest);
      run := [e] + rest;
    }
  }

  lemma FromFinishing(m: Machine, orphan: nat) returns (run: seq<Event>)
    requires Sound(m) && orphan in m.live && m.command.None? && m.ctl.phase.Finishing?
    ensures Patient(m, run) && Overlap(After(m, run))
  {
    WorkerOwns(m.ctl);
    var e := Move(Release);
    EventKeepsSound(m, e);
    var rest := FromIdle(Do(m, e), orphan);
    Before(m, e, rest);
    run := [e] + rest;
  }

  lemma FromExhausted(m: Machine, orphan: nat) returns (run: seq<Event>)
    requires Sound(m) && orphan in m.live && m.command.None? && m.ctl.phase.Executing? && m.ctl.phase.failures >= MAX_RETRIES
    ensures Patient(m, run) && Overlap(After(m, run))
  {
    WorkerOwns(m.ctl);
    var e := Move(Finish(TimedOut("")));
    EventKeepsSound(m, e);
    var rest := FromFinishing(Do(m, e), orphan);
    Before(m, e, rest);
    run := [e] + rest;
  }

  lemma FromAnywhere(m: Machine, orphan: nat) returns (run: seq<Event>)
    requires Sound(m) && orphan in m.live && m.command.None?
    ensures Patient(m, run) && Overlap(After(m, run))
  {
    match m.ctl.phase
    case Idle => run := FromIdle(m, orphan);
    case Holding(_) => run := FromHolding(m, orphan);
    case Marked(_) => run := FromMarked(m, orphan);
    case Executing(_, n) => if n < MAX_RETRIES { run := FromExecuting(m, orphan); } else { run := FromExhausted(m, orphan); }
    case Finishing(_, _) => run := FromFinishing(m, orphan);
  }

  lemma OrphanMeetsNext(m: Machine, orphan: nat) returns (run: seq<Event>)
    requires Sound(m) && Orphan(m, orphan)
    ensures Patient(m, run) && Overlap(After(m, run))
  {
    if m.command.None? {
      run := FromAnywhere(m, orphan);
    } else if m.command.value in m.live {
      run := [];
      assert orphan in m.live && m.command.value in m.live && orphan != m.command.value;
    } else {
      EventKeepsSound(m, Over);
      var rest := FromAnywhere(Do(m, Over), orphan);
      Before(m, Over, rest);
      run := [Over] + rest;
    }
  }

  ghost predicate ComesToOverlap(m: Machine, run: seq<Event>) {
    Patient(m, run) && Overlap(After(m, run))
  }

  /** Two subprocesses can come to run side by side, without a command being abandoned from now on,
      exactly when one has been left behind already. */
  lemma OverlapExactlyWhen(m: Machine)
    requires Sound(m)
    ensures (exists run :: ComesToOverlap(m, run)) <==> !NoOrphans(m)
  {
    if NoOrphans(m) {
      forall run ensures !ComesToOverlap(m, run) {
        if Patient(m, run) { OneProcessAtATime(m, run); }
      }
    } else {
      var orphan :| Orphan(m, orphan);
      var run := OrphanMeetsNext(m, orphan);
      assert ComesToOverlap(m, run);
    }
  }

  // ---- A run from the beginning --------------------------------------------------------------------

  predicate Possible(m: Machine, run: seq<Event>)
    decreases |run|
  {
    run == [] || (Can(m, run[0]) && Possible(Do(m, run[0]), run[1..]))
  }

  function Reached(m: Machine, run: seq<Event>): Machine
    requires Possible(m, run)
    decreases |run|
  {
    if run == [] then m else Reached(Do(m, run[0]), run[1..])
  }

  lemma First(m: Machine, e: Event, rest: seq<Event>)
    requires Can(m, e) && Possible(Do(m, e), rest)
    ensures Possible(m, [e] + rest) && Reached(m, [e] + rest) == Reached(Do(m, e), rest)
  {
    assert ([e] + rest)[0] == e && ([e] + rest)[1..] == rest;
  }

  function Beginning(now: int): Machine {
    Machine(Initial<nat>(now), None, {}, 0)
  }

  lemma BeginningSound(now: int)
    ensures Sound(Beginning(now)) && NoOrphans(Beginning(now))
  {
    InitialInv<nat>(now);
  }

  lemma StoppedInCommand(m: Machine) returns (run: seq<Event>)
    requires m.ctl.running && m.command.None? && m.ctl.phase.Executing? && m.ctl.phase.failures < MAX_RETRIES
    ensures Possible(m, run) && Orphan(Reached(m, run), m.spawned)
  {
    var m1 := Do(m, Spawn);
    First(m1, Move(StopWorker), []);
    var rest := [Move(StopWorker)] + [];
    First(m, Spawn, rest);
    run := [Spawn] + rest;
  }

  lemma StoppedWhenTaken(m: Machine) returns (run: seq<Event>)
    requires m.ctl.running && m.command.None? && m.ctl.phase.Holding? && m.ctl.phase.id in m.ctl.q.heap
    ensures Possible(m, run) && Orphan(Reached(m, run), m.spawned)
  {
    var m1 := Do(m, Move(MarkRunning));
    var m2 := Do(m1, Move(PublishRunning));
    var rest := StoppedInCommand(m2);
    First(m1, Move(PublishRunning), rest);
    var more := [Move(PublishRunning)] + rest;
    First(m, Move(MarkRunning), more);
    run := [Move(MarkRunning)] + more;
  }

  /** From the beginning: a task is submitted and taken, its command started, and the worker stopped. */
  lemma StopLeavesProcess(now: int, serial: Serial) returns (run: seq<Event>)
    ensures Possible(Beginning(now), run) && Orphan(Reached(Beginning(now), run), 0)
  {
    var m0 := Beginning(now);
    var submit := Move(Submit(0, FreshTask(serial, now)));
    var m1 := Do(m0, submit);
    var m2 := Do(m1, Move(StartWorker));
    var m3 := Do(m2, Move(Take));
    var rest := StoppedWhenTaken(m3);
    First(m2, Move(Take), rest);
    var rest2 := [Move(Take)] + rest;
    First(m1, Move(StartWorker), rest2);
    var rest1 := [Move(StartWorker)] + rest2;
    First(m0, submit, rest1);
    run := [submit] + rest1;
  }
}
