/** The worker of controllersrv: commands under a timeout, the retry loop under an overall limit,
    and the whole life of one task, shown to be a run of the step system. */
module TaskWorkers {
  import opened Wrappers
  import opened Numerals
  import opened Tasks
  import opened Controller
  import opened ControllerSafety
  import opened TaskQueues

  const TASK_MAX_EXECUTION_TIME: nat := 1200
  const RETRY_DELAY: nat := 2
  const TERMINATE_GRACE: nat := 5

  function CommandTimeout(operation: OperationType): Option<nat> {
    match operation
    case Start => Some(300)
    case Stop => Some(60)
    case Restart => Some(120)
    case _ => None
  }

  /** A subprocess as the worker meets it: when it exits by itself, how long it lives on after
      being asked to terminate, how long it takes to be reaped once killed, and what it writes, as text
      without white space around it. */
  datatype Process =
    | SpawnFails(message: string)
    | Process(exitAfter: Option<nat>, exitAfterTerminate: Option<nat>, reapAfterKill: nat,
              returnCode: int, stdout: string, stderr: string)

  datatype Attempt = Attempt(result: Result, duration: nat)
  datatype Result = Output(payload: Payload) | Raised(message: string)

  /** One attempt at a command with this timeout (`None`: the operation is not supported). */
  function Attempted(p: Process, timeout: Option<nat>): Attempt {
    if timeout == None then Attempt(Raised("Unsupported operation"), 0)
    else if p.SpawnFails? then Attempt(Raised(p.message), 0)
    else if p.exitAfter.Some? && p.exitAfter.value < timeout.value then
      Attempt(if p.returnCode == 0 then Output(Answer(p)) else Raised(ExitMessage(p)), p.exitAfter.value)
    else if p.exitAfterTerminate.Some? && p.exitAfterTerminate.value < TERMINATE_GRACE then
      Attempt(Raised(TimeoutMessage(timeout.value)), timeout.value + p.exitAfterTerminate.value)
    else
      Attempt(Raised(TimeoutMessage(timeout.value)), timeout.value + TERMINATE_GRACE + p.reapAfterKill)
  }

  function Answer(p: Process): Payload
    requires p.Process?
  {
    map["success" := "True", "output" := p.stdout, "returncode" := Decimal(p.returnCode)]
  }

  function ExitMessage(p: Process): string
    requires p.Process?
  {
    "Command failed with code " + Decimal(p.returnCode) + ": " + p.stderr
  }

  function TimeoutMessage(timeout: nat): string {
    "Command timeout after " + Decimal(timeout) + "s"
  }

  function Attempts(ps: seq<Process>, operation: OperationType): (r: seq<Attempt>)
    ensures |r| == |ps|
  {
    seq(|ps|, i requires 0 <= i < |ps| => Attempted(ps[i], CommandTimeout(operation)))
  }

  lemma AttemptAt(ps: seq<Process>, operation: OperationType, a: seq<Attempt>, i: nat, p: Process, one: Attempt)
    requires i < |ps| && p == ps[i] && a == Attempts(ps, operation) && one == Attempted(p, CommandTimeout(operation))
    ensures one == a[i]
  {
  }

  predicate ExitsInTime(p: Process, timeout: nat) {
    p.Process? && p.exitAfter.Some? && p.exitAfter.value < timeout
  }

  predicate Succeeds(p: Process, timeout: nat) {
    ExitsInTime(p, timeout) && p.returnCode == 0
  }

  /** Five minutes to start, one to stop, two to restart. */
  function SecondsFor(operation: OperationType): nat {
    if operation == Start then 5 * 60 else if operation == Stop then 60 else 2 * 60
  }

  /** The command of this operation runs to its end and succeeds. */
  predicate Works(p: Process, operation: OperationType) {
    operation in {Start, Stop, Restart} && Succeeds(p, SecondsFor(operation))
  }

  /** Why it does not. */
  function Reason(p: Process, operation: OperationType): string
    requires !Works(p, operation)
  {
    if operation !in {Start, Stop, Restart} then "Unsupported operation"
    else if p.SpawnFails? then p.message
    else if ExitsInTime(p, SecondsFor(operation)) then "Command failed with code " + Decimal(p.returnCode) + ": " + p.stderr
    else "Command timeout after " + Decimal(SecondsFor(operation)) + "s"
  }

  /** The attempt is what this process makes of it. */
  predicate Matches(a: Attempt, p: Process, operation: OperationType) {
    && (a.result.Output? <==> Works(p, operation))
    && (Works(p, operation) ==> "output" in a.result.payload && a.result.payload["output"] == p.stdout)
    && (!Works(p, operation) ==> a.result.message == Reason(p, operation))
  }

  lemma AttemptMeans(p: Process, operation: OperationType)
    ensures Matches(Attempted(p, CommandTimeout(operation)), p, operation)
  {
    assert CommandTimeout(operation) == if operation in {Start, Stop, Restart} then Some(SecondsFor(operation)) else None;
    if Works(p, operation) { assert Attempted(p, CommandTimeout(operation)).result == Output(Answer(p)); }
  }

  /** How the retry loop ends; `CutOff` when the overall limit strikes first. */
  datatype RetryEnd = Returned(payload: Payload) | GaveUp(lastError: string) | CutOff
  datatype RetryRun = RetryRun(end: RetryEnd, failures: nat, elapsed: nat)

  function Retried(a: seq<Attempt>, failures: nat, elapsed: nat): RetryRun
    requires failures < MAX_RETRIES <= |a|
    decreases MAX_RETRIES - failures
  {
    var now := elapsed + a[failures].duration;
    if now >= TASK_MAX_EXECUTION_TIME then RetryRun(CutOff, failures, TASK_MAX_EXECUTION_TIME)
    else if a[failures].result.Output? then RetryRun(Returned(a[failures].result.payload), failures, now)
    else if failures + 1 == MAX_RETRIES then RetryRun(GaveUp(a[failures].result.message), MAX_RETRIES, now)
    else if now + RETRY_DELAY >= TASK_MAX_EXECUTION_TIME then RetryRun(CutOff, failures + 1, TASK_MAX_EXECUTION_TIME)
    else Retried(a, failures + 1, now + RETRY_DELAY)
  }

  /** An outcome the retry loop can have after this many failed attempts. */
  predicate Possible(outcome: Outcome, failures: nat) {
    && failures <= MAX_RETRIES
    && (outcome.Succeeded? ==> failures < MAX_RETRIES)
    && (outcome.AllAttemptsFailed? ==> failures == MAX_RETRIES)
  }

  /** The retry loop over these subprocesses, from its beginning. */
  function RunOf(ps: seq<Process>, operation: OperationType): (r: RetryRun)
    requires MAX_RETRIES <= |ps|
    ensures Possible(ToOutcome(r), r.failures)
  {
    RetryRunIsPossible(Attempts(ps, operation), 0, 0);
    Retried(Attempts(ps, operation), 0, 0)
  }

  /** The attempts made when nothing cuts the loop short: up to the first success, three at most. */
  function AttemptsMade(a: seq<Attempt>): nat
    requires MAX_RETRIES <= |a|
  {
    if a[0].result.Output? then 1 else if a[1].result.Output? then 2 else 3
  }

  function DurationOf(a: seq<Attempt>, n: nat): nat
    requires n <= |a|
  {
    if n == 0 then 0 else DurationOf(a, n - 1) + a[n - 1].duration + if n > 1 then RETRY_DELAY else 0
  }

  /** The loop is cut off exactly when its attempts and pauses need the whole limit or more.
      The failures counted are then those of the attempts that had ended. Otherwise a return means that
      every attempt but the last one made failed, and giving up means that exactly the allowed number of
      attempts failed. */
  lemma RetryLoopOutcome(a: seq<Attempt>)
    requires MAX_RETRIES <= |a|
    ensures var r := Retried(a, 0, 0); var n := AttemptsMade(a);
            && (r.end.CutOff? <==> DurationOf(a, n) >= TASK_MAX_EXECUTION_TIME)
            && (r.end.Returned? ==> a[n - 1].result == Output(r.end.payload) && r.failures == n - 1)
            && (r.end.GaveUp? ==> n == MAX_RETRIES == r.failures && a[n - 1].result == Raised(r.end.lastError))
            && (!r.end.CutOff? ==> r.elapsed == DurationOf(a, n))
            && (r.end.CutOff? ==> r.elapsed == TASK_MAX_EXECUTION_TIME && r.failures < n)
            && (r.end.CutOff? ==> DurationOf(a, r.failures) < TASK_MAX_EXECUTION_TIME <= DurationOf(a, r.failures + 1))
  {
    assert DurationOf(a, 1) == a[0].duration;
    assert DurationOf(a, 2) == DurationOf(a, 1) + a[1].duration + RETRY_DELAY;
    assert DurationOf(a, 3) == DurationOf(a, 2) + a[2].duration + RETRY_DELAY;
  }

  /** The whole loop in terms of the processes: it returns the output of the first command that works,
      having counted those before it, and gives up with the reason of the last of three that do not. */
  lemma RunMeans(ps: seq<Process>, operation: OperationType)
    requires MAX_RETRIES <= |ps|
    ensures var r := RunOf(ps, operation);
      && (r.end.Returned? ==>
            && r.failures < MAX_RETRIES && Works(ps[r.failures], operation) && (forall j | 0 <= j < r.failures :: !Works(ps[j], operation))
            && "output" in r.end.payload && r.end.payload["output"] == ps[r.failures].stdout)
      && (r.end.GaveUp? ==>
            && r.failures == MAX_RETRIES && (forall j | 0 <= j < MAX_RETRIES :: !Works(ps[j], operation))
            && r.end.lastError == Reason(ps[MAX_RETRIES - 1], operation))
  {
    var a := Attempts(ps, operation);
    forall i: nat | i < MAX_RETRIES ensures Matches(a[i], ps[i], operation) {
      AttemptAt(ps, operation, a, i, ps[i], Attempted(ps[i], CommandTimeout(operation)));
      AttemptMeans(ps[i], operation);
    }
    RetriedMeans(a, 0, 0);
    LoopMeans(a, ps, operation, Retried(a, 0, 0));
  }

  /** How the loop ends, in terms of the attempts made. */
  predicate EndsLike(a: seq<Attempt>, from: nat, r: RetryRun)
    requires MAX_RETRIES <= |a|
  {
    && (r.end.Returned? ==>
          && from <= r.failures < MAX_RETRIES && (forall j | from <= j < r.failures :: a[j].result.Raised?)
          && a[r.failures].result == Output(r.end.payload))
    && (r.end.GaveUp? ==>
          && r.failures == MAX_RETRIES && (forall j | from <= j < MAX_RETRIES :: a[j].result.Raised?)
          && a[MAX_RETRIES - 1].result == Raised(r.end.lastError))
  }

  lemma {:induction false} RetriedMeans(a: seq<Attempt>, failures: nat, elapsed: nat)
    requires failures < MAX_RETRIES <= |a|
    ensures EndsLike(a, failures, Retried(a, failures, elapsed))
    decreases MAX_RETRIES - failures
  {
    var now := elapsed + a[failures].duration;
    if now + RETRY_DELAY < TASK_MAX_EXECUTION_TIME && failures + 1 < MAX_RETRIES {
      RetriedMeans(a, failures + 1, now + RETRY_DELAY);
    }
  }

  lemma LoopMeans(a: seq<Attempt>, ps: seq<Process>, operation: OperationType, r: RetryRun)
    requires MAX_RETRIES <= |ps| == |a| && EndsLike(a, 0, r)
    requires forall i: nat | i < MAX_RETRIES :: Matches(a[i], ps[i], operation)
    ensures r.end.Returned? ==>
      && r.failures < MAX_RETRIES && Works(ps[r.failures], operation) && (forall j | 0 <= j < r.failures :: !Works(ps[j], operation))
      && "output" in r.end.payload && r.end.payload["output"] == ps[r.failures].stdout
    ensures r.end.GaveUp? ==>
      && r.failures == MAX_RETRIES && (forall j | 0 <= j < MAX_RETRIES :: !Works(ps[j], operation))
      && r.end.lastError == Reason(ps[MAX_RETRIES - 1], operation)
  {
    if r.end.Returned? {
      assert Matches(a[r.failures], ps[r.failures], operation);
      forall j | 0 <= j < r.failures ensures !Works(ps[j], operation) { assert Matches(a[j], ps[j], operation); }
    } else if r.end.GaveUp? {
      forall j | 0 <= j < MAX_RETRIES ensures !Works(ps[j], operation) { assert Matches(a[j], ps[j], operation); }
    }
  }

  /** For every operation and every behaviour of the subprocesses, provided that killed ones are
      reaped at once, three attempts with their grace periods and pauses stay strictly inside the
      limit: the overall timeout never takes an attempt away. */
  lemma RetriesFitInsideLimit(ps: seq<Process>, operation: OperationType)
    requires MAX_RETRIES <= |ps|
    requires forall i | 0 <= i < MAX_RETRIES :: ps[i].Process? ==> ps[i].reapAfterKill == 0
    ensures !Retried(Attempts(ps, operation), 0, 0).end.CutOff?
    ensures DurationOf(Attempts(ps, operation), AttemptsMade(Attempts(ps, operation))) <= 919
  {
    var a := Attempts(ps, operation);
    assert a[0].duration <= 305 && a[1].duration <= 305 && a[2].duration <= 305;
    assert DurationOf(a, 1) <= 305;
    assert DurationOf(a, 2) <= 612;
    assert DurationOf(a, 3) <= 919;
    RetryLoopOutcome(a);
  }

  /** The bound is not met by an arbitrary reaping time. When the first process outlives both its
      timeout and the grace period, the task is cut off in that first attempt exactly if reaping it
      takes the rest of the limit. */
  lemma SlowReapingCutsRetriesOff(ps: seq<Process>, operation: OperationType)
    requires MAX_RETRIES <= |ps| && ps[0].Process? && CommandTimeout(operation).Some?
    requires ps[0].exitAfter.Some? ==> ps[0].exitAfter.value >= CommandTimeout(operation).value
    requires ps[0].exitAfterTerminate.Some? ==> ps[0].exitAfterTerminate.value >= TERMINATE_GRACE
    ensures Retried(Attempts(ps, operation), 0, 0) == RetryRun(CutOff, 0, TASK_MAX_EXECUTION_TIME) <==>
            ps[0].reapAfterKill >= TASK_MAX_EXECUTION_TIME - CommandTimeout(operation).value - TERMINATE_GRACE
  {
    var a := Attempts(ps, operation);
    assert a[0].duration == CommandTimeout(operation).value + TERMINATE_GRACE + ps[0].reapAfterKill;
    if a[0].duration + RETRY_DELAY < TASK_MAX_EXECUTION_TIME {
      LaterFailures(a, 1, a[0].duration + RETRY_DELAY);
    }
  }

  /** The failures counted never become fewer. */
  lemma {:induction false} LaterFailures(a: seq<Attempt>, failures: nat, elapsed: nat)
    requires failures < MAX_RETRIES <= |a|
    ensures Retried(a, failures, elapsed).failures >= failures
    decreases MAX_RETRIES - failures
  {
    var now := elapsed + a[failures].duration;
    if now + RETRY_DELAY < TASK_MAX_EXECUTION_TIME && failures + 1 < MAX_RETRIES {
      LaterFailures(a, failures + 1, now + RETRY_DELAY);
    }
  }

  lemma {:induction false} RetryRunIsPossible(a: seq<Attempt>, failures: nat, elapsed: nat)
    requires failures < MAX_RETRIES <= |a|
    ensures Possible(ToOutcome(Retried(a, failures, elapsed)), Retried(a, failures, elapsed).failures)
    decreases MAX_RETRIES - failures
  {
    var now := elapsed + a[failures].duration;
    if now + RETRY_DELAY < TASK_MAX_EXECUTION_TIME && failures + 1 < MAX_RETRIES {
      RetryRunIsPossible(a, failures + 1, now + RETRY_DELAY);
    }
  }

  function ToOutcome(r: RetryRun): Outcome {
    match r.end
    case Returned(p) => Succeeded(p)
    case GaveUp(m) =>
      AllAttemptsFailed("All 3 attempts failed. Last error: " + m, map["error_details" := m])
    case CutOff => TimedOut("Task execution timeout after 1200s")
  }

  // ---- What one execution does to the queue's state -----------------------------------------

  /** Told RUNNING, and that published. */
  function Begun<Id(==)>(q: QueueState<Id>, id: Id, now: int): QueueState<Id>
    requires id in q.heap
  {
    StatusUpdated(WithTask(q, id, Started(q.heap[id], now)), q.heap[id].serial, Running, None, None)
  }

  lemma BegunKeepsCount<Id>(q: QueueState<Id>, id: Id, now: int)
    requires id in q.heap
    ensures id in Begun(q, id, now).heap && Begun(q, id, now).heap[id].retryCount == q.heap[id].retryCount
  {
  }

  function Tried<Id(==)>(q: QueueState<Id>, id: Id, failures: nat): QueueState<Id>
    requires id in q.heap
  {
    WithTask(q, id, q.heap[id].(retryCount := failures))
  }

  /** Told its outcome, and that published, which frees the serial. */
  function Concluded<Id(==)>(q: QueueState<Id>, id: Id, outcome: Outcome, end: int): QueueState<Id>
    requires id in q.heap
  {
    StatusUpdated(WithTask(q, id, Ended(q.heap[id], outcome, end)), q.heap[id].serial,
                  outcome.Status(), outcome.PublishedResult(), outcome.PublishedError())
  }

  function Executed<Id(==)>(q: QueueState<Id>, id: Id, r: RetryRun, now: int): QueueState<Id>
    requires id in q.heap
  {
    Concluded(Tried(Begun(q, id, now), id, r.failures), id, ToOutcome(r), now + r.elapsed)
  }

  /** What one execution leaves in the task. */
  lemma ExecutedTask<Id>(q: QueueState<Id>, id: Id, r: RetryRun, now: int)
    requires id in q.heap && Possible(ToOutcome(r), r.failures)
    requires r.end.Returned? ==> r.end.payload != map[]
    ensures id in Executed(q, id, r, now).heap
    ensures var d := Executed(q, id, r, now).heap[id];
      && d.startedAt == Some(now) && d.finishedAt == Some(now + r.elapsed) && d.retryCount == r.failures
      && d.operation == q.heap[id].operation && d.status == ToOutcome(r).Status()
      && (r.end.Returned? ==> d.status == Success && d.result == Some(r.end.payload))
      && (r.end.GaveUp? ==> d.status == Failed && d.error.Some? && EndsWith(d.error.value, r.end.lastError))
      && (r.end.CutOff? ==> d.status == Timeout && d.error.Some?)
  {
  }

  /** The details of a failure reach the task through the queue, if the serial leads there. */
  lemma ExecutedDetails<Id>(q: QueueState<Id>, id: Id, ps: seq<Process>, now: int, r: RetryRun, after: QueueState<Id>)
    requires id in q.heap && MAX_RETRIES <= |ps| && r == RunOf(ps, q.heap[id].operation) && after == Executed(q, id, r, now)
    requires q.heap[id].serial != "" && q.heap[id].serial in q.tasks && q.tasks[q.heap[id].serial] == id
    ensures q.heap[id].serial !in after.active
    ensures id in after.heap && (r.end.GaveUp? ==> after.heap[id].result == Some(map["error_details" := r.end.lastError]))
  {
    if r.end.GaveUp? {
      var details := map["error_details" := r.end.lastError];
      assert "error_details" in details;
    }
  }

  /** What an executed task says of the processes run for it: a success carries the output of the first
      command that worked, a failure the reason of the last of three that did not. */
  predicate Tells(d: TaskData, ps: seq<Process>)
    requires MAX_RETRIES <= |ps|
  {
    && d.status in {Success, Failed, Timeout}
    && (d.status == Success ==>
          && d.retryCount < MAX_RETRIES && Works(ps[d.retryCount], d.operation)
          && (forall j | 0 <= j < d.retryCount :: !Works(ps[j], d.operation))
          && d.result.Some? && "output" in d.result.value && d.result.value["output"] == ps[d.retryCount].stdout)
    && (d.status == Failed ==>
          && d.retryCount == MAX_RETRIES && (forall j | 0 <= j < MAX_RETRIES :: !Works(ps[j], d.operation))
          && d.error.Some? && EndsWith(d.error.value, Reason(ps[MAX_RETRIES - 1], d.operation)))
  }

  lemma ExecutedTells<Id>(q: QueueState<Id>, id: Id, ps: seq<Process>, now: int, r: RetryRun, after: QueueState<Id>)
    requires id in q.heap && MAX_RETRIES <= |ps| && r == RunOf(ps, q.heap[id].operation) && after == Executed(q, id, r, now)
    ensures id in after.heap && after.heap[id].status == ToOutcome(r).Status() && Tells(after.heap[id], ps)
    ensures after.heap[id].startedAt == Some(now) && after.heap[id].finishedAt == Some(now + r.elapsed)
  {
    RunMeans(ps, q.heap[id].operation);
    ExecutedTask(q, id, r, now);
  }

  predicate EndsWith(s: string, tail: string) {
    |tail| <= |s| && s[|s| - |tail|..] == tail
  }

  lemma ExecutedInParts<Id>(q0: QueueState<Id>, q1: QueueState<Id>, q2: QueueState<Id>, q3: QueueState<Id>, id: Id, r: RetryRun, now: int,
                            outcome: Outcome, end: int)
    requires id in q0.heap && q1 == Begun(q0, id, now) && id in q1.heap && q2 == Tried(q1, id, r.failures)
    requires id in q2.heap && q3 == Concluded(q2, id, outcome, end) && outcome == ToOutcome(r) && end == now + r.elapsed
    ensures q3 == Executed(q0, id, r, now)
  {
  }

  // ---- ... and the run of the step system that this is ----------------------------------------

  function Failures<Id>(n: nat): seq<Step<Id>> {
    seq(n, i => FailAttempt)
  }

  function Execution<Id>(failures: nat, end: int, outcome: Outcome): seq<Step<Id>> {
    [MarkRunning] + ([PublishRunning] + (Failures(failures) + ([Tick(end)] + ([Finish(outcome)] + ([Release] + [])))))
  }

  lemma {:induction false} RunsCompose<Id>(s: State<Id>, first: seq<Step<Id>>, second: seq<Step<Id>>)
    requires Legal(s, first) && Legal(After(s, first), second)
    ensures Legal(s, first + second) && After(s, first + second) == After(After(s, first), second)
    decreases |first|
  {
    if first == [] {
      assert first + second == second;
    } else {
      RunsCompose(Apply(s, first[0]), first[1..], second);
      assert (first + second)[0] == first[0] && (first + second)[1..] == first[1..] + second;
    }
  }

  lemma ThenRun<Id>(s: State<Id>, step: Step<Id>, rest: seq<Step<Id>>)
    requires Enabled(s, step) && Legal(Apply(s, step), rest)
    ensures Legal(s, [step] + rest) && After(s, [step] + rest) == After(Apply(s, step), rest)
  {
    assert ([step] + rest)[1..] == rest;
  }

  lemma {:induction false} FailuresRun<Id>(s: State<Id>, n: nat)
    requires s.phase.Executing? && s.phase.id in s.q.heap && s.phase.failures + n <= MAX_RETRIES
    requires s.q.heap[s.phase.id].retryCount == s.phase.failures
    ensures Legal(s, Failures(n))
    ensures After(s, Failures(n)) ==
            s.(q := Tried(s.q, s.phase.id, s.phase.failures + n), phase := Executing(s.phase.id, s.phase.failures + n))
    decreases n
  {
    if n > 0 {
      assert Failures<Id>(n)[0] == FailAttempt && Failures<Id>(n)[1..] == Failures(n - 1);
      FailuresRun(Apply(s, FailAttempt), n - 1);
    }
  }

  lemma EndIsLegal<Id>(u: State<Id>, end: int, outcome: Outcome)
    requires u.phase.Executing? && u.phase.id in u.q.heap && u.clock <= end && Possible(outcome, u.phase.failures)
    ensures Legal(u, [Tick(end)] + ([Finish(outcome)] + ([Release] + [])))
    ensures var t := After(u, [Tick(end)] + ([Finish(outcome)] + ([Release] + [])));
            && t.q == Concluded(u.q, u.phase.id, outcome, end) && t.phase == Idle && t.clock == end
            && t.taken == u.taken && t.accepted == u.accepted
  {
    var v := Apply(u, Tick(end));
    var w := Apply(v, Finish(outcome));
    ThenRun(w, Release, []);
    ThenRun(v, Finish(outcome), [Release] + []);
    ThenRun(u, Tick(end), [Finish(outcome)] + ([Release] + []));
  }

  lemma AttemptsThenEnd<Id>(t: State<Id>, r: RetryRun)
    requires t.phase.Executing? && t.phase.failures == 0 && t.phase.id in t.q.heap
    requires t.q.heap[t.phase.id].retryCount == 0 && Possible(ToOutcome(r), r.failures)
    ensures var run := Failures<Id>(r.failures) + ([Tick(t.clock + r.elapsed)] + ([Finish(ToOutcome(r))] + ([Release] + [])));
            && Legal(t, run)
            && After(t, run).q == Concluded(Tried(t.q, t.phase.id, r.failures), t.phase.id, ToOutcome(r), t.clock + r.elapsed)
            && After(t, run).phase == Idle && After(t, run).taken == t.taken
  {
    FailuresRun(t, r.failures);
    EndIsLegal(After(t, Failures(r.failures)), t.clock + r.elapsed, ToOutcome(r));
    RunsCompose(t, Failures(r.failures), [Tick(t.clock + r.elapsed)] + ([Finish(ToOutcome(r))] + ([Release] + [])));
  }

  lemma PublishedState<Id>(s: State<Id>)
    requires s.phase.Holding? && s.phase.id in s.q.heap
    ensures Enabled(Apply(s, MarkRunning), PublishRunning)
    ensures var t := Apply(Apply(s, MarkRunning), PublishRunning);
            && t.phase == Executing(s.phase.id, 0) && t.clock == s.clock && t.taken == s.taken
            && t.q == Begun(s.q, s.phase.id, s.clock)
            && s.phase.id in t.q.heap && t.q.heap[s.phase.id].retryCount == s.q.heap[s.phase.id].retryCount
  {
  }

  /** From every reachable state in which the worker holds a task, one execution of it (marked and
      published RUNNING, failed as often as attempts failed, ended with the loop's outcome, released)
      is a legal run of the step system, and `Executed` is what it does to the queue's state. */
  lemma ExecutionIsARun<Id>(s: State<Id>, r: RetryRun)
    requires Inv(s) && s.phase.Holding? && Possible(ToOutcome(r), r.failures)
    ensures s.phase.id in s.q.heap && s.q.heap[s.phase.id].retryCount == 0
    ensures IsExecution(s, r)
  {
    WorkerOwns(s);
    ExecutionFrom(s, r);
  }

  ghost predicate IsExecution<Id>(s: State<Id>, r: RetryRun)
    requires s.phase.Holding? && s.phase.id in s.q.heap
  {
    var run := Execution<Id>(r.failures, s.clock + r.elapsed, ToOutcome(r));
    && Legal(s, run)
    && After(s, run).q == Executed(s.q, s.phase.id, r, s.clock)
    && After(s, run).phase == Idle && After(s, run).taken == s.taken
  }

  lemma ExecutionFrom<Id>(s: State<Id>, r: RetryRun)
    requires s.phase.Holding? && s.phase.id in s.q.heap && s.q.heap[s.phase.id].retryCount == 0
    requires Possible(ToOutcome(r), r.failures)
    ensures IsExecution(s, r)
  {
    PublishedState(s);
    var s1 := Apply(s, MarkRunning);
    var t := Apply(s1, PublishRunning);
    AttemptsThenEnd(t, r);
    var rest := Failures<Id>(r.failures) + ([Tick(t.clock + r.elapsed)] + ([Finish(ToOutcome(r))] + ([Release] + [])));
    ThenRun(s1, PublishRunning, rest);
    ThenRun(s, MarkRunning, [PublishRunning] + rest);
  }

  class TaskWorker {
    const taskQueue: TaskQueue

    constructor (taskQueue: TaskQueue)
      ensures this.taskQueue == taskQueue
    {
      this.taskQueue := taskQueue;
    }

    static method RunCommand(p: Process, timeout: nat) returns (a: Attempt)
      ensures a == Attempted(p, Some(timeout))
      ensures a.result.Output? <==> Succeeds(p, timeout)
      ensures Succeeds(p, timeout) ==>
        && a.result.payload.Keys == {"success", "output", "returncode"}
        && a.result.payload["output"] == p.stdout && a.result.payload["returncode"] == Decimal(p.returnCode)
        && a.duration == p.exitAfter.value
      ensures ExitsInTime(p, timeout) && p.returnCode != 0 ==>
        && a.result.message == "Command failed with code " + Decimal(p.returnCode) + ": " + p.stderr
        && a.duration == p.exitAfter.value
      ensures p.Process? && !ExitsInTime(p, timeout) ==>
        && a.result.message == "Command timeout after " + Decimal(timeout) + "s"
        && (p.exitAfterTerminate.Some? && p.exitAfterTerminate.value < 5 ==> a.duration == timeout + p.exitAfterTerminate.value)
        && (p.exitAfterTerminate.None? || p.exitAfterTerminate.value >= 5 ==> a.duration == timeout + 5 + p.reapAfterKill)
      ensures p.SpawnFails? ==> a.result == Raised(p.message) && a.duration == 0
    {
      if p.SpawnFails? {
        return Attempt(Raised(p.message), 0);
      }
      if p.exitAfter.Some? && p.exitAfter.value < timeout {
        if p.returnCode != 0 {
          return Attempt(Raised("Command failed with code " + Decimal(p.returnCode) + ": " + p.stderr), p.exitAfter.value);
        }
        return Attempt(Output(map["success" := "True", "output" := p.stdout, "returncode" := Decimal(p.returnCode)]), p.exitAfter.value);
      }
      var elapsed := timeout;
      if p.exitAfterTerminate.Some? && p.exitAfterTerminate.value < TERMINATE_GRACE {
        elapsed := elapsed + p.exitAfterTerminate.value;
      } else {
        elapsed := elapsed + TERMINATE_GRACE + p.reapAfterKill;
      }
      a := Attempt(Raised("Command timeout after " + Decimal(timeout) + "s"), elapsed);
    }

    static lemma RetriedOnce(a: seq<Attempt>, failures: nat, elapsed: nat, one: Attempt)
      requires failures < MAX_RETRIES <= |a| && one == a[failures]
      ensures var now, r := elapsed + one.duration, Retried(a, failures, elapsed);
        && (now >= TASK_MAX_EXECUTION_TIME ==> r == RetryRun(CutOff, failures, TASK_MAX_EXECUTION_TIME))
        && (now < TASK_MAX_EXECUTION_TIME && one.result.Output? ==> r == RetryRun(Returned(one.result.payload), failures, now))
        && (now < TASK_MAX_EXECUTION_TIME && one.result.Raised? && failures + 1 == MAX_RETRIES ==>
              r == RetryRun(GaveUp(one.result.message), MAX_RETRIES, now))
        && (now < TASK_MAX_EXECUTION_TIME && one.result.Raised? && failures + 1 < MAX_RETRIES ==>
              r == if now + RETRY_DELAY >= TASK_MAX_EXECUTION_TIME then RetryRun(CutOff, failures + 1, TASK_MAX_EXECUTION_TIME)
                   else Retried(a, failures + 1, now + RETRY_DELAY))
    {
    }

    static method ExecuteOperation(p: Process, operation: OperationType) returns (a: Attempt)
      ensures a == Attempted(p, CommandTimeout(operation))
    {
      var timeout := CommandTimeout(operation);
      if timeout.None? {
        return Attempt(Raised("Unsupported operation"), 0);
      }
      a := RunCommand(p, timeout.value);
    }

    static method ExecuteWithRetry(task: Task, ps: seq<Process>) returns (r: RetryRun)
      requires MAX_RETRIES <= |ps| && task.retryCount == 0
      modifies task`retryCount
      ensures r == RunOf(ps, task.operation)
      ensures task.retryCount == r.failures
    {
      ghost var a := Attempts(ps, task.operation);
      r := RetryLoop(task, ps, a, Retried(a, 0, 0));
    }

    /** The loop; `a` are the attempts and `goal` is how they must end. */
    static method RetryLoop(task: Task, ps: seq<Process>, ghost a: seq<Attempt>, ghost goal: RetryRun) returns (r: RetryRun)
      requires MAX_RETRIES <= |ps| && task.retryCount == 0
      requires a == Attempts(ps, task.operation) && goal == Retried(a, 0, 0)
      modifies task`retryCount
      ensures r == goal && task.retryCount == goal.failures
    {
      var elapsed: nat := 0;
      var attempt := 1;
      while true
        invariant 1 <= attempt <= MAX_RETRIES
        invariant task.retryCount == attempt - 1
        invariant Retried(a, attempt - 1, elapsed) == goal
        decreases MAX_RETRIES - attempt
      {
        var ended: Option<RetryRun>;
        AttemptAt(ps, task.operation, a, attempt - 1, ps[attempt - 1], Attempted(ps[attempt - 1], CommandTimeout(task.operation)));
        ended, elapsed := AttemptOnce(task, ps[attempt - 1], attempt, elapsed, a, goal);
        if ended.Some? {
          return ended.value;
        }
        attempt := attempt + 1;
      }
    }

    /** One attempt and the pause after it; the loop ends with a result or goes on. */
    static method AttemptOnce(task: Task, p: Process, attempt: nat, elapsed: nat, ghost a: seq<Attempt>, ghost goal: RetryRun)
      returns (ended: Option<RetryRun>, later: nat)
      requires 1 <= attempt <= MAX_RETRIES <= |a| && task.retryCount == attempt - 1
      requires a[attempt - 1] == Attempted(p, CommandTimeout(task.operation)) && Retried(a, attempt - 1, elapsed) == goal
      modifies task`retryCount
      ensures ended.Some? ==> ended.value == goal && task.retryCount == goal.failures
      ensures ended.None? ==> attempt < MAX_RETRIES && task.retryCount == attempt && Retried(a, attempt, later) == goal
    {
      var one := ExecuteOperation(p, task.operation);
      RetriedOnce(a, attempt - 1, elapsed, one);
      later := elapsed + one.duration;
      if later >= TASK_MAX_EXECUTION_TIME {
        return Some(RetryRun(CutOff, attempt - 1, TASK_MAX_EXECUTION_TIME)), later;
      }
      if one.result.Output? {
        return Some(RetryRun(Returned(one.result.payload), attempt - 1, later)), later;
      }
      task.retryCount := attempt;
      if attempt == MAX_RETRIES {
        return Some(RetryRun(GaveUp(one.result.message), MAX_RETRIES, later)), later;
      }
      later := later + RETRY_DELAY;
      if later >= TASK_MAX_EXECUTION_TIME {
        return Some(RetryRun(CutOff, attempt, TASK_MAX_EXECUTION_TIME)), later;
      }
      ended := None;
    }

    method BeginTask(task: Task, now: int)
      requires taskQueue.Valid() && task in taskQueue.repr
      modifies taskQueue, taskQueue.repr
      ensures taskQueue.Valid() && taskQueue.repr == old(taskQueue.repr)
      ensures taskQueue.Abs() == Begun(old(taskQueue.Abs()), task, now)
      ensures task.retryCount == old(task.retryCount)
    {
      ghost var q := taskQueue.Abs();
      task.MarkRunning(now);
      taskQueue.OneTaskWritten(task);
      taskQueue.UpdateTaskStatus(task.serial, Running, None, None);
      BegunKeepsCount(q, task, now);
      assert taskQueue.Abs().heap[task].retryCount == q.heap[task].retryCount;
    }

    method RunAttempts(task: Task, ps: seq<Process>) returns (r: RetryRun)
      requires MAX_RETRIES <= |ps|
      requires taskQueue.Valid() && task in taskQueue.repr && task.retryCount == 0
      modifies taskQueue.repr
      ensures taskQueue.Valid() && unchanged(taskQueue)
      ensures r == RunOf(ps, task.operation)
      ensures taskQueue.Abs() == Tried(old(taskQueue.Abs()), task, r.failures)
    {
      r := ExecuteWithRetry(task, ps);
      taskQueue.OneTaskWritten(task);
    }

    method EndTask(task: Task, outcome: Outcome, end: int)
      requires taskQueue.Valid() && task in taskQueue.repr
      modifies taskQueue, taskQueue.repr
      ensures taskQueue.Valid() && taskQueue.repr == old(taskQueue.repr)
      ensures taskQueue.Abs() == Concluded(old(taskQueue.Abs()), task, outcome, end)
    {
      match outcome {
        case Succeeded(p) => task.MarkSuccess(p, end);
        case AllAttemptsFailed(m, d) => task.MarkFailed(m, d, end);
        case TimedOut(m) => task.MarkTimeout(m, end);
      }
      taskQueue.OneTaskWritten(task);
      taskQueue.UpdateTaskStatus(task.serial, outcome.Status(), outcome.PublishedResult(), outcome.PublishedError());
    }

    /** Executes the task just taken, with nothing else happening in between. */
    method ExecuteTask(task: Task, ps: seq<Process>, now: int) returns (outcome: Outcome)
      requires MAX_RETRIES <= |ps|
      requires taskQueue.Valid() && task in taskQueue.repr && task.retryCount == 0
      modifies taskQueue, taskQueue.repr
      ensures taskQueue.Valid() && taskQueue.repr == old(taskQueue.repr)
      ensures outcome == ToOutcome(RunOf(ps, task.operation))
      ensures taskQueue.Abs() == Executed(old(taskQueue.Abs()), task, RunOf(ps, task.operation), now)
      ensures task.startedAt == Some(now) && task.finishedAt.Some? && task.finishedAt.value >= now
      ensures outcome.Status() == task.status && Tells(task.Data(), ps)
      ensures task.serial != "" && task.serial in old(taskQueue.tasks) && old(taskQueue.tasks)[task.serial] == task ==>
        task.serial !in taskQueue.active
      ensures task.serial != "" && task.serial in old(taskQueue.tasks) && old(taskQueue.tasks)[task.serial] == task && task.status == Failed ==>
        task.result == Some(map["error_details" := Reason(ps[MAX_RETRIES - 1], task.operation)])
    {
      ghost var q := taskQueue.Abs();
      var r := PerformTask(task, ps, now);
      outcome := ToOutcome(r);
      ExecutedTells(q, task, ps, now, r, taskQueue.Abs());
      if task.serial != "" && task.serial in q.tasks && q.tasks[task.serial] == task {
        RunMeans(ps, task.operation);
        ExecutedDetails(q, task, ps, now, r, taskQueue.Abs());
      }
      assert taskQueue.Abs().heap[task] == task.Data();
    }

    method PerformTask(task: Task, ps: seq<Process>, now: int) returns (r: RetryRun)
      requires MAX_RETRIES <= |ps|
      requires taskQueue.Valid() && task in taskQueue.repr && task.retryCount == 0
      modifies taskQueue, taskQueue.repr
      ensures taskQueue.Valid() && taskQueue.repr == old(taskQueue.repr)
      ensures r == RunOf(ps, task.operation)
      ensures taskQueue.Abs() == Executed(old(taskQueue.Abs()), task, r, now)
    {
      ghost var q0 := taskQueue.Abs();
      BeginTask(task, now);
      ghost var q1 := taskQueue.Abs();
      r := RunAttempts(task, ps);
      ghost var q2 := taskQueue.Abs();
      var outcome, end := ToOutcome(r), now + r.elapsed;
      EndTask(task, outcome, end);
      ghost var q3 := taskQueue.Abs();
      ExecutedInParts(q0, q1, q2, q3, task, r, now, outcome, end);
    }
  }
}
