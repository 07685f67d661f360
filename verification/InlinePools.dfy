/** One pool of the inline executor: the workers of one event loop, the bounded queue they drain and
    the putters that wait for room in it. */
module InlinePools {

  type Job = nat

  datatype Config = Config(concurrency: nat, limit: nat)

  /** Configuration values as `int()` sees them; `Unreadable` is what it raises on. */
  datatype Setting = Unreadable | Value(n: int)

  function ToPositiveInt(value: Setting, default: nat): nat {
    match value
    case Unreadable => default
    case Value(n) => if n > 0 then n else default
  }

  function Max(a: nat, b: nat): nat {
    if a < b then b else a
  }

  /** Whatever is configured, there is a worker, and room for as many jobs as there are workers. */
  function ReadConfig(concurrency: Setting, limit: Setting): (c: Config)
    ensures 1 <= c.concurrency <= c.limit
    ensures concurrency.Value? && concurrency.n > 0 ==> c.concurrency == concurrency.n
    ensures limit.Value? && limit.n >= c.concurrency ==> c.limit == limit.n
    ensures concurrency.Unreadable? || concurrency.n <= 0 ==> c.concurrency == 4
    ensures limit.Value? && 0 < limit.n < c.concurrency ==> c.limit == c.concurrency
    ensures limit.Unreadable? || limit.n <= 0 ==> c.limit == if c.concurrency <= 256 then 1024 else c.concurrency * 4
  {
    var n := ToPositiveInt(concurrency, 4);
    Config(n, Max(ToPositiveInt(limit, Max(n * 4, 1024)), n))
  }

  // ---- Steps -----------------------------------------------------------------------------------

  /** How a job ends for the worker that runs it. An exception is caught; a cancellation is not, and
      ends the worker too. Either way the job is counted done. */
  datatype Ending = Returned | Raised | Cancelled

  /** `alive`: workers that still loop; `waiting`: putters waiting for room; `running`: what the busy
      workers execute; `finished`: jobs that have ended, in whatever way; `unfinished`: the counter
      that joining the queue waits on; `started`: every execution ever begun, in order. When the event
      loop closes, `dropped` are the jobs whose putters it cancels and `interrupted` those whose
      workers it cancels. */
  datatype Pool = Pool(
    config: Config,
    alive: nat,
    waiting: seq<Job>,
    queue: seq<Job>,
    running: seq<Job>,
    finished: seq<Job>,
    dropped: seq<Job>,
    interrupted: seq<Job>,
    unfinished: nat,
    started: seq<Job>,
    submitted: seq<Job>)

  function NewPool(c: Config): Pool {
    Pool(c, c.concurrency, [], [], [], [], [], [], 0, [], [])
  }

  datatype PoolStep =
    | Submit(job: Job)
    | Insert(at: nat)
    | Get
    | Complete(at: nat, ending: Ending)
    | Close

  function Without(s: seq<Job>, at: nat): seq<Job>
    requires at < |s|
  {
    s[..at] + s[at + 1..]
  }

  predicate PoolCan(p: Pool, step: PoolStep) {
    match step
    case Submit(_) => true
    case Insert(at) => at < |p.waiting| && |p.queue| < p.config.limit
    case Get => |p.running| < p.alive && p.queue != []
    case Complete(at, _) => at < |p.running| && p.unfinished > 0 && p.alive > 0
    case Close => true
  }

  /** A submission after `Close` comes from a later loop with the same identifier: it is given the
      queue of the closed one, and no workers. */
  function PoolDo(p: Pool, step: PoolStep): Pool
    requires PoolCan(p, step)
  {
    match step
    case Submit(job) =>
      if |p.queue| < p.config.limit
      then p.(queue := p.queue + [job], unfinished := p.unfinished + 1, submitted := p.submitted + [job])
      else p.(waiting := p.waiting + [job], submitted := p.submitted + [job])
    case Insert(at) =>
      p.(waiting := Without(p.waiting, at), queue := p.queue + [p.waiting[at]], unfinished := p.unfinished + 1)
    case Get =>
      p.(queue := p.queue[1..], running := p.running + [p.queue[0]], started := p.started + [p.queue[0]])
    case Complete(at, ending) =>
      p.(running := Without(p.running, at), finished := p.finished + [p.running[at]], unfinished := p.unfinished - 1,
         alive := if ending.Cancelled? then p.alive - 1 else p.alive)
    case Close =>
      p.(alive := 0, waiting := [], running := [], unfinished := if |p.running| <= p.unfinished then p.unfinished - |p.running| else 0,
         dropped := p.dropped + p.waiting, interrupted := p.interrupted + p.running)
  }

  /** Every submitted job is in exactly one place, as often as it was submitted; executions begun are
      those running, ended or interrupted; the counter counts the queued and the running; a running
      job has a worker. */
  ghost predicate PoolInv(p: Pool) {
    && multiset(p.submitted) == multiset(p.waiting) + multiset(p.queue) + multiset(p.running) + multiset(p.finished)
                                + multiset(p.dropped) + multiset(p.interrupted)
    && multiset(p.started) == multiset(p.running) + multiset(p.finished) + multiset(p.interrupted)
    && p.unfinished == |p.queue| + |p.running|
    && |p.queue| <= p.config.limit
    && |p.running| <= p.alive <= p.config.concurrency
    && 1 <= p.config.concurrency <= p.config.limit
  }

  lemma NewPoolInv(c: Config)
    requires 1 <= c.concurrency <= c.limit
    ensures PoolInv(NewPool(c))
  {
  }

  lemma SeqWithout(s: seq<Job>, at: nat)
    requires at < |s|
    ensures multiset(s) == multiset(Without(s, at)) + multiset{s[at]}
  {
    assert s == s[..at] + [s[at]] + s[at + 1..];
  }

  lemma SubmitKeepsPool(p: Pool, job: Job)
    requires PoolInv(p)
    ensures PoolInv(PoolDo(p, Submit(job)))
  {
  }

  lemma InsertKeepsPool(p: Pool, at: nat)
    requires PoolInv(p) && PoolCan(p, Insert(at))
    ensures PoolInv(PoolDo(p, Insert(at)))
  {
    SeqWithout(p.waiting, at);
  }

  lemma GetKeepsPool(p: Pool)
    requires PoolInv(p) && PoolCan(p, Get)
    ensures PoolInv(PoolDo(p, Get))
  {
    assert p.queue == [p.queue[0]] + p.queue[1..];
  }

  lemma CompleteKeepsPool(p: Pool, at: nat, ending: Ending)
    requires PoolInv(p) && PoolCan(p, Complete(at, ending))
    ensures PoolInv(PoolDo(p, Complete(at, ending)))
  {
    SeqWithout(p.running, at);
  }

  lemma CloseKeepsPool(p: Pool)
    requires PoolInv(p)
    ensures PoolInv(PoolDo(p, Close))
  {
  }

  lemma PoolStepKeepsInv(p: Pool, step: PoolStep)
    requires PoolInv(p) && PoolCan(p, step)
    ensures PoolInv(PoolDo(p, step))
  {
    match step
    case Submit(job) => SubmitKeepsPool(p, job);
    case Insert(at) => InsertKeepsPool(p, at);
    case Get => GetKeepsPool(p);
    case Complete(at, ending) => CompleteKeepsPool(p, at, ending);
    case Close => CloseKeepsPool(p);
  }

  // ---- Runs --------------------------------------------------------------------------------------

  predicate PoolLegal(p: Pool, run: seq<PoolStep>)
    decreases |run|
  {
    run == [] || (PoolCan(p, run[0]) && PoolLegal(PoolDo(p, run[0]), run[1..]))
  }

  function PoolAfter(p: Pool, run: seq<PoolStep>): Pool
    requires PoolLegal(p, run)
    decreases |run|
  {
    if run == [] then p else PoolAfter(PoolDo(p, run[0]), run[1..])
  }

  lemma {:induction false} PoolRunKeepsInv(p: Pool, run: seq<PoolStep>)
    requires PoolInv(p) && PoolLegal(p, run)
    ensures PoolInv(PoolAfter(p, run))
    decreases |run|
  {
    if run != [] {
      PoolStepKeepsInv(p, run[0]);
      PoolRunKeepsInv(PoolDo(p, run[0]), run[1..]);
    }
  }

  lemma {:induction false} PoolRunsJoin(p: Pool, first: seq<PoolStep>, second: seq<PoolStep>)
    requires PoolLegal(p, first) && PoolLegal(PoolAfter(p, first), second)
    ensures PoolLegal(p, first + second) && PoolAfter(p, first + second) == PoolAfter(PoolAfter(p, first), second)
    decreases |first|
  {
    if first == [] {
      assert first + second == second;
    } else {
      PoolRunsJoin(PoolDo(p, first[0]), first[1..], second);
      assert (first + second)[0] == first[0] && (first + second)[1..] == first[1..] + second;
    }
  }

  lemma PoolFirst(p: Pool, step: PoolStep, rest: seq<PoolStep>)
    requires PoolCan(p, step) && PoolLegal(PoolDo(p, step), rest)
    ensures PoolLegal(p, [step] + rest) && PoolAfter(p, [step] + rest) == PoolAfter(PoolDo(p, step), rest)
  {
    assert ([step] + rest)[0] == step && ([step] + rest)[1..] == rest;
  }

  // ---- Draining ----------------------------------------------------------------------------------

  /** A step of the pool's own putters and workers. */
  predicate Internal(step: PoolStep) {
    step.Insert? || step.Get? || step.Complete?
  }

  /** Jobs submitted that have neither ended nor been given up with their loop. */
  function Left(p: Pool): nat {
    |p.waiting| + |p.queue| + |p.running|
  }

  /** How many steps they still cost. */
  function Work(p: Pool): nat {
    3 * |p.waiting| + 2 * |p.queue| + |p.running|
  }

  function Cancellations(run: seq<PoolStep>): nat {
    if run == [] then 0 else (if run[0].Complete? && run[0].ending.Cancelled? then 1 else 0) + Cancellations(run[1..])
  }

  predicate Resting(p: Pool) {
    !PoolCan(p, Get) && p.running == [] && (p.waiting == [] || |p.queue| >= p.config.limit)
  }

  /** A pool rests exactly when none of its putters and workers can do anything. */
  lemma RestingMeans(p: Pool)
    requires PoolInv(p)
    ensures Resting(p) <==> forall step | Internal(step) :: !PoolCan(p, step)
  {
    if Resting(p) {
      forall step | Internal(step) ensures !PoolCan(p, step) {
      }
    } else if p.running != [] {
      assert PoolCan(p, Complete(0, Returned)) && Internal(Complete(0, Returned));
    } else if PoolCan(p, Get) {
      assert Internal(Get);
    } else {
      assert PoolCan(p, Insert(0)) && Internal(Insert(0));
    }
  }

  /** With a living worker it rests only when every job is done; without one, whatever is left. */
  lemma PoolNeverStuck(p: Pool)
    requires PoolInv(p)
    ensures p.alive > 0 ==> (Resting(p) <==> Left(p) == 0)
    ensures p.alive == 0 ==> (Resting(p) <==> p.waiting == [] || |p.queue| == p.config.limit)
    ensures Left(p) == 0 <==> multiset(p.submitted) == multiset(p.finished) + multiset(p.dropped) + multiset(p.interrupted)
  {
    assert |multiset(p.submitted)| == Left(p) + |p.finished| + |p.dropped| + |p.interrupted|;
    if Left(p) == 0 {
      assert p.waiting == [] && p.queue == [] && p.running == [];
    }
  }

  /** One step costs one; a cancelled ending costs a worker and only that does; an ended job is one
      less left. */
  lemma PoolStepWorks(p: Pool, step: PoolStep)
    requires PoolInv(p) && PoolCan(p, step) && Internal(step)
    ensures Work(PoolDo(p, step)) == Work(p) - 1
    ensures PoolDo(p, step).alive + Cancellations([step]) == p.alive
    ensures Left(PoolDo(p, step)) == if step.Complete? then Left(p) - 1 else Left(p)
    ensures SameOutside(p, PoolDo(p, step))
  {
    assert [step][1..] == [];
  }

  ghost predicate SameOutside(p: Pool, q: Pool) {
    q.config == p.config && q.submitted == p.submitted && q.dropped == p.dropped && q.interrupted == p.interrupted
  }

  lemma CancellationsFirst(run: seq<PoolStep>)
    requires run != []
    ensures Cancellations(run) == Cancellations([run[0]]) + Cancellations(run[1..])
    ensures Cancellations([run[0]]) <= if run[0].Complete? then 1 else 0
  {
    assert [run[0]][1..] == [];
  }

  /** Without new submissions a run has at most `Work` steps, and takes a worker and a job for every
      cancelled ending. */
  lemma {:induction false} PoolRunWorks(p: Pool, run: seq<PoolStep>)
    requires PoolInv(p) && PoolLegal(p, run) && forall i | 0 <= i < |run| :: Internal(run[i])
    ensures |run| + Work(PoolAfter(p, run)) == Work(p)
    ensures PoolAfter(p, run).alive + Cancellations(run) == p.alive
    ensures Left(PoolAfter(p, run)) + Cancellations(run) <= Left(p)
    ensures SameOutside(p, PoolAfter(p, run))
    decreases |run|
  {
    if run != [] {
      var rest := run[1..];
      assert Internal(run[0]) && forall i | 0 <= i < |rest| :: rest[i] == run[i + 1];
      CancellationsFirst(run);
      PoolStepWorks(p, run[0]);
      PoolStepKeepsInv(p, run[0]);
      PoolRunWorks(PoolDo(p, run[0]), rest);
    }
  }

  /** A run of putters and workers that goes on until the pool rests. */
  ghost predicate Through(p: Pool, run: seq<PoolStep>) {
    PoolLegal(p, run) && (forall i | 0 <= i < |run| :: Internal(run[i])) && Resting(PoolAfter(p, run))
  }

  /** Exactly when a pool is sure to drain, if up to `k` of its jobs may end cancelled: when that
      leaves it a worker, or there are no more jobs than workers. In every other case some run of it
      comes to rest with jobs left. */
  lemma PoolDrainsExactlyWhen(p: Pool, k: nat)
    requires PoolInv(p)
    ensures (forall run | Through(p, run) && Cancellations(run) <= k :: Left(PoolAfter(p, run)) == 0)
            <==> k < p.alive || Left(p) <= p.alive
  {
    if k < p.alive || Left(p) <= p.alive {
      forall run | Through(p, run) && Cancellations(run) <= k ensures Left(PoolAfter(p, run)) == 0 {
        PoolRunWorks(p, run);
        PoolRunKeepsInv(p, run);
        PoolNeverStuck(PoolAfter(p, run));
      }
    } else {
      var run := AllWorkersLost(p);
      assert Through(p, run) && Cancellations(run) <= k;
    }
  }

  /** The worst run: every worker takes a job that ends cancelled, and what can still enter the queue
      does so and stays there. */
  lemma {:induction false} AllWorkersLost(p: Pool) returns (run: seq<PoolStep>)
    requires PoolInv(p) && Left(p) > p.alive
    ensures Through(p, run) && Cancellations(run) == p.alive
    ensures Left(PoolAfter(p, run)) == Left(p) - p.alive
    decreases Work(p)
  {
    if Resting(p) {
      RestsWithoutWorker(p);
      run := [];
    } else {
      var step := WorstStep(p);
      WorstStepWorks(p);
      var rest := AllWorkersLost(PoolDo(p, step));
      ThroughFirst(p, step, rest);
      run := [step] + rest;
    }
  }

  lemma RestsWithoutWorker(p: Pool)
    requires PoolInv(p) && Resting(p) && Left(p) > p.alive
    ensures p.alive == 0 && Through(p, []) && PoolAfter(p, []) == p && Cancellations([]) == 0
  {
    PoolNeverStuck(p);
  }

  function WorstStep(p: Pool): PoolStep {
    if p.running != [] then Complete(0, Cancelled) else if PoolCan(p, Get) then Get else Insert(0)
  }

  lemma WorstStepWorks(p: Pool)
    requires PoolInv(p) && !Resting(p)
    ensures var step := WorstStep(p);
            && PoolCan(p, step) && Internal(step) && PoolInv(PoolDo(p, step))
            && Work(PoolDo(p, step)) < Work(p)
            && PoolDo(p, step).alive + Cancellations([step]) == p.alive
            && Left(PoolDo(p, step)) + Cancellations([step]) == Left(p)
  {
    var step := WorstStep(p);
    PoolStepKeepsInv(p, step);
    PoolStepWorks(p, step);
    assert [step][1..] == [];
  }

  lemma ThroughFirst(p: Pool, step: PoolStep, rest: seq<PoolStep>)
    requires PoolCan(p, step) && Internal(step) && Through(PoolDo(p, step), rest)
    ensures Through(p, [step] + rest) && PoolAfter(p, [step] + rest) == PoolAfter(PoolDo(p, step), rest)
    ensures Cancellations([step] + rest) == Cancellations([step]) + Cancellations(rest)
  {
    PoolFirst(p, step, rest);
    CancellationsFirst([step] + rest);
    assert ([step] + rest)[1..] == rest;
  }

  /** What draining means for the jobs: each has ended, as often as it was submitted, except those
      given up when a loop closed. */
  lemma DrainedMeansEnded(p: Pool, run: seq<PoolStep>)
    requires PoolInv(p) && Through(p, run)
    ensures Left(PoolAfter(p, run)) == 0 <==>
            multiset(p.submitted) == multiset(PoolAfter(p, run).finished) + multiset(p.dropped) + multiset(p.interrupted)
  {
    PoolRunWorks(p, run);
    PoolRunKeepsInv(p, run);
    PoolNeverStuck(PoolAfter(p, run));
  }

  /** A pool without workers, as it is after a loop has closed or a cancelled job has taken the last
      one, never begins another job, whatever is still submitted to it. */
  lemma {:induction false} NoWorkerNoStart(p: Pool, run: seq<PoolStep>)
    requires PoolInv(p) && p.alive == 0 && PoolLegal(p, run)
    ensures PoolAfter(p, run).alive == 0 && PoolAfter(p, run).started == p.started && PoolAfter(p, run).finished == p.finished
    decreases |run|
  {
    if run != [] {
      PoolStepKeepsInv(p, run[0]);
      NoWorkerNoStart(PoolDo(p, run[0]), run[1..]);
    }
  }

  // ---- Waiting for idle ----------------------------------------------------------------------------

  /** Joining the queue returns when the counter is zero. Every submitted job has then ended if and
      only if no putter is waiting for room and none was given up with its loop. */
  lemma IdleMeansDone(p: Pool)
    requires PoolInv(p) && p.unfinished == 0
    ensures multiset(p.finished) == multiset(p.submitted) <==> p.waiting == [] && p.dropped == [] && p.interrupted == []
  {
    assert p.queue == [] && p.running == [];
    assert |multiset(p.submitted)| == |p.waiting| + |p.finished| + |p.dropped| + |p.interrupted|;
  }

  /** The guard is needed, for every configuration: fill the queue and submit one more, let one
      worker finish all that is queued, and the counter is zero with a job still to come. */
  lemma IdleTooEarly(c: Config, jobs: seq<Job>, extra: Job) returns (run: seq<PoolStep>)
    requires 1 <= c.concurrency <= c.limit && |jobs| == c.limit
    ensures PoolLegal(NewPool(c), run)
    ensures var p := PoolAfter(NewPool(c), run); p.unfinished == 0 && p.waiting == [extra] && p.finished == jobs
  {
    var p := NewPool(c);
    FillRun(p, jobs);
    var full := PoolAfter(p, Fill(jobs));
    var over := PoolDo(full, Submit(extra));
    EmptyRun(over, jobs);
    PoolFirst(full, Submit(extra), Rounds(|jobs|));
    PoolRunsJoin(p, Fill(jobs), [Submit(extra)] + Rounds(|jobs|));
    run := Fill(jobs) + ([Submit(extra)] + Rounds(|jobs|));
  }

  function Fill(jobs: seq<Job>): seq<PoolStep> {
    if jobs == [] then [] else [Submit(jobs[0])] + Fill(jobs[1..])
  }

  /** One worker takes a job and completes it, `n` times. */
  function Rounds(n: nat): seq<PoolStep> {
    if n == 0 then [] else [Get] + ([Complete(0, Returned)] + Rounds(n - 1))
  }

  lemma {:induction false} FillRun(p: Pool, jobs: seq<Job>)
    requires |p.queue| + |jobs| <= p.config.limit
    ensures PoolLegal(p, Fill(jobs))
    ensures PoolAfter(p, Fill(jobs)) == p.(queue := p.queue + jobs, unfinished := p.unfinished + |jobs|, submitted := p.submitted + jobs)
    decreases |jobs|
  {
    if jobs != [] {
      FillRun(PoolDo(p, Submit(jobs[0])), jobs[1..]);
      PoolFirst(p, Submit(jobs[0]), Fill(jobs[1..]));
      assert p.queue + [jobs[0]] + jobs[1..] == p.queue + jobs;
      assert p.submitted + [jobs[0]] + jobs[1..] == p.submitted + jobs;
    } else {
      assert p.queue + jobs == p.queue && p.submitted + jobs == p.submitted;
    }
  }

  lemma {:induction false} EmptyRun(p: Pool, jobs: seq<Job>)
    requires p.queue == jobs && p.running == [] && p.unfinished == |jobs| && p.alive >= 1
    ensures PoolLegal(p, Rounds(|jobs|))
    ensures PoolAfter(p, Rounds(|jobs|)) ==
            p.(queue := [], unfinished := 0, started := p.started + jobs, finished := p.finished + jobs)
    decreases |jobs|
  {
    if jobs != [] {
      var p1 := PoolDo(p, Get);
      var p2 := PoolDo(p1, Complete(0, Returned));
      EmptyRun(p2, jobs[1..]);
      PoolFirst(p1, Complete(0, Returned), Rounds(|jobs| - 1));
      PoolFirst(p, Get, [Complete(0, Returned)] + Rounds(|jobs| - 1));
      assert p.started + [jobs[0]] + jobs[1..] == p.started + jobs;
      assert p.finished + [jobs[0]] + jobs[1..] == p.finished + jobs;
    } else {
      assert p.started + jobs == p.started && p.finished + jobs == p.finished;
    }
  }

  // ---- Order ---------------------------------------------------------------------------------------

  /** Jobs start, and have started, in the order of submission. */
  predicate InOrder(p: Pool) {
    p.submitted == p.started + p.queue + p.waiting
  }

  /** The steps that spoil the order: a job enters the queue while a different one has been waiting
      for longer, or a waiting job is dropped. */
  predicate Spoils(p: Pool, step: PoolStep)
    requires PoolCan(p, step)
  {
    match step
    case Submit(job) => |p.queue| < p.config.limit && exists i :: 0 <= i < |p.waiting| && p.waiting[i] != job
    case Insert(at) => exists i :: 0 <= i < at && p.waiting[i] != p.waiting[at]
    case Get => false
    case Complete(_, _) => false
    case Close => p.waiting != []
  }

  /** For every pool and every step, the order is kept exactly when the step does not spoil it. */
  lemma OrderKeptExactlyWhen(p: Pool, step: PoolStep)
    requires InOrder(p) && PoolCan(p, step)
    ensures InOrder(PoolDo(p, step)) <==> !Spoils(p, step)
  {
    match step
    case Submit(job) => SubmitKeepsOrder(p, job);
    case Insert(at) => InsertKeepsOrder(p, at);
    case Get => assert p.queue == [p.queue[0]] + p.queue[1..];
    case Complete(_, _) =>
    case Close => assert |p.submitted| == |p.started + p.queue| + |p.waiting|;
  }

  lemma SubmitKeepsOrder(p: Pool, job: Job)
    requires InOrder(p)
    ensures InOrder(PoolDo(p, Submit(job))) <==> !Spoils(p, Submit(job))
  {
    var q := PoolDo(p, Submit(job));
    if |p.queue| < p.config.limit {
      PassesExactlyWhen(p.started + p.queue, p.waiting, job);
      assert q.started + q.queue + q.waiting == p.started + p.queue + [job] + p.waiting;
      assert q.submitted == p.started + p.queue + p.waiting + [job];
    } else {
      assert q.started + q.queue + q.waiting == p.started + p.queue + p.waiting + [job];
    }
  }

  lemma InsertKeepsOrder(p: Pool, at: nat)
    requires InOrder(p) && PoolCan(p, Insert(at))
    ensures InOrder(PoolDo(p, Insert(at))) <==> !Spoils(p, Insert(at))
  {
    var q := PoolDo(p, Insert(at));
    var ahead, behind, job := p.waiting[..at], p.waiting[at + 1..], p.waiting[at];
    PassesExactlyWhen(p.started + p.queue, ahead, job);
    assert p.submitted == (p.started + p.queue + ahead + [job]) + behind;
    assert q.started + q.queue + q.waiting == (p.started + p.queue + [job] + ahead) + behind;
    SameFront(p.started + p.queue + ahead + [job], p.started + p.queue + [job] + ahead, behind);
  }

  lemma SameFront(x: seq<Job>, y: seq<Job>, rest: seq<Job>)
    requires |x| == |y|
    ensures x + rest == y + rest <==> x == y
  {
    assert (x + rest)[..|x|] == x && (y + rest)[..|y|] == y;
  }

  /** Moving a job in front of others changes a sequence exactly if one of them differs from it. */
  lemma PassesExactlyWhen(before: seq<Job>, passed: seq<Job>, job: Job)
    ensures before + passed + [job] == before + [job] + passed <==> forall i | 0 <= i < |passed| :: passed[i] == job
  {
    var x, y, n := before + passed + [job], before + [job] + passed, |before|;
    if x == y {
      assert passed + [job] == x[n..] == y[n..] == [job] + passed;
      forall i | 0 <= i < |passed| ensures passed[i] == job {
        Shifted(passed, job, i);
      }
    }
    if forall i | 0 <= i < |passed| :: passed[i] == job {
      assert forall k | 0 <= k < |x| :: x[k] == y[k];
    }
  }

  lemma {:induction false} Shifted(passed: seq<Job>, job: Job, i: nat)
    requires passed + [job] == [job] + passed && i < |passed|
    ensures passed[i] == job
  {
    assert (passed + [job])[i] == passed[i] && ([job] + passed)[i] == if i == 0 then job else passed[i - 1];
    if i > 0 { Shifted(passed, job, i - 1); }
  }

  /** So over a run without such a step jobs start in the order of submission. */
  lemma {:induction false} FifoUnlessSpoilt(p: Pool, run: seq<PoolStep>)
    requires InOrder(p) && PoolLegal(p, run) && NothingSpoils(p, run)
    ensures InOrder(PoolAfter(p, run))
    decreases |run|
  {
    if run != [] {
      OrderKeptExactlyWhen(p, run[0]);
      FifoUnlessSpoilt(PoolDo(p, run[0]), run[1..]);
    }
  }

  predicate NothingSpoils(p: Pool, run: seq<PoolStep>)
    requires PoolLegal(p, run)
    decreases |run|
  {
    run == [] || (!Spoils(p, run[0]) && NothingSpoils(PoolDo(p, run[0]), run[1..]))
  }

  /** Whatever the configuration, a submission that has to wait can be overtaken by a later one: the
      later job is done and the earlier one still waits. */
  lemma WaitingIsOvertaken(c: Config, jobs: seq<Job>, earlier: Job, later: Job) returns (run: seq<PoolStep>)
    requires 1 <= c.concurrency <= c.limit && |jobs| == c.limit
    ensures PoolLegal(NewPool(c), run)
    ensures var p := PoolAfter(NewPool(c), run);
            p.submitted == jobs + [earlier] + [later] && p.finished == jobs + [later] && p.waiting == [earlier]
  {
    var p0 := NewPool(c);
    FillRun(p0, jobs);
    var p1 := PoolDo(PoolAfter(p0, Fill(jobs)), Submit(earlier));
    var p2 := PoolDo(p1, Get);
    var p3 := PoolDo(p2, Complete(0, Returned));
    var p4 := PoolDo(p3, Submit(later));
    var n := |jobs|;
    assert jobs == [jobs[0]] + jobs[1..] && p4.queue == jobs[1..] + [later];
    EmptyRun(p4, jobs[1..] + [later]);
    PoolFirst(p3, Submit(later), Rounds(n));
    var tail3 := [Submit(later)] + Rounds(n);
    PoolFirst(p2, Complete(0, Returned), tail3);
    PoolFirst(p1, Get, [Complete(0, Returned)] + tail3);
    var tail1 := [Get] + ([Complete(0, Returned)] + tail3);
    PoolFirst(PoolAfter(p0, Fill(jobs)), Submit(earlier), tail1);
    PoolRunsJoin(p0, Fill(jobs), [Submit(earlier)] + tail1);
    run := Fill(jobs) + ([Submit(earlier)] + tail1);
    assert p4.finished + (jobs[1..] + [later]) == jobs + [later];
  }
}
