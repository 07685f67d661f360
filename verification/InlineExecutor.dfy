/** The inline executor with all its pools: a new pool per configuration and event loop, and loops
    that close. */
module InlineExecutor {
  import opened InlinePools

  type LoopId = int

  /** A pool belongs to an event loop and to one generation of the executor. */
  datatype Place = Place(generation: nat, loop: LoopId, pool: Pool)

  /** `direct` are the jobs that ran in a temporary loop because no loop was running. */
  datatype System = System(
    places: seq<Place>,
    generation: nat,
    config: Config,
    direct: seq<Job>,
    requested: seq<Job>)

  function NewSystem(c: Config): System {
    System([], 0, c, [], [])
  }

  datatype LoopNow = NoLoop | InLoop(loop: LoopId)

  datatype SystemStep =
    | Request(job: Job, loop: LoopNow, desired: Config)
    | Within(place: nat, step: PoolStep)
    | CloseLoop(closing: LoopId)

  /** The place of this loop in this generation, `|places|` when there is none yet. */
  function Find(places: seq<Place>, generation: nat, loop: LoopId): (i: nat)
    ensures i <= |places|
    ensures i < |places| ==> places[i].generation == generation && places[i].loop == loop
    ensures forall j | 0 <= j < i :: !(places[j].generation == generation && places[j].loop == loop)
  {
    if places == [] then 0
    else if places[0].generation == generation && places[0].loop == loop then 0
    else 1 + Find(places[1..], generation, loop)
  }

  predicate SystemCan(s: System, step: SystemStep) {
    match step
    case Request(_, _, desired) => 1 <= desired.concurrency <= desired.limit
    case Within(i, step) => i < |s.places| && Internal(step) && PoolCan(s.places[i].pool, step)
    case CloseLoop(_) => true
  }

  function ClosedIn(place: Place, loop: LoopId): Place {
    if place.loop == loop then place.(pool := PoolDo(place.pool, Close)) else place
  }

  /** A request rebuilds the executor first when the configuration has changed; the pools of the
      previous ones stay and go on draining. A loop that closes takes the workers and putters of all its
      pools with it; the queues stay where a later loop with the same identifier finds them. */
  function SystemDo(s: System, step: SystemStep): System
    requires SystemCan(s, step)
  {
    match step
    case Request(job, loop, desired) =>
      var generation := if desired == s.config then s.generation else s.generation + 1;
      if loop.NoLoop? then
        s.(generation := generation, config := desired, direct := s.direct + [job], requested := s.requested + [job])
      else
        var i := Find(s.places, generation, loop.loop);
        var places := if i < |s.places| then s.places else s.places + [Place(generation, loop.loop, NewPool(desired))];
        System(places[i := places[i].(pool := PoolDo(places[i].pool, Submit(job)))],
               generation, desired, s.direct, s.requested + [job])
    case Within(i, step) =>
      s.(places := s.places[i := s.places[i].(pool := PoolDo(s.places[i].pool, step))])
    case CloseLoop(loop) =>
      s.(places := seq(|s.places|, i requires 0 <= i < |s.places| => ClosedIn(s.places[i], loop)))
  }

  /** How often the job was submitted to any of the pools. */
  function Submissions(places: seq<Place>, job: Job): nat {
    if places == [] then 0
    else multiset(places[0].pool.submitted)[job] + Submissions(places[1..], job)
  }

  function TotalWork(places: seq<Place>): nat {
    if places == [] then 0 else Work(places[0].pool) + TotalWork(places[1..])
  }

  lemma {:induction false} OnePlaceChanged(places: seq<Place>, i: nat, place: Place, job: Job)
    requires i < |places|
    ensures Submissions(places[i := place], job) + multiset(places[i].pool.submitted)[job] ==
            Submissions(places, job) + multiset(place.pool.submitted)[job]
    ensures TotalWork(places[i := place]) + Work(places[i].pool) == TotalWork(places) + Work(place.pool)
    decreases |places|
  {
    if i == 0 {
      assert places[0 := place][1..] == places[1..];
    } else {
      assert places[i := place][1..] == places[1..][i - 1 := place];
      OnePlaceChanged(places[1..], i - 1, place, job);
    }
  }

  lemma {:induction false} OnePlaceAdded(places: seq<Place>, place: Place, job: Job)
    ensures Submissions(places + [place], job) == Submissions(places, job) + multiset(place.pool.submitted)[job]
    decreases |places|
  {
    if places == [] {
      assert [] + [place] == [place] && [place][1..] == [];
    } else {
      assert (places + [place])[1..] == places[1..] + [place];
      OnePlaceAdded(places[1..], place, job);
    }
  }

  ghost predicate Conserved(s: System) {
    forall job: Job :: multiset(s.requested)[job] == multiset(s.direct)[job] + Submissions(s.places, job)
  }

  /** Every pool is in order, those of the current generation have the current configuration, and
      there is one pool per loop and generation. */
  ghost predicate PlacesInv(places: seq<Place>, generation: nat, config: Config) {
    && (forall i | 0 <= i < |places| :: PoolInv(places[i].pool) && places[i].generation <= generation)
    && (forall i | 0 <= i < |places| :: places[i].generation == generation ==> places[i].pool.config == config)
    && (forall i, j | 0 <= i < j < |places| ::
          places[i].generation != places[j].generation || places[i].loop != places[j].loop)
  }

  ghost predicate SystemInv(s: System) {
    Conserved(s) && PlacesInv(s.places, s.generation, s.config)
  }

  /** The places in which a request for this loop and configuration looks for its pool. */
  function PlacesFor(s: System, loop: LoopId, desired: Config): seq<Place> {
    var generation := if desired == s.config then s.generation else s.generation + 1;
    if Find(s.places, generation, loop) < |s.places| then s.places
    else s.places + [Place(generation, loop, NewPool(desired))]
  }

  lemma RequestedOnce(s: System, job: Job, loop: LoopId, desired: Config, x: Job)
    requires SystemCan(s, Request(job, InLoop(loop), desired))
    ensures Submissions(SystemDo(s, Request(job, InLoop(loop), desired)).places, x) == Submissions(s.places, x) + if x == job then 1 else 0
  {
    var generation := if desired == s.config then s.generation else s.generation + 1;
    var i, places := Find(s.places, generation, loop), PlacesFor(s, loop, desired);
    OnePlaceAdded(s.places, Place(generation, loop, NewPool(desired)), x);
    RequestedPlaces(s, job, loop, desired);
    OnePlaceChanged(places, i, places[i].(pool := PoolDo(places[i].pool, Submit(job))), x);
    SubmittedJob(places[i].pool, job, x);
  }

  lemma RequestConserves(s: System, job: Job, loop: LoopNow, desired: Config)
    requires Conserved(s) && SystemCan(s, Request(job, loop, desired))
    ensures Conserved(SystemDo(s, Request(job, loop, desired)))
  {
    var t := SystemDo(s, Request(job, loop, desired));
    forall x: Job ensures multiset(t.requested)[x] == multiset(t.direct)[x] + Submissions(t.places, x) {
      if loop.InLoop? { RequestedOnce(s, job, loop.loop, desired, x); }
    }
  }

  lemma PoolReplaced(places: seq<Place>, generation: nat, config: Config, i: nat, pool: Pool)
    requires PlacesInv(places, generation, config) && i < |places|
    requires PoolInv(pool) && pool.config == places[i].pool.config
    ensures PlacesInv(places[i := places[i].(pool := pool)], generation, config)
  {
  }

  lemma PlaceAdded(places: seq<Place>, generation: nat, config: Config, loop: LoopId)
    requires forall i | 0 <= i < |places| :: PoolInv(places[i].pool) && places[i].generation <= generation
    requires forall i | 0 <= i < |places| :: places[i].generation == generation ==> places[i].pool.config == config && places[i].loop != loop
    requires forall i, j | 0 <= i < j < |places| ::
               places[i].generation != places[j].generation || places[i].loop != places[j].loop
    requires 1 <= config.concurrency <= config.limit
    ensures PlacesInv(places + [Place(generation, loop, NewPool(config))], generation, config)
  {
    NewPoolInv(config);
  }

  lemma RequestKeepsPlaces(s: System, job: Job, loop: LoopId, desired: Config)
    requires PlacesInv(s.places, s.generation, s.config) && SystemCan(s, Request(job, InLoop(loop), desired))
    ensures var t := SystemDo(s, Request(job, InLoop(loop), desired)); PlacesInv(t.places, t.generation, t.config)
  {
    var generation := if desired == s.config then s.generation else s.generation + 1;
    var i := Find(s.places, generation, loop);
    var places := PlacesFor(s, loop, desired);
    PlacesForKeeps(s, loop, desired);
    SubmittedPool(places[i].pool, job);
    PoolReplaced(places, generation, desired, i, PoolDo(places[i].pool, Submit(job)));
    RequestedPlaces(s, job, loop, desired);
  }

  lemma RequestedPlaces(s: System, job: Job, loop: LoopId, desired: Config)
    requires SystemCan(s, Request(job, InLoop(loop), desired))
    ensures var generation := if desired == s.config then s.generation else s.generation + 1;
            var t, i, places := SystemDo(s, Request(job, InLoop(loop), desired)), Find(s.places, generation, loop), PlacesFor(s, loop, desired);
            && i < |places| && t.generation == generation && t.config == desired
            && t.places == places[i := places[i].(pool := PoolDo(places[i].pool, Submit(job)))]
  {
  }

  lemma SubmittedJob(p: Pool, job: Job, x: Job)
    ensures multiset(PoolDo(p, Submit(job)).submitted)[x] == multiset(p.submitted)[x] + if x == job then 1 else 0
  {
    assert PoolDo(p, Submit(job)).submitted == p.submitted + [job];
  }

  lemma SubmittedPool(p: Pool, job: Job)
    requires PoolInv(p)
    ensures PoolInv(PoolDo(p, Submit(job))) && PoolDo(p, Submit(job)).config == p.config
  {
    SubmitKeepsPool(p, job);
  }

  lemma PlacesForKeeps(s: System, loop: LoopId, desired: Config)
    requires PlacesInv(s.places, s.generation, s.config) && 1 <= desired.concurrency <= desired.limit
    ensures var generation := if desired == s.config then s.generation else s.generation + 1;
            PlacesInv(PlacesFor(s, loop, desired), generation, desired)
            && Find(s.places, generation, loop) < |PlacesFor(s, loop, desired)|
  {
    var generation := if desired == s.config then s.generation else s.generation + 1;
    var i := Find(s.places, generation, loop);
    if i == |s.places| {
      PlaceAdded(s.places, generation, desired, loop);
    } else {
      assert generation == s.generation;
    }
  }

  lemma RequestKeepsInv(s: System, job: Job, loop: LoopNow, desired: Config)
    requires SystemInv(s) && SystemCan(s, Request(job, loop, desired))
    ensures SystemInv(SystemDo(s, Request(job, loop, desired)))
  {
    RequestConserves(s, job, loop, desired);
    if loop.InLoop? { RequestKeepsPlaces(s, job, loop.loop, desired); }
  }

  lemma WithinConserves(s: System, i: nat, step: PoolStep)
    requires Conserved(s) && SystemCan(s, Within(i, step))
    ensures Conserved(SystemDo(s, Within(i, step)))
    ensures PoolInv(s.places[i].pool) ==> TotalWork(SystemDo(s, Within(i, step)).places) == TotalWork(s.places) - 1
  {
    var t := SystemDo(s, Within(i, step));
    forall x: Job ensures multiset(t.requested)[x] == multiset(t.direct)[x] + Submissions(t.places, x) {
      OnePlaceChanged(s.places, i, t.places[i], x);
    }
    if PoolInv(s.places[i].pool) {
      OnePlaceChanged(s.places, i, t.places[i], 0);
      PoolStepWorks(s.places[i].pool, step);
    }
  }

  lemma WithinKeepsInv(s: System, i: nat, step: PoolStep)
    requires SystemInv(s) && SystemCan(s, Within(i, step))
    ensures SystemInv(SystemDo(s, Within(i, step)))
    ensures TotalWork(SystemDo(s, Within(i, step)).places) == TotalWork(s.places) - 1
  {
    WithinConserves(s, i, step);
    PoolStepKeepsInv(s.places[i].pool, step);
    PoolReplaced(s.places, s.generation, s.config, i, PoolDo(s.places[i].pool, step));
  }

  lemma {:induction false} SameSubmissions(before: seq<Place>, after: seq<Place>, job: Job)
    requires |before| == |after| && forall i | 0 <= i < |before| :: after[i].pool.submitted == before[i].pool.submitted
    ensures Submissions(after, job) == Submissions(before, job)
    decreases |before|
  {
    if before != [] { SameSubmissions(before[1..], after[1..], job); }
  }

  lemma ClosedPlace(place: Place, loop: LoopId)
    requires PoolInv(place.pool)
    ensures var after := ClosedIn(place, loop);
            && PoolInv(after.pool) && after.pool.config == place.pool.config && after.pool.submitted == place.pool.submitted
            && after.generation == place.generation && after.loop == place.loop
  {
    CloseKeepsPool(place.pool);
  }

  /** Places of the same generations, loops and configurations. */
  lemma SamePlaces(before: seq<Place>, after: seq<Place>, generation: nat, config: Config)
    requires PlacesInv(before, generation, config) && |after| == |before|
    requires forall i | 0 <= i < |before| :: PoolInv(after[i].pool) && after[i].pool.config == before[i].pool.config
    requires forall i | 0 <= i < |before| :: after[i].generation == before[i].generation && after[i].loop == before[i].loop
    ensures PlacesInv(after, generation, config)
  {
  }

  lemma CloseKeepsInv(s: System, loop: LoopId)
    requires SystemInv(s)
    ensures SystemInv(SystemDo(s, CloseLoop(loop)))
  {
    var t := SystemDo(s, CloseLoop(loop));
    forall i | 0 <= i < |s.places|
      ensures PoolInv(t.places[i].pool) && t.places[i].pool.config == s.places[i].pool.config
      ensures t.places[i].generation == s.places[i].generation && t.places[i].loop == s.places[i].loop
      ensures t.places[i].pool.submitted == s.places[i].pool.submitted
    {
      ClosedPlace(s.places[i], loop);
    }
    SamePlaces(s.places, t.places, s.generation, s.config);
    forall job: Job ensures multiset(t.requested)[job] == multiset(t.direct)[job] + Submissions(t.places, job) {
      SameSubmissions(s.places, t.places, job);
    }
  }

  predicate SystemLegal(s: System, run: seq<SystemStep>)
    decreases |run|
  {
    run == [] || (SystemCan(s, run[0]) && SystemLegal(SystemDo(s, run[0]), run[1..]))
  }

  function SystemAfter(s: System, run: seq<SystemStep>): System
    requires SystemLegal(s, run)
    decreases |run|
  {
    if run == [] then s else SystemAfter(SystemDo(s, run[0]), run[1..])
  }

  lemma SystemStepKeepsInv(s: System, step: SystemStep)
    requires SystemInv(s) && SystemCan(s, step)
    ensures SystemInv(SystemDo(s, step))
  {
    match step
    case Request(job, loop, desired) => RequestKeepsInv(s, job, loop, desired);
    case Within(i, step) => WithinKeepsInv(s, i, step);
    case CloseLoop(loop) => CloseKeepsInv(s, loop);
  }

  /** However requests from any loops, configuration changes, worker steps and closing loops
      interleave. */
  lemma {:induction false} SystemRunKeepsInv(s: System, run: seq<SystemStep>)
    requires SystemInv(s) && SystemLegal(s, run)
    ensures SystemInv(SystemAfter(s, run))
    decreases |run|
  {
    if run != [] {
      SystemStepKeepsInv(s, run[0]);
      SystemRunKeepsInv(SystemDo(s, run[0]), run[1..]);
    }
  }

  /** Conservation and bounds in every reachable state. */
  lemma EveryJobAccountedFor(c: Config, run: seq<SystemStep>)
    requires SystemLegal(NewSystem(c), run)
    ensures var s := SystemAfter(NewSystem(c), run);
            && (forall job: Job :: multiset(s.requested)[job] == multiset(s.direct)[job] + Submissions(s.places, job))
            && forall i | 0 <= i < |s.places| ::
                 var p := s.places[i].pool;
                 && multiset(p.submitted) == multiset(p.waiting) + multiset(p.queue) + multiset(p.running) + multiset(p.finished)
                                             + multiset(p.dropped) + multiset(p.interrupted)
                 && multiset(p.started) == multiset(p.running) + multiset(p.finished) + multiset(p.interrupted)
                 && |p.queue| <= p.config.limit && |p.running| <= p.alive <= p.config.concurrency
                 && p.unfinished == |p.queue| + |p.running|
  {
    SystemRunKeepsInv(NewSystem(c), run);
  }

  // ---- Draining ----------------------------------------------------------------------------------

  /** What a run does in one place. */
  function PartOf(run: seq<SystemStep>, i: nat): seq<PoolStep> {
    if run == [] then []
    else (if run[0].Within? && run[0].place == i then [run[0].step] else []) + PartOf(run[1..], i)
  }

  ghost predicate AllRest(s: System) {
    forall i | 0 <= i < |s.places| :: Resting(s.places[i].pool)
  }

  /** Something can go on exactly as long as some pool does not rest. */
  lemma SystemRestsExactlyWhen(s: System)
    requires SystemInv(s)
    ensures AllRest(s) <==> forall step: SystemStep | step.Within? :: !SystemCan(s, step)
  {
    if AllRest(s) {
      forall step: SystemStep | step.Within? ensures !SystemCan(s, step) {
        if step.place < |s.places| { RestingMeans(s.places[step.place].pool); }
      }
    } else {
      var i :| 0 <= i < |s.places| && !Resting(s.places[i].pool);
      RestingMeans(s.places[i].pool);
      var step :| Internal(step) && PoolCan(s.places[i].pool, step);
      assert SystemCan(s, Within(i, step));
    }
  }

  /** Once requests stop, a run without closing loops has at most `TotalWork` steps. */
  lemma {:induction false} SystemRunWorks(s: System, run: seq<SystemStep>)
    requires SystemInv(s) && SystemLegal(s, run) && forall k | 0 <= k < |run| :: run[k].Within?
    ensures |run| + TotalWork(SystemAfter(s, run).places) == TotalWork(s.places)
    decreases |run|
  {
    if run != [] {
      assert run[0].Within?;
      WithinKeepsInv(s, run[0].place, run[0].step);
      SystemRunWorks(SystemDo(s, run[0]), run[1..]);
    }
  }

  lemma OnePlaceSteps(s: System, step: SystemStep, i: nat)
    requires SystemCan(s, step) && step.Within? && i < |s.places|
    ensures var t := SystemDo(s, step);
            |t.places| == |s.places| &&
            t.places[i].pool == if step.place == i then PoolDo(s.places[i].pool, step.step) else s.places[i].pool
  {
  }

  /** What such a run does in one place is a run of the pool there, and ends as the pool does. */
  lemma {:induction false} SystemRunSplits(s: System, run: seq<SystemStep>, i: nat)
    requires SystemLegal(s, run) && i < |s.places| && forall k | 0 <= k < |run| :: run[k].Within?
    ensures |SystemAfter(s, run).places| == |s.places|
    ensures PoolLegal(s.places[i].pool, PartOf(run, i)) && forall k | 0 <= k < |PartOf(run, i)| :: Internal(PartOf(run, i)[k])
    ensures PoolAfter(s.places[i].pool, PartOf(run, i)) == SystemAfter(s, run).places[i].pool
    decreases |run|
  {
    if run != [] {
      assert run[0].Within?;
      OnePlaceSteps(s, run[0], i);
      var rest := PartOf(run[1..], i);
      SystemRunSplits(SystemDo(s, run[0]), run[1..], i);
      if run[0].place == i {
        PoolFirst(s.places[i].pool, run[0].step, rest);
        assert PartOf(run, i) == [run[0].step] + rest;
      } else {
        assert PartOf(run, i) == rest;
      }
    }
  }

  /** All pools, those of replaced executors included, drain when everything has come to rest, if in
      each of them fewer jobs ended cancelled than it had workers, or it had no more jobs than
      workers. For each single pool this is exact (`PoolDrainsExactlyWhen`). */
  lemma SystemDrains(s: System, run: seq<SystemStep>)
    requires SystemInv(s) && SystemLegal(s, run) && forall k | 0 <= k < |run| :: run[k].Within?
    requires AllRest(SystemAfter(s, run))
    requires forall i | 0 <= i < |s.places| ::
      Cancellations(PartOf(run, i)) < s.places[i].pool.alive || Left(s.places[i].pool) <= s.places[i].pool.alive
    ensures |SystemAfter(s, run).places| == |s.places|
    ensures forall i | 0 <= i < |s.places| :: Left(SystemAfter(s, run).places[i].pool) == 0
  {
    SystemPlaces(s, run);
    forall i | 0 <= i < |s.places| ensures Left(SystemAfter(s, run).places[i].pool) == 0 {
      SystemRunSplits(s, run, i);
      var p, part := s.places[i].pool, PartOf(run, i);
      assert Through(p, part);
      PoolDrainsExactlyWhen(p, Cancellations(part));
    }
  }

  lemma {:induction false} SystemPlaces(s: System, run: seq<SystemStep>)
    requires SystemLegal(s, run) && forall k | 0 <= k < |run| :: run[k].Within?
    ensures |SystemAfter(s, run).places| == |s.places|
    decreases |run|
  {
    if run != [] { SystemPlaces(SystemDo(s, run[0]), run[1..]); }
  }

  /** What a request finds at a loop that has closed. */
  predicate Deserted(s: System, i: nat) {
    i < |s.places| && s.places[i].pool.alive == 0
  }

  ghost predicate SameRuns(p: Pool, q: Pool) {
    q.alive == p.alive && q.started == p.started && q.finished == p.finished
  }

  lemma DesertedPool(p: Pool, step: PoolStep)
    requires PoolInv(p) && p.alive == 0 && PoolCan(p, step)
    ensures SameRuns(p, PoolDo(p, step))
  {
  }

  lemma DesertedByRequest(s: System, job: Job, loop: LoopNow, desired: Config, i: nat)
    requires SystemCan(s, Request(job, loop, desired)) && Deserted(s, i) && PoolInv(s.places[i].pool)
    ensures var t := SystemDo(s, Request(job, loop, desired)); i < |t.places| && SameRuns(s.places[i].pool, t.places[i].pool)
  {
    if loop.InLoop? { DesertedPool(s.places[i].pool, Submit(job)); }
  }

  lemma DesertedStays(s: System, step: SystemStep, i: nat)
    requires SystemInv(s) && SystemCan(s, step) && Deserted(s, i)
    ensures Deserted(SystemDo(s, step), i) && SameRuns(s.places[i].pool, SystemDo(s, step).places[i].pool)
  {
    var p := s.places[i].pool;
    assert PoolInv(p);
    match step
    case Request(job, loop, desired) => DesertedByRequest(s, job, loop, desired, i);
    case Within(at, inner) => if at == i { DesertedPool(p, inner); }
    case CloseLoop(_) => DesertedPool(p, Close);
  }

  /** After a loop has closed, its queues are deserted for ever, and so are later loops with its
      identifier: whatever is requested there, and until the configuration changes, no job of them
      ever begins. */
  lemma {:induction false} DesertedForEver(s: System, run: seq<SystemStep>, i: nat)
    requires SystemInv(s) && SystemLegal(s, run) && Deserted(s, i)
    ensures Deserted(SystemAfter(s, run), i)
    ensures SystemAfter(s, run).places[i].pool.started == s.places[i].pool.started
    ensures SystemAfter(s, run).places[i].pool.finished == s.places[i].pool.finished
    decreases |run|
  {
    if run != [] {
      DesertedStays(s, run[0], i);
      SystemStepKeepsInv(s, run[0]);
      DesertedForEver(SystemDo(s, run[0]), run[1..], i);
    }
  }

  lemma ClosedPlaces(s: System, loop: LoopId, i: nat)
    requires i < |s.places|
    ensures var t := SystemDo(s, CloseLoop(loop));
            && |t.places| == |s.places| && t.generation == s.generation && t.config == s.config
            && t.places[i].generation == s.places[i].generation && t.places[i].loop == s.places[i].loop
            && t.places[i].pool.submitted == s.places[i].pool.submitted && t.places[i].pool.started == s.places[i].pool.started
            && (s.places[i].loop == loop ==> t.places[i].pool.alive == 0)
  {
  }

  /** Closing a loop deserts its places, and a request from a later loop with the same identifier is
      sent to the one of the current configuration, unless that changes. */
  lemma ClosedLoopIsFoundAgain(s: System, loop: LoopId, job: Job, closed: System, t: System)
    requires SystemInv(s) && Find(s.places, s.generation, loop) < |s.places|
    requires closed == SystemDo(s, CloseLoop(loop)) && SystemCan(closed, Request(job, InLoop(loop), s.config))
    requires t == SystemDo(closed, Request(job, InLoop(loop), s.config))
    ensures var i := Find(s.places, s.generation, loop);
            && Deserted(closed, i) && Deserted(t, i)
            && t.places[i].pool.submitted == s.places[i].pool.submitted + [job]
            && t.places[i].pool.started == s.places[i].pool.started
  {
    var i := Find(s.places, s.generation, loop);
    forall k | 0 <= k < |s.places|
      ensures k < |closed.places| && closed.places[k].generation == s.places[k].generation && closed.places[k].loop == s.places[k].loop
    {
      ClosedPlaces(s, loop, k);
    }
    ClosedPlaces(s, loop, i);
    FindAgain(s.places, closed.places, s.generation, loop);
    RequestFinds(closed, loop, job);
    SubmittedToDeserted(closed.places[i].pool, job);
  }

  lemma RequestFinds(s: System, loop: LoopId, job: Job)
    requires Find(s.places, s.generation, loop) < |s.places| && SystemCan(s, Request(job, InLoop(loop), s.config))
    ensures var t, i := SystemDo(s, Request(job, InLoop(loop), s.config)), Find(s.places, s.generation, loop);
            i < |t.places| && t.places[i].pool == PoolDo(s.places[i].pool, Submit(job))
  {
  }

  lemma SubmittedToDeserted(p: Pool, job: Job)
    ensures var q := PoolDo(p, Submit(job));
            q.alive == p.alive && q.submitted == p.submitted + [job] && q.started == p.started
  {
  }

  lemma {:induction false} FindAgain(before: seq<Place>, after: seq<Place>, generation: nat, loop: LoopId)
    requires |before| == |after|
    requires forall i | 0 <= i < |before| :: after[i].generation == before[i].generation && after[i].loop == before[i].loop
    ensures Find(after, generation, loop) == Find(before, generation, loop)
    decreases |before|
  {
    if before != [] { FindAgain(before[1..], after[1..], generation, loop); }
  }
}
