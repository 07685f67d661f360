/** The inline executor as objects: a queue with its workers per event loop, an executor per
    configuration, and the cache that rebuilds the executor when the configuration changes. */
module InlineQueues {
  import opened InlinePools
  import opened InlineExecutor

  /** The queue of one event loop and the workers that drain it. */
  class InlineQueue {
    const config: Config
    var alive: nat
    var waiting: seq<Job>
    var queue: seq<Job>
    var running: seq<Job>
    var unfinished: nat
    ghost var finished: seq<Job>
    ghost var dropped: seq<Job>
    ghost var interrupted: seq<Job>
    ghost var started: seq<Job>
    ghost var submitted: seq<Job>

    ghost function Abs(): Pool
      reads this
    {
      Pool(config, alive, waiting, queue, running, finished, dropped, interrupted, unfinished, started, submitted)
    }

    constructor (config: Config)
      ensures Abs() == NewPool(config)
    {
      this.config := config;
      alive, waiting, queue, running, unfinished := config.concurrency, [], [], [], 0;
      finished, dropped, interrupted, started, submitted := [], [], [], [], [];
    }

    /** Puts the job in at once if there is room, and otherwise leaves a putter waiting with it. */
    method PutOrWait(job: Job)
      modifies this
      ensures Abs() == PoolDo(old(Abs()), Submit(job))
    {
      if |queue| < config.limit {
        queue := queue + [job];
        unfinished := unfinished + 1;
      } else {
        waiting := waiting + [job];
      }
      submitted := submitted + [job];
    }

    method PutterWakes(at: nat)
      requires PoolCan(Abs(), Insert(at))
      modifies this
      ensures Abs() == PoolDo(old(Abs()), Insert(at))
    {
      queue := queue + [waiting[at]];
      waiting := waiting[..at] + waiting[at + 1..];
      unfinished := unfinished + 1;
    }

    /** The first half of a turn of a worker's loop. */
    method WorkerTakes()
      requires PoolCan(Abs(), Get)
      modifies this
      ensures Abs() == PoolDo(old(Abs()), Get)
    {
      var job := queue[0];
      queue := queue[1..];
      running := running + [job];
      started := started + [job];
    }

    /** The second half: the job counts as done in any case; the worker goes on unless the job ended
        cancelled. */
    method WorkerEnds(at: nat, ending: Ending)
      requires PoolCan(Abs(), Complete(at, ending))
      modifies this
      ensures Abs() == PoolDo(old(Abs()), Complete(at, ending))
    {
      var job := running[at];
      running := running[..at] + running[at + 1..];
      finished := finished + [job];
      unfinished := unfinished - 1;
      if ending == Cancelled {
        alive := alive - 1;
      }
    }
  }

  class InlineFallbackExecutor {
    const config: Config
    var queues: map<LoopId, InlineQueue>
    ghost var direct: seq<Job>

    ghost predicate Valid()
      reads this, queues.Values
    {
      && (forall l | l in queues :: queues[l].config == config)
      && (forall l, m | l in queues && m in queues && l != m :: queues[l] != queues[m])
    }

    ghost function PoolOf(loop: LoopId): Pool
      reads this, queues.Values
    {
      if loop in queues then queues[loop].Abs() else NewPool(config)
    }

    constructor (config: Config)
      ensures Valid() && this.config == config && queues == map[] && direct == []
    {
      this.config := config;
      queues, direct := map[], [];
    }

    /** The queue kept under the identifier of the loop, though that may be the queue of a loop that
        has closed. */
    method EnsureQueue(loop: LoopId) returns (q: InlineQueue)
      requires Valid()
      modifies this`queues
      ensures Valid() && loop in queues && queues[loop] == q
      ensures loop in old(queues) ==> queues == old(queues)
      ensures loop !in old(queues) ==> fresh(q) && queues == old(queues)[loop := q]
      ensures forall l :: PoolOf(l) == old(PoolOf(l))
    {
      if loop in queues {
        return queues[loop];
      }
      q := new InlineQueue(config);
      queues := queues[loop := q];
    }

    /** The job goes to the pool of the running loop and to no other; with no loop running it is
        run on the spot. */
    method SubmitJob(job: Job, loop: LoopNow)
      requires Valid()
      modifies this, queues.Values
      ensures Valid()
      ensures loop.NoLoop? ==> direct == old(direct) + [job] && queues == old(queues) && forall l :: PoolOf(l) == old(PoolOf(l))
      ensures loop.InLoop? ==>
                && direct == old(direct)
                && PoolOf(loop.loop) == PoolDo(old(PoolOf(loop.loop)), Submit(job))
                && forall l | l != loop.loop :: PoolOf(l) == old(PoolOf(l))
    {
      if loop.NoLoop? {
        direct := direct + [job];
        return;
      }
      var q := EnsureQueue(loop.loop);
      q.PutOrWait(job);
    }
  }

  class ExecutorCache {
    var executor: InlineFallbackExecutor?
    var config: Config
    var override: InlineFallbackExecutor?

    ghost predicate Valid()
      reads this, executor
    {
      executor != null ==> executor.config == config
    }

    constructor ()
      ensures Valid() && executor == null && override == null
    {
      executor, override := null, null;
      config := Config(0, 0);
    }

    /** The override if there is one. Otherwise the same executor as long as the configuration reads
        the same, a new and empty one when it has changed; either way one with at least one worker and
        room for one job per worker. */
    method GetInlineExecutor(concurrency: Setting, limit: Setting) returns (e: InlineFallbackExecutor)
      requires Valid()
      modifies this
      ensures Valid() && override == old(override)
      ensures override != null ==> e == override && executor == old(executor) && config == old(config)
      ensures override == null ==> executor == e && e.config == config == ReadConfig(concurrency, limit)
      ensures override == null ==> 1 <= e.config.concurrency <= e.config.limit
      ensures override == null && old(executor) != null && old(config) == ReadConfig(concurrency, limit) ==> e == old(executor)
      ensures override == null && (old(executor) == null || old(config) != ReadConfig(concurrency, limit)) ==>
                fresh(e) && e.Valid() && e.queues == map[]
    {
      if override != null {
        return override;
      }
      var desired := ReadConfig(concurrency, limit);
      if executor != null && config == desired {
        return executor;
      }
      e := new InlineFallbackExecutor(desired);
      executor := e;
      config := desired;
    }
  }
}
