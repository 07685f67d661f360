/** The task queue object of controllersrv. Each method is one lock-protected section; its effect
    is the corresponding change of `QueueState`, with the task objects themselves as identities. */
module TaskQueues {
  import opened Wrappers
  import opened Tasks
  import opened Controller

  predicate Matches(filter: Option<OperationStatus>, d: TaskData) {
    filter == None || d.status == filter.value
  }

  /** How many of `n` elements a slice up to `limit` keeps; a negative limit counts from the end. */
  function SliceLength(n: nat, limit: int): nat {
    if limit < 0 then (if n + limit < 0 then 0 else n + limit)
    else if limit < n then limit else n
  }

  // ---- Reporting on an abstract queue ----------------------------------------------------

  /** The serials whose stored task has the status. */
  function WithStatus<Id(==)>(q: QueueState<Id>, keys: set<Serial>, st: OperationStatus): set<Serial> {
    set n | n in keys && n in q.tasks && q.tasks[n] in q.heap && q.heap[q.tasks[n]].status == st
  }

  ghost function CountOf(counts: map<OperationStatus, nat>, st: OperationStatus): nat {
    if st in counts then counts[st] else 0
  }

  lemma OneMoreKey<Id>(q: QueueState<Id>, keys: set<Serial>, n: Serial, st: OperationStatus)
    requires n !in keys && n in q.tasks && q.tasks[n] in q.heap
    ensures |WithStatus(q, keys + {n}, st)| == |WithStatus(q, keys, st)| + if q.heap[q.tasks[n]].status == st then 1 else 0
  {
    assert WithStatus(q, keys + {n}, st) ==
           if q.heap[q.tasks[n]].status == st then WithStatus(q, keys, st) + {n} else WithStatus(q, keys, st);
  }

  /** Every stored task is counted under exactly one status. */
  lemma {:induction false} StatusesPartition<Id>(q: QueueState<Id>, keys: set<Serial>)
    requires forall n | n in keys :: n in q.tasks && q.tasks[n] in q.heap
    ensures |WithStatus(q, keys, Pending)| + |WithStatus(q, keys, Running)| + |WithStatus(q, keys, Success)|
            + |WithStatus(q, keys, Failed)| + |WithStatus(q, keys, Timeout)| + |WithStatus(q, keys, Cancelled)| == |keys|
    decreases keys
  {
    if keys == {} {
      assert forall st :: WithStatus(q, keys, st) == {};
    } else {
      var n :| n in keys;
      var rest := keys - {n};
      StatusesPartition(q, rest);
      assert keys == rest + {n};
      OneMoreKey(q, rest, n, Pending);
      OneMoreKey(q, rest, n, Running);
      OneMoreKey(q, rest, n, Success);
      OneMoreKey(q, rest, n, Failed);
      OneMoreKey(q, rest, n, Timeout);
      OneMoreKey(q, rest, n, Cancelled);
    }
  }

  ghost function Unreleased<Id>(s: State<Id>): set<Serial> {
    set n | n in s.q.tasks && s.q.tasks[n] in s.q.heap && s.q.heap[s.q.tasks[n]].IsFinished() && s.Window(s.q.tasks[n])
  }

  /** Why a serial is reserved; the three reasons exclude each other. */
  lemma ReservedWhy<Id>(s: State<Id>, n: Serial)
    requires Inv(s)
    ensures n in s.q.active <==>
            n in WithStatus(s.q, s.q.tasks.Keys, Pending) || n in WithStatus(s.q, s.q.tasks.Keys, Running) || n in Unreleased(s)
    ensures !(n in WithStatus(s.q, s.q.tasks.Keys, Pending) && n in WithStatus(s.q, s.q.tasks.Keys, Running))
    ensures !(n in WithStatus(s.q, s.q.tasks.Keys, Pending) + WithStatus(s.q, s.q.tasks.Keys, Running) && n in Unreleased(s))
  {
    if n in s.q.tasks {
      var d := s.q.heap[s.q.tasks[n]];
      assert d.serial == n && TaskWellFormed(d, s.clock);
      assert !d.IsFinished() <==> d.status == Pending || d.status == Running;
    }
  }

  ghost predicate Partitions(a: set<Serial>, p: set<Serial>, r: set<Serial>, u: set<Serial>) {
    a == p + r + u && |a| == |p| + |r| + |u|
  }

  lemma PartitionsByPoint(a: set<Serial>, p: set<Serial>, r: set<Serial>, u: set<Serial>)
    requires forall n :: n in a <==> n in p || n in r || n in u
    requires forall n :: !(n in p && n in r) && !(n in p + r && n in u)
    ensures Partitions(a, p, r, u)
  {
    assert p !! r && (p + r) !! u && a == p + r + u;
    assert |p + r| == |p| + |r|;
  }

  /** The reserved serials are those of the stored PENDING and RUNNING tasks, and in addition those
      of tasks that have ended but are not released. */
  lemma ActiveCount<Id>(s: State<Id>)
    requires Inv(s)
    ensures Partitions(s.q.active, WithStatus(s.q, s.q.tasks.Keys, Pending), WithStatus(s.q, s.q.tasks.Keys, Running), Unreleased(s))
    ensures !s.phase.Finishing? && s.stranded == {} ==> Unreleased(s) == {}
  {
    forall n {
      ReservedWhy(s, n);
    }
    PartitionsByPoint(s.q.active, WithStatus(s.q, s.q.tasks.Keys, Pending), WithStatus(s.q, s.q.tasks.Keys, Running), Unreleased(s));
  }

  // ---- The queue object --------------------------------------------------------------------

  class TaskQueue {
    var queue: seq<Task>
    var tasks: map<Serial, Task>
    var active: set<Serial>
    ghost var repr: set<Task>

    ghost predicate Valid()
      reads this
    {
      && (forall t | t in queue :: t in repr)
      && (forall n | n in tasks :: tasks[n] in repr)
    }

    ghost function Heap(): map<Task, TaskData>
      reads repr, this
    {
      map t | t in repr :: t.Data()
    }

    ghost function Abs(): QueueState<Task>
      reads this, repr
    {
      QueueState(Heap(), queue, tasks, active)
    }

    constructor ()
      ensures Valid() && repr == {}
      ensures Abs() == Initial<Task>(0).q
    {
      queue, tasks, active, repr := [], map[], {}, {};
    }

    /** When one known task was written and nothing else, so says the abstract state. */
    twostate lemma OneTaskWritten(task: Task)
      requires old(Valid()) && unchanged(this) && task in repr
      requires forall t | t in repr && t != task :: unchanged(t)
      ensures Valid() && Abs() == WithTask(old(Abs()), task, task.Data())
    {
      assert Heap() == old(Heap())[task := task.Data()];
    }

    method Enqueue(task: Task) returns (r: EnqueueResult)
      requires Valid() && task !in repr
      modifies this
      ensures Valid()
      ensures r == EnqueueResultOf(old(Abs()), task.serial)
      ensures Abs() == Enqueued(old(Abs()), task, task.Data())
      ensures repr == if r == Accepted then old(repr) + {task} else old(repr)
      ensures r == DuplicateSerial <==> task.serial in old(active)
      ensures r == QueueFull <==> task.serial !in old(active) && |old(queue)| >= 100
      ensures r == Accepted ==>
        queue == old(queue) + [task] && tasks == old(tasks)[task.serial := task] && active == old(active) + {task.serial}
      ensures r != Accepted ==> queue == old(queue) && tasks == old(tasks) && active == old(active)
    {
      if task.serial in active {
        return DuplicateSerial;
      }
      if |queue| >= TASK_QUEUE_MAX_SIZE {
        return QueueFull;
      }
      queue := queue + [task];
      tasks := tasks[task.serial := task];
      active := active + {task.serial};
      repr := repr + {task};
      assert Heap() == old(Heap())[task := task.Data()];
      r := Accepted;
    }

    /** `None` when the wait ends with the queue still empty. */
    method Dequeue() returns (r: Option<Task>)
      requires Valid()
      modifies this
      ensures Valid() && repr == old(repr)
      ensures old(queue) == [] ==> r == None && Abs() == old(Abs())
      ensures old(queue) != [] ==> r == Some(old(queue)[0]) && Abs() == old(Abs()).(queue := old(queue)[1..])
    {
      if queue == [] {
        return None;
      }
      r := Some(queue[0]);
      queue := queue[1..];
      assert Heap() == old(Heap());
    }

    method GetTask(serial: Serial) returns (r: Option<Task>)
      requires Valid()
      ensures r == if serial in tasks then Some(tasks[serial]) else None
    {
      r := if serial in tasks then Some(tasks[serial]) else None;
    }

    method UpdateTaskStatus(serial: Serial, status: OperationStatus, result: Option<Payload>, error: Option<string>)
      requires Valid()
      modifies this, repr
      ensures Valid() && repr == old(repr) && queue == old(queue) && tasks == old(tasks)
      ensures Abs() == StatusUpdated(old(Abs()), serial, status, result, error)
      ensures forall t | t in repr && !(serial != "" && serial in tasks && t == tasks[serial]) :: t.Data() == old(t.Data())
      ensures serial == "" || serial !in tasks ==> active == old(active)
      ensures serial != "" && serial in tasks ==>
        var t := tasks[serial];
        && t.status == status
        && t.result == (if result.Some? && |result.value| > 0 then result else old(t.result))
        && t.error == (if error.Some? && |error.value| > 0 then error else old(t.error))
        && t.startedAt == old(t.startedAt) && t.finishedAt == old(t.finishedAt) && t.retryCount == old(t.retryCount)
        && active == if status in {Success, Failed, Timeout, Cancelled} then old(active) - {serial} else old(active)
    {
      if serial == "" || serial !in tasks {
        assert Heap() == old(Heap());
        return;
      }
      var task := tasks[serial];
      task.Overwrite(status, result, error);
      if task.status.Finished() {
        active := active - {serial};
      }
      assert Heap() == old(Heap())[task := task.Data()];
    }

    /** The task has ended, and that more than a day ago. */
    predicate TooOld(t: Task, now: int)
      reads t
    {
      t.status in {Success, Failed, Timeout, Cancelled} && t.finishedAt.Some? && now - t.finishedAt.value > 24 * 60 * 60
    }

    /** First collects the expired serials, then drops each of them. */
    method CleanupOldTasks(now: int)
      requires Valid()
      modifies this
      ensures Valid() && repr == old(repr)
      ensures Abs() == CleanedUp(old(Abs()), now)
      ensures forall n :: n in tasks <==> n in old(tasks) && !TooOld(old(tasks)[n], now)
      ensures forall n | n in tasks :: tasks[n] == old(tasks)[n]
      ensures active == old(active) - (old(tasks).Keys - tasks.Keys) && queue == old(queue)
      ensures forall t | t in repr :: t.Data() == old(t.Data())
    {
      ghost var gone := ExpiredSerials(Abs(), now);
      var expired: seq<Serial> := [];
      var todo := tasks.Keys;
      while todo != {}
        invariant todo <= tasks.Keys && Abs() == old(Abs())
        invariant forall n :: n in expired <==> n in gone && n !in todo
        decreases todo
      {
        var n :| n in todo;
        todo := todo - {n};
        var task := tasks[n];
        if task.status.Finished() && task.finishedAt.Some? && now - task.finishedAt.value > SERIAL_NUMBER_MAX_AGE {
          expired := expired + [n];
        }
      }
      var i := 0;
      while i < |expired|
        invariant 0 <= i <= |expired|
        invariant repr == old(repr) && queue == old(queue)
        invariant tasks == old(tasks) - (set k | 0 <= k < i :: expired[k])
        invariant active == old(active) - (set k | 0 <= k < i :: expired[k])
      {
        ghost var before := set k | 0 <= k < i :: expired[k];
        tasks := tasks - {expired[i]};
        active := active - {expired[i]};
        i := i + 1;
        assert (set k | 0 <= k < i :: expired[k]) == before + {expired[i - 1]};
      }
      assert (set k | 0 <= k < |expired| :: expired[k]) == gone;
      assert Heap() == old(Heap());
    }

    /** The counts say, for every status, how many stored tasks have it. */
    method GetQueueStats() returns (queueSize: nat, total: nat, activeCount: nat, counts: map<OperationStatus, nat>)
      requires Valid()
      ensures queueSize == |queue| && total == |tasks| && activeCount == |active|
      ensures forall st :: CountOf(counts, st) == |WithStatus(Abs(), tasks.Keys, st)|
      ensures CountOf(counts, Pending) + CountOf(counts, Running) + CountOf(counts, Success)
              + CountOf(counts, Failed) + CountOf(counts, Timeout) + CountOf(counts, Cancelled) == total
    {
      queueSize, total, activeCount, counts := |queue|, |tasks|, |active|, map[];
      var todo := tasks.Keys;
      ghost var done: set<Serial> := {};
      while todo != {}
        invariant done !! todo && done + todo == tasks.Keys
        invariant forall st :: CountOf(counts, st) == |WithStatus(Abs(), done, st)|
        decreases todo
      {
        var n :| n in todo;
        todo := todo - {n};
        ghost var counts0, done0 := counts, done;
        var st := tasks[n].status;
        counts := counts[st := (if st in counts then counts[st] else 0) + 1];
        done := done + {n};
        forall x ensures CountOf(counts, x) == |WithStatus(Abs(), done, x)| {
          OneMoreKey(Abs(), done0, n, x);
        }
      }
      assert done == tasks.Keys;
      StatusesPartition(Abs(), tasks.Keys);
    }

    static ghost predicate NewestFirst(out: seq<Task>) {
      forall i, j | 0 <= i < j < |out| :: out[i] != out[j] && out[i].createdAt >= out[j].createdAt
    }

    static lemma InsertedKeepsOrder(all: seq<Task>, at: nat, task: Task)
      requires NewestFirst(all) && task !in all && at <= |all|
      requires at > 0 ==> all[at - 1].createdAt >= task.createdAt
      requires forall k | at <= k < |all| :: all[k].createdAt < task.createdAt
      ensures NewestFirst(all[..at] + [task] + all[at..])
      ensures forall t :: t in all[..at] + [task] + all[at..] <==> t == task || t in all
    {
      var r := all[..at] + [task] + all[at..];
      forall i, j | 0 <= i < j < |r| ensures r[i] != r[j] && r[i].createdAt >= r[j].createdAt {
        if j < at {
          assert r[i] == all[i] && r[j] == all[j];
        } else if j == at {
          assert r[i] == all[i] && r[j] == task;
          assert i == at - 1 || all[i].createdAt >= all[at - 1].createdAt;
        } else if i < at {
          assert r[i] == all[i] && r[j] == all[j - 1];
        } else if i == at {
          assert r[i] == task && r[j] == all[j - 1];
        } else {
          assert r[i] == all[i - 1] && r[j] == all[j - 1];
        }
      }
      assert all == all[..at] + all[at..];
    }

    static method InsertNewestFirst(all: seq<Task>, task: Task) returns (r: seq<Task>)
      requires NewestFirst(all) && task !in all
      ensures NewestFirst(r) && |r| == |all| + 1
      ensures forall t :: t in r <==> t == task || t in all
    {
      var at := |all|;
      while at > 0 && all[at - 1].createdAt < task.createdAt
        invariant 0 <= at <= |all|
        invariant forall k | at <= k < |all| :: all[k].createdAt < task.createdAt
      {
        at := at - 1;
      }
      r := all[..at] + [task] + all[at..];
      InsertedKeepsOrder(all, at, task);
    }

    static lemma FirstAreNewest(all: seq<Task>, out: seq<Task>)
      requires NewestFirst(all) && out <= all
      ensures NewestFirst(out) && forall t | t in out :: t in all
      ensures forall t, other | t in out && other in all && other !in out :: other.createdAt <= t.createdAt
    {
      forall t, other | t in out && other in all && other !in out ensures other.createdAt <= t.createdAt {
        var i :| 0 <= i < |out| && out[i] == t;
        var j :| 0 <= j < |all| && all[j] == other;
        assert all[i] == out[i] && (j < |out| ==> out[j] == all[j]);
      }
    }

    ghost function Pool(filter: Option<OperationStatus>): set<Serial>
      requires Valid()
      reads this, repr
    {
      set n | n in tasks && (filter.None? || tasks[n].status == filter.value)
    }

    /** `all` is the stored tasks with these serials, in some order. */
    ghost predicate Collected(all: seq<Task>, done: set<Serial>)
      reads this, all
    {
      && |all| == |done|
      && (forall t | t in all :: t.serial in done && t.serial in tasks && tasks[t.serial] == t)
      && (forall n | n in done :: n in tasks && tasks[n] in all)
    }

    lemma CollectedOne(all: seq<Task>, done: set<Serial>, n: Serial, all': seq<Task>)
      requires Collected(all, done) && n !in done && n in tasks && tasks[n].serial == n
      requires |all'| == |all| + 1 && forall t :: t in all' <==> t == tasks[n] || t in all
      ensures Collected(all', done + {n})
    {
    }

    method ListTasks(filter: Option<OperationStatus>, limit: int) returns (out: seq<Task>)
      requires Valid() && (forall n | n in tasks :: tasks[n].serial == n)
      ensures NewestFirst(out)
      ensures forall t | t in out :: t.serial in Pool(filter) && tasks[t.serial] == t
      ensures |out| == SliceLength(|Pool(filter)|, limit)
      ensures 0 <= limit ==> |out| == if limit < |Pool(filter)| then limit else |Pool(filter)|
      ensures limit < 0 ==> |out| == if |Pool(filter)| + limit < 0 then 0 else |Pool(filter)| + limit
      ensures forall n, t | n in Pool(filter) && tasks[n] !in out && t in out :: tasks[n].createdAt <= t.createdAt
    {
      var all: seq<Task> := [];
      var todo := tasks.Keys;
      ghost var done: set<Serial> := {};
      while todo != {}
        invariant todo <= tasks.Keys && done !! todo
        invariant forall n | n in tasks && n !in todo :: n in done <==> Matches(filter, tasks[n].Data())
        invariant NewestFirst(all) && Collected(all, done)
        decreases todo
      {
        var n :| n in todo;
        var task := tasks[n];
        todo := todo - {n};
        if filter == None || task.status == filter.value {
          ghost var before := all;
          assert task !in all;
          all := InsertNewestFirst(all, task);
          CollectedOne(before, done, n, all);
          done := done + {n};
        }
      }
      assert done == Pool(filter);
      out := all[..SliceLength(|all|, limit)];
      FirstAreNewest(all, out);
    }
  }
}
