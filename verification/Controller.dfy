/** controllersrv as a step system: the task queue, the single worker, the clean-up and the
    clock, each lock-protected section being one step. Tasks are known by identity (`Id`),
    so one task can be in the queue, in the serial map and in the worker's hand at once. */
module Controller {
  import opened Wrappers
  import opened Sequences
  import opened Tasks

  const TASK_QUEUE_MAX_SIZE: nat := 100
  const SERIAL_NUMBER_MAX_AGE: nat := 86400
  const MAX_RETRIES: nat := 3

  /** What the queue object holds, plus the current content of every task ever accepted. */
  datatype QueueState<!Id(==)> = QueueState(
    heap: map<Id, TaskData>,
    queue: seq<Id>,
    tasks: map<Serial, Id>,
    active: set<Serial>)

  datatype EnqueueResult = Accepted | QueueFull | DuplicateSerial

  function EnqueueResultOf<Id>(q: QueueState<Id>, serial: Serial): EnqueueResult {
    if serial in q.active then DuplicateSerial
    else if |q.queue| >= TASK_QUEUE_MAX_SIZE then QueueFull
    else Accepted
  }

  function Enqueued<Id(==)>(q: QueueState<Id>, id: Id, d: TaskData): QueueState<Id> {
    if EnqueueResultOf(q, d.serial) != Accepted then q
    else QueueState(q.heap[id := d], q.queue + [id], q.tasks[d.serial := id], q.active + {d.serial})
  }

  function StatusUpdated<Id(==)>(q: QueueState<Id>, serial: Serial, status: OperationStatus,
                                 result: Option<Payload>, error: Option<string>): (r: QueueState<Id>)
  {
    if serial == "" || serial !in q.tasks || q.tasks[serial] !in q.heap then q
    else
      var id := q.tasks[serial];
      q.(heap := q.heap[id := Overwritten(q.heap[id], status, result, error)],
         active := if status.Finished() then q.active - {serial} else q.active)
  }

  predicate Expired(d: TaskData, now: int) {
    d.IsFinished() && d.finishedAt.Some? && now - d.finishedAt.value > SERIAL_NUMBER_MAX_AGE
  }

  function ExpiredSerials<Id(==)>(q: QueueState<Id>, now: int): set<Serial> {
    set s | s in q.tasks && q.tasks[s] in q.heap && Expired(q.heap[q.tasks[s]], now)
  }

  function CleanedUp<Id(==)>(q: QueueState<Id>, now: int): QueueState<Id> {
    var gone := ExpiredSerials(q, now);
    q.(tasks := q.tasks - gone, active := q.active - gone)
  }

  /** Where the worker is. `Holding`: taken from the queue; `Marked`: told RUNNING, not yet
      published; `Executing`: inside the retry loop after that many failed attempts;
      `Finishing`: told its outcome, serial not yet released. */
  datatype Phase<!Id> =
    | Idle
    | Holding(id: Id)
    | Marked(id: Id)
    | Executing(id: Id, failures: nat)
    | Finishing(id: Id, outcome: Outcome)

  /** `accepted` and `taken` record the order in which tasks entered the queue and left it;
      `stranded` holds the tasks the worker let go of without releasing their serial. */
  datatype State<!Id(==)> = State(
    q: QueueState<Id>,
    running: bool,
    phase: Phase<Id>,
    stranded: set<Id>,
    clock: int,
    accepted: seq<Id>,
    taken: seq<Id>)
  {
    predicate Holds(id: Id) {
      !phase.Idle? && phase.id == id
    }

    /** A finished task whose serial is still reserved. */
    predicate Window(id: Id) {
      (phase.Finishing? && phase.id == id) || id in stranded
    }
  }

  function Initial<Id(==)>(now: int): State<Id> {
    State(QueueState(map[], [], map[], {}), false, Idle, {}, now, [], [])
  }

  datatype Step<!Id> =
    | Submit(id: Id, data: TaskData)
    | StartWorker
    | StopWorker
    | Take
    | MarkRunning
    | PublishRunning
    | FailAttempt
    | Finish(outcome: Outcome)
    | Release
    | Cleanup
    | Tick(now: int)

  /** `Finish`: the retry loop raises only after its last attempt and returns only before it.
      `Tick`: the release that follows a `Finish` comes within the retention age of a serial. */
  predicate Enabled<Id(==)>(s: State<Id>, step: Step<Id>) {
    match step
    case Submit(id, data) => id !in s.q.heap && data.IsNew()
    case StartWorker => !s.running
    case StopWorker => s.running
    case Take => s.running && s.phase.Idle? && s.q.queue != []
    case MarkRunning => s.phase.Holding? && s.phase.id in s.q.heap
    case PublishRunning => s.phase.Marked? && s.phase.id in s.q.heap
    case FailAttempt => s.phase.Executing? && s.phase.id in s.q.heap && s.phase.failures < MAX_RETRIES
    case Finish(outcome) =>
      && s.phase.Executing? && s.phase.id in s.q.heap
      && (outcome.Succeeded? ==> s.phase.failures < MAX_RETRIES)
      && (outcome.AllAttemptsFailed? ==> s.phase.failures == MAX_RETRIES)
    case Release => s.phase.Finishing? && s.phase.id in s.q.heap
    case Cleanup => true
    case Tick(now) =>
      && s.clock <= now
      && (s.phase.Finishing? && s.phase.id in s.q.heap && s.q.heap[s.phase.id].finishedAt.Some? ==>
            now - s.q.heap[s.phase.id].finishedAt.value <= SERIAL_NUMBER_MAX_AGE)
  }

  function WithTask<Id(==)>(q: QueueState<Id>, id: Id, d: TaskData): QueueState<Id> {
    q.(heap := q.heap[id := d])
  }

  function Apply<Id(==)>(s: State<Id>, step: Step<Id>): State<Id>
    requires Enabled(s, step)
  {
    match step
    case Submit(id, data) =>
      if EnqueueResultOf(s.q, data.serial) != Accepted then s
      else s.(q := Enqueued(s.q, id, data), accepted := s.accepted + [id])
    case StartWorker => s.(running := true)
    case StopWorker =>
      s.(running := false, phase := Idle, stranded := if s.phase.Idle? then s.stranded else s.stranded + {s.phase.id})
    case Take =>
      s.(q := s.q.(queue := s.q.queue[1..]), phase := Holding(s.q.queue[0]), taken := s.taken + [s.q.queue[0]])
    case MarkRunning =>
      s.(q := WithTask(s.q, s.phase.id, Started(s.q.heap[s.phase.id], s.clock)), phase := Marked(s.phase.id))
    case PublishRunning =>
      s.(q := StatusUpdated(s.q, s.q.heap[s.phase.id].serial, Running, None, None), phase := Executing(s.phase.id, 0))
    case FailAttempt =>
      var n := s.phase.failures + 1;
      s.(q := WithTask(s.q, s.phase.id, s.q.heap[s.phase.id].(retryCount := n)), phase := Executing(s.phase.id, n))
    case Finish(outcome) =>
      s.(q := WithTask(s.q, s.phase.id, Ended(s.q.heap[s.phase.id], outcome, s.clock)), phase := Finishing(s.phase.id, outcome))
    case Release =>
      var serial := s.q.heap[s.phase.id].serial;
      var o := s.phase.outcome;
      s.(q := StatusUpdated(s.q, serial, o.Status(), o.PublishedResult(), o.PublishedError()),
         phase := Idle,
         stranded := if serial == "" then s.stranded + {s.phase.id} else s.stranded)
    case Cleanup =>
      var gone := ExpiredSerials(s.q, s.clock);
      s.(q := CleanedUp(s.q, s.clock),
         stranded := set id | id in s.stranded && !(id in s.q.heap && s.q.heap[id].serial in gone))
    case Tick(now) => s.(clock := now)
  }

  /** A finite run, oldest step first. */
  predicate Legal<Id(==)>(s: State<Id>, run: seq<Step<Id>>)
    decreases |run|
  {
    run == [] || (Enabled(s, run[0]) && Legal(Apply(s, run[0]), run[1..]))
  }

  function After<Id(==)>(s: State<Id>, run: seq<Step<Id>>): State<Id>
    requires Legal(s, run)
    decreases |run|
  {
    if run == [] then s else After(Apply(s, run[0]), run[1..])
  }

  // ---- The invariant -------------------------------------------------------------------

  /** Acceptance order is the order of taking followed by the queue; nothing is lost or doubled. */
  ghost predicate Ledger<Id>(s: State<Id>) {
    && s.accepted == s.taken + s.q.queue
    && Distinct(s.accepted)
    && (forall id | id in s.accepted :: id in s.q.heap)
    && (forall id | id in s.q.heap :: id in s.accepted)
    && |s.q.queue| <= TASK_QUEUE_MAX_SIZE
  }

  ghost predicate Indexed<Id>(s: State<Id>) {
    && (forall n :: n in s.q.tasks ==> s.q.tasks[n] in s.q.heap && s.q.heap[s.q.tasks[n]].serial == n)
    && s.q.active <= s.q.tasks.Keys
  }

  /** A task that has not ended, or has ended but is not released, is the owner of its serial;
      and every reserved serial has such an owner. */
  ghost predicate Owned<Id>(s: State<Id>) {
    && (forall id | id in s.q.heap :: (!s.q.heap[id].IsFinished() || s.Window(id)) ==>
          && s.q.heap[id].serial in s.q.tasks && s.q.tasks[s.q.heap[id].serial] == id
          && s.q.heap[id].serial in s.q.active)
    && (forall n :: n in s.q.active && n in s.q.tasks && s.q.tasks[n] in s.q.heap ==>
          !s.q.heap[s.q.tasks[n]].IsFinished() || s.Window(s.q.tasks[n]))
  }

  ghost predicate Placed<Id>(s: State<Id>) {
    && (forall id :: id in s.q.queue && id in s.q.heap ==> s.q.heap[id].status == Pending)
    && (forall id :: id in s.stranded ==> id in s.taken)
    && (!s.phase.Idle? ==> s.phase.id in s.taken && s.phase.id !in s.stranded && s.running)
    && (forall id :: id in s.taken && id in s.q.heap && !s.Holds(id) && id !in s.stranded ==> s.q.heap[id].IsFinished())
  }

  predicate PhaseAgrees<Id>(p: Phase<Id>, d: TaskData) {
    match p
    case Idle => true
    case Holding(_) => d.status == Pending
    case Marked(_) => d.status == Running && d.retryCount == 0
    case Executing(_, n) => d.status == Running && d.retryCount == n && n <= MAX_RETRIES
    case Finishing(_, o) => d.status == o.Status()
  }

  /** What the fields of one task say about each other. */
  predicate TaskWellFormed(d: TaskData, now: int) {
    && d.retryCount <= MAX_RETRIES
    && (d.status == Pending ==> d.startedAt == None && d.finishedAt == None && d.retryCount == 0)
    && (d.status == Running ==> d.startedAt.Some? && d.startedAt.value <= now && d.finishedAt == None)
    && (d.IsFinished() ==> d.startedAt.Some? && d.finishedAt.Some? && d.startedAt.value <= d.finishedAt.value <= now)
    && (d.status == Success ==> d.retryCount < MAX_RETRIES && d.result.Some?)
    && (d.status == Failed ==> d.retryCount == MAX_RETRIES && d.error.Some?)
    && d.status != Cancelled
  }

  ghost predicate Timed<Id>(s: State<Id>) {
    && (forall id :: id in s.q.heap ==> TaskWellFormed(s.q.heap[id], s.clock))
    && (!s.phase.Idle? && s.phase.id in s.q.heap ==> PhaseAgrees(s.phase, s.q.heap[s.phase.id]))
    && (s.phase.Finishing? && s.phase.id in s.q.heap && s.q.heap[s.phase.id].finishedAt.Some? ==>
          s.clock - s.q.heap[s.phase.id].finishedAt.value <= SERIAL_NUMBER_MAX_AGE)
  }

  ghost predicate Inv<Id>(s: State<Id>) {
    Ledger(s) && Indexed(s) && Owned(s) && Placed(s) && Timed(s)
  }
}
