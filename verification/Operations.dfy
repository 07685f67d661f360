/** The service-operation protocol end to end: requests handled by infrasrv, their calls to
    controllersrv, the operation records, and the tracker that polls outcomes back. */
module Operations {
  import opened Wrappers
  import opened Whitespace
  import opened Tasks
  import opened Controller

  type OpId = string
  type Request = nat

  const DISPATCH_RETRIES: nat := 3
  const WINDOW_SECONDS: nat := 600
  const POLL_BATCH_SIZE: nat := 50

  // ---- Records -------------------------------------------------------------------------------

  datatype Record = Record(
    status: OperationStatus,
    startedAt: Option<int>,
    completedAt: Option<int>,
    createdAt: int,
    retryCount: nat,
    error: Option<string>)
  {
    /** A request that finds the record like this does not dispatch the operation. */
    predicate Blocked() {
      status != Pending || startedAt.Some?
    }

    predicate Active() {
      status == Pending || status == Running
    }
  }

  datatype Update = Update(
    status: OperationStatus,
    startedAt: Option<int>,
    completedAt: Option<int>,
    retryCount: Option<nat>,
    error: Option<string>)

  function Or<T>(a: Option<T>, b: Option<T>): Option<T> {
    if a.Some? then a else b
  }

  /** An update writes only the fields it carries. */
  function Updated(r: Record, u: Update): Record {
    Record(u.status, Or(u.startedAt, r.startedAt), Or(u.completedAt, r.completedAt), r.createdAt,
           if u.retryCount.Some? then u.retryCount.value else r.retryCount, Or(u.error, r.error))
  }

  function UpdateFromTask(d: TaskData, now: int): Update {
    Update(d.status, d.startedAt,
           if d.IsFinished() then Some(if d.finishedAt.Some? then d.finishedAt.value else now) else None,
           Some(d.retryCount), d.error)
  }

  function UpdateFromDispatch(accepted: bool, startedAt: int, now: int): Update {
    if accepted then Update(Running, Some(startedAt), None, None, None)
    else Update(Failed, Some(startedAt), Some(now), None, Some("Unknown error from controllersrv"))
  }

  function UpdateFromAge(now: int): Update {
    Update(Timeout, None, Some(now), None, Some("Operation exceeded 10 minutes without controllersrv completion"))
  }

  // ---- The state -------------------------------------------------------------------------------

  /** Where the handling of one request is. `Calling(n)` is about to make call number `n`. */
  datatype Pc =
    | Checking
    | Creating
    | Calling(attempt: nat, startedAt: int)
    | Waiting(attempt: nat, startedAt: int)
    | Writing(accepted: bool, startedAt: int, completedAt: int)
    | Done

  datatype Handler = Handler(op: OpId, pc: Pc)

  datatype Call = Call(request: Request, attempt: nat)

  /** `todo` are the operations selected and not yet polled or written. */
  datatype Tracker =
    | Resting
    | Polling(todo: seq<OpId>)
    | Fetched(op: OpId, task: TaskData, todo: seq<OpId>)
    | Expiring(todo: seq<OpId>, now: int)
  {
    predicate Busy(o: OpId) {
      match this
      case Resting => false
      case Polling(todo) => o in todo
      case Fetched(op, _, todo) => o == op || o in todo
      case Expiring(todo, _) => o in todo
    }
  }

  /** `sent` are the calls ever made; `answers` those controllersrv has handled, with its verdict. */
  datatype World = World(
    ctl: State<nat>,
    records: map<OpId, Record>,
    handlers: map<Request, Handler>,
    sent: set<Call>,
    answers: map<Call, EnqueueResult>,
    tracker: Tracker)

  function Beginning(now: int): World {
    World(Initial<nat>(now), map[], map[], {}, map[], Resting)
  }

  datatype Move =
    | Internal(step: Step<nat>)
    | Arrive(r: Request, op: OpId)
    | Check(r: Request)
    | Create(r: Request)
    | CreateFails(r: Request)
    | Send(r: Request)
    | Deliver(call: Call, id: nat, data: TaskData)
    | GetReply(r: Request)
    | GetFailureReply(r: Request)
    | GetException(r: Request)
    | WriteResult(r: Request)
    | WriteFails(r: Request)
    | SelectActive(batch: seq<OpId>)
    | Poll
    | PollFails
    | WritePolled
    | SelectStale(batch: seq<OpId>)
    | WriteStale
    | EndCycle

  predicate At(w: World, r: Request) {
    r in w.handlers
  }

  predicate Selects(w: World, batch: seq<OpId>, recent: bool) {
    && |batch| <= POLL_BATCH_SIZE
    && (forall i, j :: 0 <= i < j < |batch| ==> batch[i] != batch[j])
    && (forall o | o in batch ::
          && o in w.records && w.records[o].Active()
          && (recent <==> w.records[o].createdAt >= w.ctl.clock - WINDOW_SECONDS))
  }

  /** `GetReply` is the answer arriving; `GetFailureReply` and `GetException` are what the caller
      can see instead, whether or not the call was ever handled. */
  predicate Can(w: World, m: Move) {
    match m
    case Internal(step) => Enabled(w.ctl, step) && (step.Submit? ==> step.data.serial != "" && Strip(step.data.serial) == step.data.serial)
    case Arrive(r, op) => r !in w.handlers
    case Check(r) => At(w, r) && w.handlers[r].pc.Checking?
    case Create(r) => At(w, r) && w.handlers[r].pc.Creating?
    case CreateFails(r) => At(w, r) && w.handlers[r].pc.Creating?
    case Send(r) => At(w, r) && w.handlers[r].pc.Calling?
    case Deliver(call, id, data) =>
      && call in w.sent && call !in w.answers && call.request in w.handlers
      && data.serial == Strip(w.handlers[call.request].op) && data.serial != ""
      && Enabled(w.ctl, Submit(id, data))
    case GetReply(r) => At(w, r) && w.handlers[r].pc.Waiting? && Call(r, w.handlers[r].pc.attempt) in w.answers
    case GetFailureReply(r) => At(w, r) && w.handlers[r].pc.Waiting?
    case GetException(r) => At(w, r) && w.handlers[r].pc.Waiting?
    case WriteResult(r) => At(w, r) && w.handlers[r].pc.Writing?
    case WriteFails(r) => At(w, r) && w.handlers[r].pc.Writing?
    case SelectActive(batch) => w.tracker.Resting? && Selects(w, batch, true)
    case Poll => w.tracker.Polling? && w.tracker.todo != []
    case PollFails => w.tracker.Polling? && w.tracker.todo != []
    case WritePolled => w.tracker.Fetched?
    case SelectStale(batch) => w.tracker == Polling([]) && Selects(w, batch, false)
    case WriteStale => w.tracker.Expiring? && w.tracker.todo != []
    case EndCycle => !w.tracker.Resting?
  }

  function Goto(w: World, r: Request, pc: Pc): World
    requires At(w, r)
  {
    w.(handlers := w.handlers[r := w.handlers[r].(pc := pc)])
  }

  function WithRecord(w: World, op: OpId, u: Update): World {
    if op in w.records then w.(records := w.records[op := Updated(w.records[op], u)]) else w
  }

  function Do(w: World, m: Move): World
    requires Can(w, m)
  {
    match m
    case Internal(step) => w.(ctl := Apply(w.ctl, step))
    case Arrive(r, op) => w.(handlers := w.handlers[r := Handler(op, if op == "" then Done else Checking)])
    case Check(r) =>
      var op := w.handlers[r].op;
      if op !in w.records then Goto(w, r, Creating)
      else if w.records[op].Blocked() then Goto(w, r, Done)
      else Goto(w, r, Calling(1, w.ctl.clock))
    case Create(r) =>
      var op := w.handlers[r].op;
      var w1 := if op in w.records then w
                else w.(records := w.records[op := Record(Pending, None, None, w.ctl.clock, 0, None)]);
      Goto(w1, r, Calling(1, w.ctl.clock))
    case CreateFails(r) => Goto(w, r, Done)
    case Send(r) =>
      var pc := w.handlers[r].pc;
      Goto(w.(sent := w.sent + {Call(r, pc.attempt)}), r, Waiting(pc.attempt, pc.startedAt))
    case Deliver(call, id, data) =>
      w.(ctl := Apply(w.ctl, Submit(id, data)), answers := w.answers[call := EnqueueResultOf(w.ctl.q, data.serial)])
    case GetReply(r) =>
      var pc := w.handlers[r].pc;
      Goto(w, r, Writing(w.answers[Call(r, pc.attempt)] == Accepted, pc.startedAt, w.ctl.clock))
    case GetFailureReply(r) => Goto(w, r, Writing(false, w.handlers[r].pc.startedAt, w.ctl.clock))
    case GetException(r) =>
      var pc := w.handlers[r].pc;
      if pc.attempt < DISPATCH_RETRIES then Goto(w, r, Calling(pc.attempt + 1, pc.startedAt))
      else Goto(w, r, Writing(false, pc.startedAt, w.ctl.clock))
    case WriteResult(r) =>
      var pc := w.handlers[r].pc;
      Goto(WithRecord(w, w.handlers[r].op, UpdateFromDispatch(pc.accepted, pc.startedAt, pc.completedAt)), r, Done)
    case WriteFails(r) => Goto(w, r, Done)
    case SelectActive(batch) => w.(tracker := Polling(batch))
    case Poll =>
      var op := w.tracker.todo[0];
      if op in w.ctl.q.tasks && w.ctl.q.tasks[op] in w.ctl.q.heap
      then w.(tracker := Fetched(op, w.ctl.q.heap[w.ctl.q.tasks[op]], w.tracker.todo[1..]))
      else w.(tracker := Polling(w.tracker.todo[1..]))
    case PollFails => w.(tracker := Polling(w.tracker.todo[1..]))
    case WritePolled =>
      WithRecord(w, w.tracker.op, UpdateFromTask(w.tracker.task, w.ctl.clock)).(tracker := Polling(w.tracker.todo))
    case SelectStale(batch) => w.(tracker := Expiring(batch, w.ctl.clock))
    case WriteStale =>
      WithRecord(w, w.tracker.todo[0], UpdateFromAge(w.tracker.now)).(tracker := Expiring(w.tracker.todo[1..], w.tracker.now))
    case EndCycle => w.(tracker := Resting)
  }

  predicate Feasible(w: World, run: seq<Move>)
    decreases |run|
  {
    run == [] || (Can(w, run[0]) && Feasible(Do(w, run[0]), run[1..]))
  }

  function Reached(w: World, run: seq<Move>): World
    requires Feasible(w, run)
    decreases |run|
  {
    if run == [] then w else Reached(Do(w, run[0]), run[1..])
  }
}
