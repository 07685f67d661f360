/** The task record of controllersrv and the objects that carry it. */
module Tasks {
  import opened Wrappers

  type Serial = string
  type Payload = map<string, string>

  datatype OperationType = Start | Stop | Restart | Status | List | Health | ComposeStatus

  datatype OperationStatus = Pending | Running | Success | Failed | Timeout | Cancelled
  {
    predicate Finished() {
      Success? || Failed? || Timeout? || Cancelled?
    }
  }

  /** The fields of one task at one moment. */
  datatype TaskData = TaskData(
    serial: Serial,
    operation: OperationType,
    serviceNames: seq<string>,
    createdAt: int,
    status: OperationStatus,
    startedAt: Option<int>,
    finishedAt: Option<int>,
    result: Option<Payload>,
    error: Option<string>,
    retryCount: nat)
  {
    predicate IsFinished() {
      status.Finished()
    }

    /** What a task looks like when the application layer has just built it. */
    predicate IsNew() {
      && status == Pending && startedAt == None && finishedAt == None
      && result == None && error == None && retryCount == 0
    }
  }

  /** How one run of the retry loop ended. */
  datatype Outcome = Succeeded(payload: Payload) | AllAttemptsFailed(message: string, details: Payload) | TimedOut(limitMessage: string)
  {
    function Status(): OperationStatus {
      match this
      case Succeeded(_) => Success
      case AllAttemptsFailed(_, _) => Failed
      case TimedOut(_) => Timeout
    }

    /** The result the worker hands to the queue when it publishes this outcome. */
    function PublishedResult(): Option<Payload> {
      match this
      case Succeeded(p) => Some(p)
      case AllAttemptsFailed(_, d) => Some(d)
      case TimedOut(_) => None
    }

    function PublishedError(): Option<string> {
      match this
      case Succeeded(_) => None
      case AllAttemptsFailed(m, _) => Some(m)
      case TimedOut(m) => Some(m)
    }
  }

  function Started(d: TaskData, now: int): TaskData {
    d.(status := Running, startedAt := Some(now))
  }

  function Ended(d: TaskData, outcome: Outcome, now: int): TaskData {
    match outcome
    case Succeeded(p) => d.(status := Success, finishedAt := Some(now), result := Some(p))
    case AllAttemptsFailed(m, _) => d.(status := Failed, finishedAt := Some(now), error := Some(m))
    case TimedOut(_) => d.(status := Timeout, finishedAt := Some(now), error := Some("Task execution timeout"))
  }

  /** The part of a status update that writes the task: an empty result or message is not written. */
  function Overwritten(d: TaskData, status: OperationStatus, result: Option<Payload>, error: Option<string>): TaskData {
    var d1 := d.(status := status);
    var d2 := if result.Some? && result.value != map[] then d1.(result := result) else d1;
    if error.Some? && error.value != "" then d2.(error := error) else d2
  }

  /** A task as it is submitted. */
  function FreshTask(serial: Serial, now: int): (d: TaskData)
    ensures d.IsNew() && d.serial == serial
  {
    TaskData(serial, Start, [], now, Pending, None, None, None, None, 0)
  }

  class Task {
    const serial: Serial
    const operation: OperationType
    const serviceNames: seq<string>
    const createdAt: int
    var status: OperationStatus
    var startedAt: Option<int>
    var finishedAt: Option<int>
    var result: Option<Payload>
    var error: Option<string>
    var retryCount: nat

    constructor (serial: Serial, operation: OperationType, serviceNames: seq<string>, now: int)
      ensures Data().IsNew()
      ensures Data().serial == serial && Data().operation == operation
      ensures Data().serviceNames == serviceNames && Data().createdAt == now
    {
      this.serial, this.operation, this.serviceNames, this.createdAt := serial, operation, serviceNames, now;
      status, startedAt, finishedAt, result, error, retryCount := Pending, None, None, None, None, 0;
    }

    function Data(): TaskData
      reads this
    {
      TaskData(serial, operation, serviceNames, createdAt, status, startedAt, finishedAt, result, error, retryCount)
    }

    method Overwrite(status: OperationStatus, result: Option<Payload>, error: Option<string>)
      modifies this
      ensures Data() == Overwritten(old(Data()), status, result, error)
      ensures this.status == status
      ensures this.result == if result.Some? && |result.value| > 0 then result else old(this.result)
      ensures this.error == if error.Some? && |error.value| > 0 then error else old(this.error)
      ensures startedAt == old(startedAt) && finishedAt == old(finishedAt) && retryCount == old(retryCount)
    {
      this.status := status;
      if result.Some? && result.value != map[] {
        this.result := result;
      }
      if error.Some? && error.value != "" {
        this.error := error;
      }
    }

    method MarkRunning(now: int)
      modifies this
      ensures Data() == Started(old(Data()), now)
      ensures status == Running && startedAt == Some(now)
      ensures finishedAt == old(finishedAt) && result == old(result) && error == old(error) && retryCount == old(retryCount)
    {
      status := Running;
      startedAt := Some(now);
    }

    method MarkSuccess(payload: Payload, now: int)
      modifies this
      ensures Data() == Ended(old(Data()), Succeeded(payload), now)
      ensures status == Success && finishedAt == Some(now) && result == Some(payload)
      ensures startedAt == old(startedAt) && error == old(error) && retryCount == old(retryCount)
    {
      status := Success;
      finishedAt := Some(now);
      result := Some(payload);
    }

    method MarkFailed(message: string, ghost details: Payload, now: int)
      modifies this
      ensures Data() == Ended(old(Data()), AllAttemptsFailed(message, details), now)
      ensures status == Failed && finishedAt == Some(now) && error == Some(message)
      ensures startedAt == old(startedAt) && result == old(result) && retryCount == old(retryCount)
    {
      status := Failed;
      finishedAt := Some(now);
      error := Some(message);
    }

    method MarkTimeout(ghost limitMessage: string, now: int)
      modifies this
      ensures Data() == Ended(old(Data()), TimedOut(limitMessage), now)
      ensures status == Timeout && finishedAt == Some(now) && error == Some("Task execution timeout")
      ensures startedAt == old(startedAt) && result == old(result) && retryCount == old(retryCount)
    {
      status := Timeout;
      finishedAt := Some(now);
      error := Some("Task execution timeout");
    }
  }
}
