# Verification of the Cancan microstack

Dafny models of the parts of the stack that carry state, with proofs about every run. The largest is
the service-operation protocol: infrasrv dispatches an operation, controllersrv queues and executes
it, and a tracker polls the outcome back into the operation record.

| modules | what they model |
|---|---|
| Tasks, TaskQueues, TaskWorkers | the task, queue and worker objects of controllersrv, with their aliasing |
| Subprocesses | the subprocesses of the worker beside its steps |
| Controller, ControllerSafety, ControllerRuns | the same as a step system, one step per lock-protected section; its invariant; its runs |
| Operations, OperationsSafety, OperationsRuns | requests, calls and replies, records and the tracker; the invariant; what every run keeps |
| OperationsReach, OperationsFinal, OperationsFailures, OperationsTwice | what runs can lead to; exactly when a record is final, says FAILED over a live task, or a request is accepted again |
| OperationsRecords | what each writer puts into the fields of a record, and what becomes of the times and counts the tracker wrote |
| OperationsExamples | runs from the beginning |
| Dispatch | the back-off loop |
| InlinePools, InlineExecutor, InlineQueues | the bounded inline executor of the workflow queue: one pool, all pools, the objects |
| Compose, ComposeHeap, ComposeBuild, ComposeBuilder | the deep merge of compose documents, as values and over nodes in memory, and the passes over the result |
| HostDaemon | the pidfile daemon on a machine that uses pids again |
| ServiceValidator | service names, categories and which services may be operated on |
| Workflows | normalising and validating workflow definitions |
| Sequences, Whitespace, Numerals, Wrappers | sequences, white space, integers as text, options |

The classes follow the program's objects. Each of their methods is proved to change the abstract state
exactly as a function says, and the theorems are about those functions, for every interleaving of their
steps. `TaskWorkers.ExecutionIsARun` connects the two for the worker.

## What the proofs found

Where the code does not do what its documentation or its neighbours suggest, the members named here
state when it does and give an input or a run, from the beginning, in which it does not.

- A stop in the middle of a task leaves the task as it is and its serial reserved for ever
  (`ControllerRuns.GivenUpForEver`, `ControllerRuns.StopGivesUp`).
- The client turns a transport error into a failure reply
  (`public/api/controllersrv_client.py:73-128`), so a lost reply is not retried, although the retry
  loop is documented for that case. The record becomes FAILED while the task runs and succeeds
  (`OperationsExamples.FailedRecordOfSuccessfulTask`).
- A record can say FAILED over a live task even when every reply arrives: of two requests that pass the
  check together, the one refused as a duplicate overwrites RUNNING
  (`OperationsExamples.DuplicateFailsLiveOperation`). `OperationsFailures.FalselyFailedExactlyWhen`
  says exactly when this can come about, with and without losses.
- A request can be executed twice (`OperationsExamples.OneRequestTwoExecutions`), by a retry after an
  exception or by an earlier call that is delivered late; exactly when is
  `OperationsTwice.AcceptedAgainExactlyWhen`. Without exceptions it cannot
  (`OperationsTwice.OnceWithoutExceptions`).
- A dispatcher's late write can reopen a record that the tracker has completed
  (`OperationsExamples.LateVerdictReopens`). `OperationsFinal.FinalExactlyWhen` says exactly when a
  terminal record is final. A record whose FAILED status is final can still lose the times of its task
  to a refusal that is written later; `OperationsRecords.TimesFinalExactlyWhen` is the exact condition.
- controllersrv strips an operation id, the tracker polls with it unstripped: SUCCESS can be recorded
  exactly for ids without surrounding white space (`OperationsExamples.SuccessReachableExactlyWhen`),
  and others time out although their tasks succeed (`OperationsExamples.PaddedTaskTimesOut`).
- The two selections of one tracker cycle are not disjoint. They overlap in exactly the active records
  whose ten minutes end between the two queries (`OperationsExamples.SelectedTwiceExactlyWhen`).
- The three attempts fit into the overall limit only if killed processes are reaped promptly
  (`TaskWorkers.RetriesFitInsideLimit`, `TaskWorkers.SlowReapingCutsRetriesOff`).
- A stop or the overall limit inside a command leaves its process running beside the next one
  (`Subprocesses.OrphanedExactlyWhen`, `Subprocesses.StopLeavesProcess`,
  `Subprocesses.OverlapExactlyWhen`).
- Waiting for the inline queue to be idle can return with a submitted job not yet in the queue
  (`InlinePools.IdleMeansDone`, `InlinePools.IdleTooEarly`).
- A job that ends in a cancellation takes its worker with it, since the worker loop catches exceptions
  only. `InlinePools.PoolDrainsExactlyWhen` says when a pool is still sure to drain. The queue of a
  closed loop stays registered, and a later loop with the same identifier gets it without workers
  (`InlineExecutor.ClosedLoopIsFoundAgain`, `InlineExecutor.DesertedForEver`).
- A submission that has to wait can be overtaken (`InlinePools.OrderKeptExactlyWhen`,
  `InlinePools.WaitingIsOvertaken`).
- Grouping three compose layers differently can change the result; `Compose.AssociativeExactlyWhen`
  says when.
- A daemon call that cannot read process identities creates a second daemon or forgets the first one
  (`HostDaemon.StepKeepsInvExactlyWhen`); the SIGKILL after the wait does not look at the identity
  again (`HostDaemon.SignalsExactlyWhen`).
- A name in which removing one `.service` joins up another one is categorised differently from its
  base (`ServiceValidator.AliasesShareCategory`); no such name ever passes as operable for a reserved
  service (`ServiceValidator.OperableIsBusiness`).
- A valid workflow need not be able to reach its END node (`Workflows.ReachesExactlyWhen`,
  `Workflows.SoundWithoutReachingEnd`).

## Assumptions

- Each lock-protected section is one step: between the test for a full queue and the put nothing else
  runs. Between those sections everything can interleave.
- controllersrv and infrasrv are not restarted within a run: queue, serial map and tasks are in memory only,
  and a restart of the process loses them.
- The clock does not go back, and the worker publishes an outcome within the retention age
  (24 hours) of marking it. Otherwise clean-up could drop a task before it is released.
- Operation records: an update writes only the fields it carries, and the two selections honour their
  status and age arguments (`services/infrasrv/infrastructure/db/operate/service_operation_op.py:93-252`).
- One tracker cycle runs at a time. Other clients of controllersrv may submit anything. Operation
  records are written by dispatch and tracker only: the internal update route
  (`services/infrasrv/interface/api/internal_operation_api.py:97-130`), through which any field can be
  set, is not used.
- A closing event loop cancels its workers and putters, as `asyncio.run` does.
- Subprocess behaviour, replies, `ps`, and what the machine does while `stop_daemon` waits are
  parameters over which the theorems quantify. No two processes share pid, start time and command
  line, and a process keeps its command line.

## Model

| member | source | states |
|---|---|---|
| `Tasks.Task.MarkRunning` | public/schemas/controllersrv/task_models.py:57-60 | RUNNING with the start time, every other field kept |
| `Tasks.Task.MarkSuccess` | public/schemas/controllersrv/task_models.py:62-66 | SUCCESS with end time and result, every other field kept |
| `Tasks.Task.MarkFailed` | public/schemas/controllersrv/task_models.py:68-72 | FAILED with end time and message; a result is not written |
| `Tasks.Task.MarkTimeout` | public/schemas/controllersrv/task_models.py:74-78 | TIMEOUT with end time and the fixed message |
| `Tasks.Task.Overwrite` | services/controllersrv/domain/task/task_queue.py:163-167 | a status update always writes the status, and result or message only when they are not empty |
| `TaskQueues.TaskQueue.Enqueue` | services/controllersrv/domain/task/task_queue.py:39-81 | the duplicate test comes before the full test; an accepted task is at once last in the queue, stored under its serial and reserved; a refused one changes nothing at all |
| `TaskQueues.TaskQueue.Dequeue` | services/controllersrv/domain/task/task_queue.py:83-116 | the oldest queued object itself leaves the queue and nothing else changes; an empty wait changes nothing |
| `TaskQueues.TaskQueue.UpdateTaskStatus` | services/controllersrv/domain/task/task_queue.py:131-175 | writes the very object stored under the serial, so queue and worker see it too; a terminal status frees the serial; an empty or unknown serial changes nothing |
| `TaskQueues.TaskQueue.OneTaskWritten` | services/controllersrv/domain/task/task_queue.py:163-167 | writing one task object changes exactly that entry of the abstract state, wherever the object is held |
| `TaskQueues.TaskQueue.CleanupOldTasks` | services/controllersrv/domain/task/task_queue.py:191-214 | a serial is dropped from the map if and only if its task has ended, has an end time and ended more than 86400 seconds ago; the reserved serials lose exactly those; every other entry, the queue and all task fields stay |
| `TaskQueues.TaskQueue.GetQueueStats` | services/controllersrv/domain/task/task_queue.py:216-237 | every count is the number of stored tasks with that status, and the counts add up to the total |
| `TaskQueues.TaskQueue.ListTasks` | services/controllersrv/domain/task/task_queue.py:239-267 | newest first, without repeats, only stored tasks with the status asked for, as many as the slice gives (negative limits included), and none left out is newer than one listed |
| `TaskQueues.StatusesPartition` | services/controllersrv/domain/task/task_queue.py:223-237 | every stored task is counted under exactly one status |
| `TaskQueues.ActiveCount` | services/controllersrv/domain/task/task_queue.py:231-234 | the reserved serials are those of the stored PENDING tasks, of the stored RUNNING ones and of the ended but unreleased ones, without overlap; outside the release window, with nothing given up by a stop, the last group is empty |
| `ControllerSafety.StepKeepsInv` | services/controllersrv/domain/task/task_queue.py:39-81 | every atomic step of clients, worker, clean-up and clock keeps the invariant: queue, serial map, active set, worker phase and task fields agree |
| `ControllerSafety.WorkerOwns` | services/controllersrv/domain/task/task_queue.py:157-163 | while the worker holds a task, the serial map still leads to that very task, so its status updates reach it |
| `ControllerRuns.RunKeepsInv` | services/controllersrv/domain/task/task_worker.py:131-152 | the invariant in every reachable state |
| `ControllerRuns.DuplicateExactlyWhenLive` | services/controllersrv/domain/task/task_queue.py:53-57 | a submission is refused as a duplicate if and only if a task with that serial is queued, being worked on or not yet released |
| `ControllerRuns.OneLiveTaskPerSerial` | services/controllersrv/domain/task/task_queue.py:52-67 | over every run: at most one live task per serial, and a serial is accepted again only when every earlier task with it has ended and been released |
| `ControllerRuns.QueueIsSound` | services/controllersrv/domain/task/task_queue.py:60-67 | over every run: queued serials are pairwise distinct; each queued task is PENDING, reserved and the one stored under its serial; the queue never exceeds its limit |
| `ControllerRuns.RunOnlyAdvances` | public/schemas/controllersrv/task_models.py:57-93 | over every run a task moves only PENDING, RUNNING, terminal; its end never changes; accepted and taken only grow at the end |
| `ControllerRuns.RetryAccounting` | services/controllersrv/domain/task/task_worker.py:285-339 | in every reachable state a success has fewer failed attempts than allowed, a failure exactly the allowed number, an ended task both times in order |
| `ControllerRuns.TasksRunOneByOne` | services/controllersrv/domain/task/task_worker.py:139-148 | over every run with stops and restarts: execution in acceptance order, none lost or doubled, intervals disjoint, and the only RUNNING tasks are the worker's own and those given up by a stop |
| `ControllerRuns.GivenUpForEver` | services/controllersrv/domain/task/task_worker.py:86-100 | a task in hand at a stop never changes again and its serial is refused as a duplicate for ever, across restarts and clean-ups |
| `ControllerRuns.StopGivesUp` | services/controllersrv/domain/task/task_worker.py:86-100 | a stop does that exactly when the worker holds a task that has not ended |
| `ControllerRuns.WorkerNeverStuck` | services/controllersrv/domain/task/task_worker.py:139-148 | a running worker can move if and only if something is queued or in hand |
| `ControllerRuns.QueueDrains` | services/controllersrv/domain/task/task_worker.py:139-148 | without submissions a run with enough worker steps ends with nothing queued or in hand |
| `TaskWorkers.TaskWorker.RunCommand` | services/controllersrv/domain/task/task_worker.py:407-451 | exit in time with code zero gives exactly the process's own output, code and duration; another code raises a message with the code that ends in its error output; a timeout takes the timeout and the termination, or the timeout, the grace period and the reaping; a failed spawn raises its message at once |
| `TaskWorkers.TaskWorker.ExecuteWithRetry` | services/controllersrv/domain/task/task_worker.py:285-339 | the loop is the recursive retry specification, with the retry count left on the task |
| `TaskWorkers.TaskWorker.ExecuteTask` | services/controllersrv/domain/task/task_worker.py:176-270 | a successful task carries the output of the first process that worked and the count of those that did not; a failed one ends its error with the reason of the last of three and keeps it among its details; a task stored under its serial is released; nothing else changes |
| `TaskWorkers.RetryLoopOutcome` | services/controllersrv/domain/task/task_worker.py:290-339 | success on attempt k leaves k-1 failures; giving up means exactly MAX_RETRIES failed; cut off exactly when attempts and pauses need the whole limit |
| `TaskWorkers.RunMeans` | services/controllersrv/domain/task/task_worker.py:285-339 | in terms of the processes: a return is the first that works, its output unchanged; giving up is three that do not, with the last one's reason |
| `TaskWorkers.RetriesFitInsideLimit` | services/controllersrv/conf/settings.py:13-26 | for every operation and every subprocess behaviour with prompt reaping, three attempts with grace and pauses take at most 919 of the 1200 seconds: the outer timeout never pre-empts a retry |
| `TaskWorkers.SlowReapingCutsRetriesOff` | services/controllersrv/domain/task/task_worker.py:416-434 | a first process that outlives its timeout and the grace period uses up the limit, with no second attempt, if and only if reaping it takes the rest of the limit |
| `TaskWorkers.ExecutionIsARun` | services/controllersrv/domain/task/task_worker.py:189-265 | what the worker object does to one task is a legal run of the step system with exactly that effect |
| `Subprocesses.OrphanedExactlyWhen` | services/controllersrv/domain/task/task_worker.py:415-475 | for every event: a process runs on without its command exactly when the overall limit or a stop falls inside a command whose process has not ended |
| `Subprocesses.OneProcessAtATime` | services/controllersrv/domain/task/task_worker.py:415-475 | without that, one subprocess runs at a time, over every run |
| `Subprocesses.StopLeavesProcess` | services/controllersrv/domain/task/task_worker.py:80-100 | a run from the start in which a stop leaves the process of a command running |
| `Subprocesses.OverlapExactlyWhen` | services/controllersrv/domain/task/task_worker.py:415-475 | two can come to run side by side without a further such event if and only if one has been left behind |
| `OperationsSafety.MoveKeepsInv` | services/infrasrv/application/service_management_app.py:250-320 | every move of requests, calls, replies, worker and tracker keeps the invariant of the whole protocol |
| `OperationsSafety.RunKeepsInv` | services/infrasrv/application/service_operation_tracker.py:56-75 | the invariant of the whole protocol in every reachable world |
| `Whitespace.StripIdempotent` | public/schemas/controllersrv/requests.py:40-42 | stripping a serial twice is stripping it once |
| `Whitespace.StripMeans` | public/schemas/controllersrv/requests.py:40-42 | the string is white space, the stripped string and white space again, and the stripped string has none at either end |
| `OperationsRuns.OneLiveTaskPerOperation` | services/infrasrv/application/service_management_app.py:445-477 | over every interleaving of retries, lost and late messages and duplicate requests: at most one live task per operation id, and a new acceptance only after all earlier tasks have ended |
| `OperationsRuns.RecordsTellTheTruth` | services/infrasrv/application/service_operation_tracker.py:91-117 | SUCCESS only if a task of that very operation succeeded, RUNNING only if one was accepted; every terminal record has some end time |
| `OperationsRuns.PaddedIdNeverSucceeds` | public/schemas/controllersrv/requests.py:40-42 | an operation id with surrounding white space is never found when polled and never becomes SUCCESS |
| `OperationsRuns.CallsPerRequest` | services/infrasrv/application/service_management_app.py:445-477 | one request makes at most three calls |
| `OperationsRuns.BlockedForEver` | services/infrasrv/application/service_management_app.py:250-269 | a record that has left PENDING or has a start time stays so for ever, and a request that looks at it afterwards makes no call |
| `OperationsFinal.TrackerSettlesExactlyWhen` | services/infrasrv/application/service_operation_tracker.py:77-118 | a polled terminal task's status, with an end time, is what the record says ever after, if and only if no request is left that will write something else |
| `OperationsFinal.TrackerConverges` | services/infrasrv/application/service_operation_tracker.py:77-118 | in every world that the protocol can come to, a polled terminal status is kept for ever exactly under that condition |
| `OperationsRecords.PolledFields` | services/infrasrv/application/service_operation_tracker.py:91-117 | one write of the tracker, field by field: status and retry count of the task, its start if it has one, its end if it has ended, its error if it has one; every other field, record and part of the world stays |
| `OperationsRecords.TimesFinalExactlyWhen` | services/infrasrv/application/service_operation_tracker.py:91-117 | whatever may get lost: a polled ended task's status, start, end and retry count are what the record says ever after if and only if no request of the operation may still write anything but a refusal with these very times |
| `OperationsRecords.TimesCanBeLost` | services/infrasrv/application/service_management_app.py:296-320 | any request that may still write something else can come to do so, FAILED records included |
| `OperationsRecords.VerdictFields` | services/infrasrv/application/service_management_app.py:296-320 | a dispatcher's write, field by field: the start that it noted; an end and an error only for a refusal |
| `OperationsRecords.StaleFields` | services/infrasrv/application/service_operation_tracker.py:132-144 | an expired record becomes TIMEOUT with the time of the selection as its end, and keeps its start |
| `OperationsRecords.TimesNoted` | services/infrasrv/application/service_management_app.py:296-298 | a request notes its start once, behind the check, keeps it over all its calls, and notes its end with the last reply |
| `OperationsRecords.CheckDecides` | services/infrasrv/application/service_management_app.py:250-264 | a request goes on exactly at a record that is PENDING without a start, creates one if there is none, and otherwise stops |
| `OperationsFinal.FinalExactlyWhen` | services/infrasrv/application/service_management_app.py:296-320 | whatever may get lost (failure replies, exceptions, both, or nothing): any terminal record keeps its status over every run if and only if no request in flight will write another one and neither will the tracker from what it has selected or fetched |
| `OperationsFinal.CanComeToRunning` | services/infrasrv/application/service_management_app.py:445-477 | from every reachable world a request that may still be accepted can come to write RUNNING; without an exception this needs a call that is not answered yet |
| `OperationsFinal.TrackerCanChange` | services/infrasrv/application/service_operation_tracker.py:65-144 | a tracker that holds a selection or an answer from before can come to overwrite a terminal record, and how |
| `OperationsFinal.KeptForEver` | services/infrasrv/application/service_management_app.py:445-477 | otherwise the status stays over every run |
| `OperationsRuns.SettledForEver` | services/infrasrv/application/service_operation_tracker.py:65-75 | a terminal record with nothing in flight is never selected or written again by dispatch or tracker |
| `OperationsExamples.LateVerdictReopens` | services/infrasrv/application/service_management_app.py:310-318 | a run from the start, in which nothing is lost, whose dispatch verdict reopens a SUCCESS record as RUNNING, its end time still there |
| `OperationsRuns.VerdictExactWhenNothingLost` | services/infrasrv/application/service_management_app.py:445-458 | as long as no reply is lost, one call is made and RUNNING is written if and only if the task was accepted |
| `OperationsRuns.LostAcceptanceIsFinal` | public/api/controllersrv_client.py:73-128 | a lost acceptance makes the record FAILED for ever, whatever becomes of the task |
| `OperationsExamples.FailedRecordOfSuccessfulTask` | public/api/controllersrv_client.py:73-128 | a run from the start whose task succeeds and whose record says FAILED for good |
| `OperationsTwice.AcceptedAgainExactlyWhen` | services/infrasrv/application/service_management_app.py:445-477 | whatever may get lost: a call of a request that was not accepted so far can come to be accepted if and only if its serial is not taken for good and a call is under way or the request can make another; for a request accepted before, this is a second execution |
| `OperationsTwice.NoAcceptanceAnyMore` | services/infrasrv/application/service_management_app.py:445-477 | otherwise no further acceptance in any run |
| `OperationsTwice.OnceWithoutExceptions` | services/infrasrv/application/service_management_app.py:445-458 | as long as no call ends in an exception, a request is accepted at most once, in every run from the start |
| `OperationsExamples.OneRequestTwoExecutions` | services/infrasrv/application/service_management_app.py:460-469 | a run from the start in which one request's retry is accepted as a second task after the first succeeded |
| `OperationsFailures.FalselyFailedExactlyWhen` | services/infrasrv/application/service_management_app.py:296-320 | whatever may get lost, and when nothing does: a record can come to say FAILED while a given task of the operation has not ended, if and only if it says so, or would not stop a further request, or the tracker holds a failure of an earlier task, or a request of it will be or is refused or can lose its acceptance |
| `OperationsFailures.FineForEver` | services/infrasrv/application/service_management_app.py:296-320 | otherwise it does not, in any run, as long as that task has not ended |
| `OperationsExamples.DuplicateFailsLiveOperation` | services/infrasrv/application/service_management_app.py:250-269 | a run from the start with every reply delivered in which a second request, refused as a duplicate, leaves FAILED for good on an operation whose task is live |
| `OperationsExamples.SuccessReachableExactlyWhen` | public/schemas/controllersrv/requests.py:40-42 | a record can come to say SUCCESS if and only if its operation id is not empty and has no white space around it |
| `OperationsExamples.PaddedTaskTimesOut` | public/schemas/controllersrv/requests.py:40-42 | a run from the start in which the task of a padded id succeeds and its record says TIMEOUT for good |
| `OperationsExamples.SelectedTwiceExactlyWhen` | services/infrasrv/infrastructure/db/operate/service_operation_op.py:194-252 | the polling and the stale selection of one cycle overlap in exactly the records, active both times, whose window runs out between the two clock readings |
| `OperationsExamples.SelectedTwice` | services/infrasrv/infrastructure/db/operate/service_operation_op.py:207-237 | a run from the start in which that happens |
| `OperationsReach.SerialCanBeFreed` | services/controllersrv/domain/task/task_queue.py:169-173 | from every reachable world any serial can become acceptable again unless a stop has given up a task with it; a day has to pass only if a stop kept an ended task from being released |
| `Dispatch.CallWithRetry` | services/infrasrv/application/service_management_app.py:442-477 | calls, hooks and pauses come in the specified order; any reply ends the loop at once; exhaustion only after the last attempt raised |
| `Dispatch.RoundAt` | services/infrasrv/application/service_management_app.py:464-469 | by position in the trace: attempt k is one call, then each hook once and in order, then the pause of delay times m to the power k-1 |
| `Dispatch.FirstReply` | services/infrasrv/application/service_management_app.py:445-458 | the number of calls is the position of the first reply, or the maximum |
| `Dispatch.SleepIsGeometric` | services/infrasrv/application/service_management_app.py:464-469 | the pauses add up to delay times 1 + m + ... + m^(n-1), for every count, delay and multiplier |
| `Dispatch.GeometricClosed` | services/infrasrv/application/service_management_app.py:464-469 | that sum in closed form, and the number of pauses when the multiplier is one |
| `Dispatch.ExhaustedSleep` | services/infrasrv/application/service_management_app.py:464-477 | when every call raises, the pauses between n calls add up to the sum of n-1 terms |
| `InlinePools.ReadConfig` | services/infrasrv/application/workflow/workflow_queue.py:190-197 | whatever is configured, at least one worker and room for one job per worker; good settings are kept |
| `InlinePools.PoolStepKeepsInv` | services/infrasrv/application/workflow/workflow_queue.py:104-172 | every step, a closing loop included, conserves jobs and keeps the queue and worker bounds and the join counter |
| `InlinePools.PoolNeverStuck` | services/infrasrv/application/workflow/workflow_queue.py:104-126 | a pool with a living worker rests exactly when no job is left, one without exactly when no putter can go on |
| `InlinePools.PoolRunWorks` | services/infrasrv/application/workflow/workflow_queue.py:107-121 | without submissions a run has at most the measured number of steps, and exactly a cancelled ending costs a worker |
| `InlinePools.PoolDrainsExactlyWhen` | services/infrasrv/application/workflow/workflow_queue.py:107-121 | with up to k jobs ending cancelled, every run to rest leaves no job, if and only if k is below the number of living workers or there are no more jobs than workers |
| `InlinePools.AllWorkersLost` | services/infrasrv/application/workflow/workflow_queue.py:107-121 | otherwise a run in which each worker dies of a cancelled job and the rest of the jobs stay |
| `InlinePools.DrainedMeansEnded` | services/infrasrv/application/workflow/workflow_queue.py:107-121 | a pool is drained exactly when each submitted job has ended, raised or not, or was given up with its loop |
| `InlinePools.NoWorkerNoStart` | services/infrasrv/application/workflow/workflow_queue.py:128-134 | a pool without workers never begins a job again, whatever is submitted |
| `InlinePools.IdleMeansDone` | services/infrasrv/application/workflow/workflow_queue.py:174-181 | when the join counter is zero, everything has ended if and only if no putter waits and nothing was given up with a loop |
| `InlinePools.IdleTooEarly` | services/infrasrv/application/workflow/workflow_queue.py:174-181 | for every configuration, a run in which waiting for idle returns with a job still to come |
| `InlinePools.OrderKeptExactlyWhen` | services/infrasrv/application/workflow/workflow_queue.py:164-172 | for every pool and step, start order stays submission order if and only if no job enters the queue past a different waiting one and no waiting job is dropped |
| `InlinePools.FifoUnlessSpoilt` | services/infrasrv/application/workflow/workflow_queue.py:164-172 | so over runs without such a step jobs start in submission order |
| `InlinePools.WaitingIsOvertaken` | services/infrasrv/application/workflow/workflow_queue.py:164-172 | for every configuration, a run in which a later job is done while an earlier one still waits |
| `InlineExecutor.SystemRunKeepsInv` | services/infrasrv/application/workflow/workflow_queue.py:200-226 | over all loops, closing ones included, and configuration changes: one pool per loop and generation, each in order |
| `InlineExecutor.EveryJobAccountedFor` | services/infrasrv/application/workflow/workflow_queue.py:147-172 | over every run: each requested job was run directly or is in exactly one pool, waiting, queued, running, ended or given up with its loop; bounds hold everywhere |
| `InlineExecutor.SystemRestsExactlyWhen` | services/infrasrv/application/workflow/workflow_queue.py:104-126 | nothing can go on exactly when every pool rests |
| `InlineExecutor.SystemRunSplits` | services/infrasrv/application/workflow/workflow_queue.py:104-145 | what a run does in one place is a run of the pool there |
| `InlineExecutor.SystemDrains` | services/infrasrv/application/workflow/workflow_queue.py:200-226 | once requests stop, all pools drain, those of replaced executors included, if each meets the condition of a single pool |
| `InlineExecutor.ClosedLoopIsFoundAgain` | services/infrasrv/application/workflow/workflow_queue.py:128-134 | after a loop has closed, a request from a loop with the same identifier goes to the old queue, which has no workers |
| `InlineExecutor.DesertedForEver` | services/infrasrv/application/workflow/workflow_queue.py:128-145 | and over every run no job of that queue begins |
| `InlineQueues.InlineQueue.PutOrWait` | services/infrasrv/application/workflow/workflow_queue.py:164-172 | a submission enters the queue or becomes a waiting putter, as the step system says |
| `InlineQueues.InlineQueue.WorkerTakes` | services/infrasrv/application/workflow/workflow_queue.py:107-108 | taking a job is the get step |
| `InlineQueues.InlineQueue.WorkerEnds` | services/infrasrv/application/workflow/workflow_queue.py:109-121 | the job counts as done in any case, and the worker goes on unless it ended cancelled |
| `InlineQueues.InlineFallbackExecutor.EnsureQueue` | services/infrasrv/application/workflow/workflow_queue.py:128-145 | the loop's own queue, made when missing, no other pool touched |
| `InlineQueues.InlineFallbackExecutor.SubmitJob` | services/infrasrv/application/workflow/workflow_queue.py:147-172 | the job goes to the pool of the running loop and to no other; without a loop it runs on the spot |
| `InlineQueues.ExecutorCache.GetInlineExecutor` | services/infrasrv/application/workflow/workflow_queue.py:200-226 | the override if there is one, otherwise the same executor while the configuration reads the same, a new empty one when it changed |
| `Compose.DeepMerge` | core/compose_builder.py:135-145 | the key loop computes the merge, of well-formed trees a well-formed one |
| `ComposeHeap.DeepMergeNodes` | core/compose_builder.py:135-145 | over nodes in memory: the merge is built of new nodes only; neither input is written at any depth and the result shares no node with them |
| `ComposeHeap.LayAll` | core/compose_builder.py:137-144 | the loop over the override's entries, each assigned in place to the new document |
| `ComposeHeap.DeepCopy` | core/compose_builder.py:136 | an equal document of new nodes |
| `ComposeHeap.Node.Put` | core/compose_builder.py:139-144 | assignment to one key in place; nothing but this node is written |
| `Compose.MergeAt` | core/compose_builder.py:135-145 | the path law: at every path the override decides wherever it is defined and not a mapping over a mapping, otherwise the base |
| `Compose.MergeKeyOrder` | core/compose_builder.py:136-139 | the base's keys come first in the base's order; after them exactly the override's keys that the base lacks, in the override's order; none twice |
| `Compose.MergeWellFormed` | core/compose_builder.py:136-145 | no key is doubled or left without value, at any depth |
| `Compose.EmptyBelow` | core/compose_builder.py:136-145 | merging any document over the empty mapping gives that document |
| `Compose.EmptyAbove` | core/compose_builder.py:136-145 | merging the empty mapping over any document gives that document |
| `Compose.MergeIdempotent` | core/compose_builder.py:135-145 | merging a document with itself changes nothing |
| `Compose.OverlayOnce` | core/compose_builder.py:57-59 | merging the same overlay a second time changes nothing |
| `Compose.AbsorbedExactlyWhen` | core/compose_builder.py:135-145 | a document leaves no trace below another if and only if it is subsumed by it |
| `Compose.AssociativeExactlyWhen` | core/compose_builder.py:44-59 | both groupings of three layers agree, key order included, if and only if the layers are regroupable |
| `Compose.MappingsRegroup` | core/compose_builder.py:44-59 | layers are regroupable whenever the middle one keeps mappings where both others have one |
| `Compose.GroupingMatters` | core/compose_builder.py:141-144 | where the middle layer does not and the first has a key the third lacks, the groupings differ, at a named path |
| `Compose.OverlaidIsMerge` | core/compose_builder.py:137-144 | laying the entries one by one is the recursive merge, after every prefix |
| `ComposeBuild.NormalisedTwice` | core/compose_builder.py:61-122 | the passes are a fixed point on their own output |
| `ComposeBuild.NormalisedFrame` | core/compose_builder.py:61-122 | at every path of every document: only `version`, names of non-external networks, missing `pull_policy` of services with a build and existing CANCAN_VERSION arguments differ |
| `ComposeBuild.NetworkNameGone` | core/compose_builder.py:69-73 | the name of a network is gone unless its `external` is there and neither null, false, zero nor empty |
| `ComposeBuild.PolicyWritten` | core/compose_builder.py:77-81 | the policy of a service is `never` if it has a build and no policy entry, otherwise what it was |
| `ComposeBuild.ServiceVersionWritten` | core/compose_builder.py:107-122 | an existing version argument of a build is the default expression |
| `ComposeBuild.AnchorVersionWritten` | core/compose_builder.py:107-116 | and so is that of a build anchor |
| `ComposeBuild.NormalisedEntries` | core/compose_builder.py:61-122 | the passes together act on each top-level entry by itself, in order |
| `ComposeBuilder.Builder.Build` | core/compose_builder.py:43-87 | the built document is the normalised form of one in which, at every path, the last layer that says something has the last word; merging layer by layer and the passes one after another, in place |
| `ComposeBuilder.LayeredLastWins` | core/compose_builder.py:43-59 | at every path: a plain value of a layer stands, and a cut-off path is gone, if every later layer is silent there; where all layers are silent the base shows through |
| `ComposeBuilder.Builder.FreeNetworkNames` | core/compose_builder.py:69-73 | the loop over the networks is the pass |
| `ComposeBuilder.Builder.PreferLocalBuilds` | core/compose_builder.py:77-81 | the loop over the services is the pass |
| `ComposeBuilder.Builder.ApplyVersionDefault` | core/compose_builder.py:94-122 | the loops over anchors and services are the last two passes |
| `HostDaemon.StepKeepsInvExactlyWhen` | runtime/host_daemon.py:190-318 | every call and everything else that happens keeps a living daemon on record, except exactly a call that cannot read the identity it has to compare |
| `HostDaemon.OneDaemonAtATime` | runtime/host_daemon.py:206-262 | over every run of starts, stops, exits and pid reuse without such a call, at most one process ever created for the pidfile is alive |
| `HostDaemon.StartFindsTheLiveOne` | runtime/host_daemon.py:206-212 | a start with the daemon alive changes nothing and returns its pid |
| `HostDaemon.DoubledExactlyWhen` | runtime/host_daemon.py:112-117 | a start puts a second daemon beside a live one if and only if the identity is on record and cannot be read |
| `HostDaemon.StopEndsTheDaemon` | runtime/host_daemon.py:279-318 | after a stop that sees the daemon no daemon is alive, whether or not it obeys the first signal |
| `HostDaemon.StaleRecordGetsNoSignal` | runtime/host_daemon.py:290-297 | with a daemon's identity on record, a stop signals somebody if and only if that daemon lives and its identity can be read; if it is dead the record is removed and nothing else changes, whoever has its pid |
| `HostDaemon.RecordedMeansDaemon` | runtime/host_daemon.py:290-297 | the first signal goes to the recorded daemon itself, never to a later owner of the pid |
| `HostDaemon.SignalsExactlyWhen` | runtime/host_daemon.py:297-305 | signals reach daemons only, except exactly when a stop kills at the end of a wait during which its pid was given to another process |
| `HostDaemon.HandedExactlyWhenCreated` | runtime/host_daemon.py:297-305 | the owner of a pid has changed during a wait if and only if a process was created with it |
| `HostDaemon.OnlyDaemonsAreSignalled` | runtime/host_daemon.py:279-318 | over whole runs without that case no other process is signalled |
| `HostDaemon.TakenBetweenTwoLooks` | runtime/host_daemon.py:299-305 | the case occurs when exit and reuse fall between two looks at the pid, and not when a look comes between |
| `HostDaemon.RecordReadBack` | runtime/host_daemon.py:251-262 | a written record finds its process as long as that has the pid, and no other one once the identity is on record |
| `HostDaemon.HalfRecordNeverAlive` | runtime/host_daemon.py:159-170 | a record with only one identity field is never taken for alive |
| `HostDaemon.OldFormatRecord` | runtime/host_daemon.py:174-178 | a pidfile holding only a number is found running exactly when any process has that pid, and a stop signals that process |
| `HostDaemon.Helper.StartDaemon` | runtime/host_daemon.py:190-262 | the call, as a state change of pidfile and machine |
| `HostDaemon.Helper.StopDaemon` | runtime/host_daemon.py:265-318 | the call with its polling loop, whatever happens between two looks |
| `ServiceValidator.StripAppended` | services/controllersrv/domain/service_validator.py:169-170 | appending the suffix creates no match that straddles the joint |
| `ServiceValidator.StripPlain` | services/controllersrv/domain/service_validator.py:169 | a name without the suffix inside is not changed by stripping |
| `ServiceValidator.FullSharesCategory` | services/controllersrv/domain/service_validator.py:158-181 | a full form is always in the category of its base |
| `ServiceValidator.AliasesShareCategory` | services/controllersrv/domain/service_validator.py:158-181 | a name shares the category of its base if and only if it is not uncovered, in particular if its stripped form has no further suffix |
| `ServiceValidator.UncoveredName` | services/controllersrv/domain/service_validator.py:169-181 | a family of names for which it fails |
| `ServiceValidator.OperableIsBusiness` | services/controllersrv/domain/service_validator.py:201-217 | whatever is loaded, a name counted operable is a business name, and known |
| `ServiceValidator.NoAliasOperable` | services/controllersrv/domain/service_validator.py:201-217 | no reserved service, nor its base or full form, is operable |
| `ServiceValidator.OperableExactlyWhen` | services/controllersrv/domain/service_validator.py:183-217 | a covered name is operable if and only if it is known and business |
| `ServiceValidator.KeepSplits` | services/controllersrv/domain/service_validator.py:237-275 | the three lists are disjoint, keep the order and together are the input as a multiset |
| `ServiceValidator.KeepMember` | services/controllersrv/domain/service_validator.py:257-268 | each list has exactly the input's names with its verdict |
| `ServiceValidator.ValidMeans` | services/controllersrv/domain/service_validator.py:270-275 | both bad lists are empty if and only if every name is operable |
| `ServiceValidator.OperableNames` | services/controllersrv/domain/service_validator.py:270-275 | nothing in the valid list is reserved or an alias of a reserved service |
| `ServiceValidator.Validator.Classify` | services/controllersrv/domain/service_validator.py:78-87 | the loading loop puts exactly the business services among the operable ones and categorises all |
| `ServiceValidator.Validator.ValidateServiceNames` | services/controllersrv/domain/service_validator.py:237-275 | a name is unknown if and only if neither it, nor its stripped form, nor that with the suffix is loaded; operable if and only if one of those is loaded and a business service; not operable otherwise; a base and its full form always land in the same list; `valid` is true exactly when every name is operable |
| `Workflows.NormalisedTwice` | services/opsbffsrv/application/workflow_ops_app.py:388-416 | normalising keeps kind and successors in their order and is idempotent |
| `Workflows.SuccessorsComplete` | services/opsbffsrv/application/workflow_ops_app.py:404-415 | the successors are exactly those named by list or single field, the listed ones first |
| `Workflows.NormalisingKeepsVerdict` | services/opsbffsrv/application/workflow_ops_app.py:374-385 | a definition is sound after normalising if and only if it was before |
| `Workflows.NoIssueExactlyWhenSound` | services/opsbffsrv/application/workflow_ops_app.py:433-471 | no issue is reported if and only if the definition is sound, soundness being stated without the issue list |
| `Workflows.IssuesExactly` | services/opsbffsrv/application/workflow_ops_app.py:433-471 | each single issue is reported exactly when its fault is there; a dangling reference names its node and its missing target |
| `Workflows.ClosedExactlyWhenWalksStayInside` | services/opsbffsrv/application/workflow_ops_app.py:466-471 | the connection check passes if and only if every walk of any length from any node stays inside the node map |
| `Workflows.ReachesExactlyWhen` | services/opsbffsrv/application/workflow_ops_app.py:466-471 | with closed connections one node can be reached from another if and only if no set of nodes holds the first, not the second, and has no edge leading out |
| `Workflows.SoundWithoutReachingEnd` | services/opsbffsrv/application/workflow_ops_app.py:433-471 | a sound definition whose END cannot be reached from its START |
| `Workflows.StartToItself` | services/opsbffsrv/application/workflow_ops_app.py:433-471 | a definition whose start leads only to itself is sound, and its end is out of reach |
| `Workflows.NormalizeSingleNode` | services/opsbffsrv/application/workflow_ops_app.py:388-416 | the node loop computes the common shape |
| `Workflows.CheckConnections` | services/opsbffsrv/application/workflow_ops_app.py:466-471 | the nested loop reports every dangling reference, in order |
| `Workflows.ValidateWorkflow` | services/opsbffsrv/application/workflow_ops_app.py:418-481 | valid exactly for sound definitions, a failure exactly when an id cannot be lowered |

## Left out

- The TOTP attempt limit: each handler compares and increments one counter per token and shares no state with the parts modelled here.
- `remove_task` of the task queue: nothing calls it.
- YAML and JSON text, anchor sharing between parts of one YAML document, wall-clock formats, logging, HTTP, authentication and the web handlers.
- TaskQueues.TaskQueue.ListTasks: does not fix the order of tasks created at the same instant, because the enumeration order of the serial map is not modelled.
- TaskQueues.TaskQueue.Dequeue: assumes that a wait which times out does not lose the element it was about to return.
- TaskWorkers.TaskWorker.ExecuteTask: nothing else runs inside the method; interleavings are those of the step system.
- OperationsRuns.SettledForEver: speaks of the writers modelled here; a write through the internal update route can change any record.
- TaskWorkers.TaskWorker.RunCommand: is not cancelled from outside; what that does to its process is in Subprocesses. Output is text that has been decoded and stripped already.
- TaskWorkers.TaskWorker.ExecuteWithRetry: keeps the last error only; the full error summary and tracebacks are text.
- ControllerRuns.QueueDrains: an empty serial number, which the request schema refuses, is never released; such a task ends but its serial stays reserved.
- Hooks before and after a dispatch, action logs, deletion of old records, the expected-status follow-up and the registry clean-up after a polled success do not touch the protocol state.
- Agreement beyond the window: task state published after the tracker's ten-minute window is not reflected in the record, which is then TIMEOUT.
- InlineQueues.InlineQueue.WorkerTakes: which of the workers takes a job is not recorded, only how many are busy.
- InlineExecutor.ClosedLoopIsFoundAgain: that waiting for room in a queue bound to another loop raises is not modelled; such a putter waits, and its job does not run either way.
- Routing to Celery and the cache of the worker ping.
- HostDaemon.Helper.StartDaemon: the new process lives through the short wait or does not; nothing else happens during it. Two starts at the same time are not modelled, nor are negative pids, which signal process groups, nor processes of other users, which count as absent.
- HostDaemon.Helper.StopDaemon: the look at the identity and the first signal are one step, and a killed process is gone at once.
- ServiceValidator.Validator.Classify: the service set is given; obtaining it from the executor or from the file is not modelled.
- Workflows.NormalizeSingleNode: letters outside ASCII are not changed by the case conversions; fields that validation does not read are left out.
- Workflow orchestration (joins, loops, scheduling), whose code is not part of this model.
- ComposeHeap.DeepCopy: lists are values and not copied node by node; nodes shared within one input are copied once for each place.
- TaskWorkers.RunMeans: the message for an operation without a command is shortened; other than its wording nothing depends on it.
- OperationsRecords.PolledFields: the result of a task, which is written along with its error, is not a field of the model's records.
