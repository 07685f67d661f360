/** Runs of the service-operation protocol from its beginning, and what they show to be reachable. */
module OperationsExamples {
  import opened Wrappers
  import opened Whitespace
  import opened Tasks
  import opened Controller
  import Runs = ControllerRuns
  import opened Operations
  import opened OperationsSafety
  import opened OperationsRuns
  import opened OperationsReach
  import opened OperationsFinal

  // ---- One request, its task accepted and executed ---------------------------------------------------

  /** One request, about to make its first call. */
  function Dispatching(now: int, op: OpId): World {
    Beginning(now).(records := map[op := Record(Pending, None, None, now, 0, None)],
                    handlers := map[0 := Handler(op, Calling(1, now))])
  }

  lemma CanDispatch(l: Losses, now: int, op: OpId)
    requires op != ""
    ensures Leads(l, Beginning(now), Dispatching(now, op))
  {
    var w0 := Beginning(now);
    LeadsNowhere(l, w0);
    LeadsOn(l, w0, w0, Arrive(0, op));
    var w1 := Do(w0, Arrive(0, op));
    LeadsOn(l, w0, w1, Check(0));
    var w2 := Do(w1, Check(0));
    LeadsOn(l, w0, w2, Create(0));
    assert Do(w2, Create(0)) == Dispatching(now, op);
  }

  /** The same request after its first call has been accepted and before the answer arrives. */
  function Answered(now: int, op: OpId): World
    requires Strip(op) != ""
  {
    Dispatching(now, op).(ctl := Apply(Initial<nat>(now), Submit(0, FreshTask(Strip(op), now))),
                          handlers := map[0 := Handler(op, Waiting(1, now))],
                          sent := {Call(0, 1)}, answers := map[Call(0, 1) := Accepted])
  }

  lemma CanBeAnswered(l: Losses, now: int, op: OpId)
    requires Strip(op) != ""
    ensures Leads(l, Beginning(now), Answered(now, op))
  {
    assert op != "";
    CanDispatch(l, now, op);
    var w0, w := Beginning(now), Dispatching(now, op);
    LeadsOn(l, w0, w, Send(0));
    var w1 := Do(w, Send(0));
    LeadsOn(l, w0, w1, Deliver(Call(0, 1), 0, FreshTask(Strip(op), now)));
    assert Do(w1, Deliver(Call(0, 1), 0, FreshTask(Strip(op), now))) == Answered(now, op);
  }

  /** The only task there is, with this serial, is queued. */
  ghost predicate Queued(c: State<nat>, serial: Serial) {
    && !c.running && c.phase.Idle? && c.accepted == [0] && c.stranded == {} && c.taken == []
    && c.q.heap.Keys == {0} && c.q.heap[0] == FreshTask(serial, c.clock)
    && c.q.tasks == map[serial := 0] && c.q.active == {serial} && c.q.queue == [0]
  }

  /** ... is being executed. */
  ghost predicate Taken(c: State<nat>, serial: Serial) {
    && c.phase == Executing(0, 0) && c.accepted == [0]
    && c.q.heap.Keys == {0} && c.q.heap[0].serial == serial
    && c.q.tasks == map[serial := 0] && c.q.active == {serial} && c.q.queue == []
  }

  /** ... has succeeded and is released. */
  ghost predicate Completed(c: State<nat>, serial: Serial) {
    && c.accepted == [0] && c.q.heap.Keys == {0} && c.q.heap[0].serial == serial && c.q.heap[0].status == Success
    && c.q.tasks == map[serial := 0] && c.q.active == {} && c.q.queue == [] && c.phase.Idle?
  }

  lemma AnsweredIsQueued(now: int, op: OpId)
    requires Strip(op) != ""
    ensures Queued(Answered(now, op).ctl, Strip(op)) && Answered(now, op).ctl.clock == now
  {
  }

  lemma CanBeTaken(l: Losses, w0: World, w: World, serial: Serial) returns (v: World)
    requires Leads(l, w0, w) && Queued(w.ctl, serial) && serial != ""
    ensures Leads(l, w0, v) && v == w.(ctl := v.ctl) && v.ctl.clock == w.ctl.clock && Taken(v.ctl, serial)
  {
    LeadsInside(l, w0, w, StartWorker);
    var w1 := w.(ctl := Apply(w.ctl, StartWorker));
    LeadsInside(l, w0, w1, Take);
    var w2 := w1.(ctl := Apply(w1.ctl, Take));
    LeadsInside(l, w0, w2, MarkRunning);
    var w3 := w2.(ctl := Apply(w2.ctl, MarkRunning));
    LeadsInside(l, w0, w3, PublishRunning);
    v := w3.(ctl := Apply(w3.ctl, PublishRunning));
  }

  lemma CanBeCompleted(l: Losses, w0: World, w: World, serial: Serial) returns (v: World)
    requires Leads(l, w0, w) && Taken(w.ctl, serial) && serial != ""
    ensures Leads(l, w0, v) && v == w.(ctl := v.ctl) && v.ctl.clock == w.ctl.clock && Completed(v.ctl, serial)
  {
    var outcome := Succeeded(map[]);
    LeadsInside(l, w0, w, Finish(outcome));
    var w1 := w.(ctl := Apply(w.ctl, Finish(outcome)));
    LeadsInside(l, w0, w1, Release);
    v := w1.(ctl := Apply(w1.ctl, Release));
  }

  lemma CanSucceed(l: Losses, w0: World, w: World, serial: Serial) returns (v: World)
    requires Leads(l, w0, w) && Queued(w.ctl, serial) && serial != ""
    ensures Leads(l, w0, v) && v == w.(ctl := v.ctl) && v.ctl.clock == w.ctl.clock && Completed(v.ctl, serial)
  {
    var w1 := CanBeTaken(l, w0, w, serial);
    v := CanBeCompleted(l, w0, w1, serial);
  }

  // ---- The tracker reports it ------------------------------------------------------------------------

  /** The tracker selects the record, polls the task and writes what it found. */
  lemma CanBeReported(l: Losses, w0: World, w: World, op: OpId) returns (v: World)
    requires Leads(l, w0, w) && Completed(w.ctl, op) && w.tracker.Resting?
    requires op in w.records && w.records[op].Active() && w.records[op].createdAt >= w.ctl.clock - WINDOW_SECONDS
    ensures Leads(l, w0, v) && v.ctl == w.ctl && v.handlers == w.handlers && Says(v, op, Success)
  {
    var batch := [op];
    assert Selects(w, batch, true);
    LeadsOn(l, w0, w, SelectActive(batch));
    var w1 := w.(tracker := Polling(batch));
    assert Do(w, SelectActive(batch)) == w1;
    LeadsOn(l, w0, w1, Poll);
    var w2 := w.(tracker := Fetched(op, w.ctl.q.heap[0], []));
    assert batch[1..] == [] && Do(w1, Poll) == w2;
    LeadsOn(l, w0, w2, WritePolled);
    v := Do(w2, WritePolled);
  }

  lemma SuccessReachable(l: Losses, now: int, op: OpId) returns (v: World)
    requires op != "" && Strip(op) == op
    ensures Leads(l, Beginning(now), v) && Says(v, op, Success)
  {
    var w0 := Beginning(now);
    CanBeAnswered(l, now, op);
    AnsweredIsQueued(now, op);
    var w1 := CanSucceed(l, w0, Answered(now, op), op);
    v := CanBeReported(l, w0, w1, op);
  }

  /** An operation without a name is neither recorded nor dispatched. */
  ghost predicate Named(w: World) {
    "" !in w.records && forall r | r in w.handlers && w.handlers[r].op == "" :: w.handlers[r].pc.Done?
  }

  lemma MoveKeepsNamed(w: World, m: Move)
    requires Named(w) && Can(w, m)
    ensures Named(Do(w, m))
  {
    RecordsGrow(w, m);
    forall r | r in Do(w, m).handlers && Do(w, m).handlers[r].op == "" ensures Do(w, m).handlers[r].pc.Done? {
      if RequestOf(m) != Some(r) {
        HandlersGrow(w, m, r);
        OthersStaySame(w, m, r);
      }
    }
  }

  lemma RecordsGrow(w: World, m: Move)
    requires Can(w, m)
    ensures forall op | op in Do(w, m).records :: op in w.records || (m.Create? && op == w.handlers[m.r].op)
    ensures forall op | op in w.records :: op in Do(w, m).records && Do(w, m).records[op].createdAt == w.records[op].createdAt
  {
    if m.Create? {
      CreateGrows(w, m.r);
    } else if m.WriteResult? || m.WritePolled? || m.WriteStale? {
      WriteGrows(w, m);
    } else {
      QuietRecords(w, m);
    }
  }

  lemma WriteGrows(w: World, m: Move)
    requires Can(w, m) && (m.WriteResult? || m.WritePolled? || m.WriteStale?)
    ensures Do(w, m).records.Keys == w.records.Keys
    ensures forall op | op in w.records :: Do(w, m).records[op].createdAt == w.records[op].createdAt
  {
  }

  lemma CreateGrows(w: World, r: Request)
    requires Can(w, Create(r))
    ensures forall op | op in Do(w, Create(r)).records :: op in w.records || op == w.handlers[r].op
    ensures forall op | op in w.records :: op in Do(w, Create(r)).records && Do(w, Create(r)).records[op] == w.records[op]
  {
  }

  lemma {:induction false} RunKeepsNamed(w: World, run: seq<Move>)
    requires Named(w) && Feasible(w, run)
    ensures Named(Reached(w, run))
    decreases |run|
  {
    if run != [] {
      MoveKeepsNamed(w, run[0]);
      RunKeepsNamed(Do(w, run[0]), run[1..]);
    }
  }

  /** An operation can come to be recorded as a success exactly when its id is not empty and has no
      white space around it. */
  lemma SuccessReachableExactlyWhen(l: Losses, now: int, op: OpId)
    ensures (exists v :: Leads(l, Beginning(now), v) && Says(v, op, Success)) <==> op != "" && Strip(op) == op
  {
    if op != "" && Strip(op) == op {
      var v := SuccessReachable(l, now, op);
    }
    if v :| Leads(l, Beginning(now), v) && Says(v, op, Success) {
      var run :| Feasible(Beginning(now), run) && Within(l, run) && Reached(Beginning(now), run) == v;
      RunKeepsNamed(Beginning(now), run);
      if Strip(op) != op { PaddedIdNeverSucceeds(now, run, op); }
    }
  }

  // ---- A padded operation id ---------------------------------------------------------------------------

  lemma CanBeAccepted(l: Losses, w0: World, w: World, r: Request) returns (v: World)
    requires Leads(l, w0, w) && r in w.handlers && w.handlers[r].pc.Waiting? && w.handlers[r].op in w.records
    requires Call(r, w.handlers[r].pc.attempt) in w.answers && w.answers[Call(r, w.handlers[r].pc.attempt)] == Accepted
    ensures Leads(l, w0, v) && v.ctl == w.ctl && v.tracker == w.tracker && v.answers == w.answers && Says(v, w.handlers[r].op, Running)
    ensures v.records[w.handlers[r].op].createdAt == w.records[w.handlers[r].op].createdAt
    ensures v.handlers == w.handlers[r := Handler(w.handlers[r].op, Done)]
  {
    LeadsOn(l, w0, w, GetReply(r));
    var w1 := Do(w, GetReply(r));
    LeadsOn(l, w0, w1, WriteResult(r));
    v := Do(w1, WriteResult(r));
    assert v.handlers == w.handlers[r := Handler(w.handlers[r].op, Done)];
  }

  lemma CanFail(l: Losses, w0: World, w: World, r: Request) returns (v: World)
    requires l.failures && Leads(l, w0, w) && r in w.handlers && w.handlers[r].pc.Waiting? && w.handlers[r].op in w.records
    ensures Leads(l, w0, v) && v.ctl == w.ctl && v.tracker == w.tracker && Says(v, w.handlers[r].op, Failed)
    ensures v.handlers == w.handlers[r := Handler(w.handlers[r].op, Done)]
  {
    LeadsOn(l, w0, w, GetFailureReply(r));
    var w1 := Do(w, GetFailureReply(r));
    LeadsOn(l, w0, w1, WriteResult(r));
    v := Do(w1, WriteResult(r));
    assert v.handlers == w.handlers[r := Handler(w.handlers[r].op, Done)];
  }

  lemma CanExpire(l: Losses, w0: World, w: World, op: OpId) returns (v: World)
    requires Leads(l, w0, w) && w.ctl.phase.Idle? && w.tracker.Resting?
    requires op in w.records && w.records[op].Active() && w.records[op].createdAt <= w.ctl.clock
    ensures Leads(l, w0, v) && v.ctl.q == w.ctl.q && v.handlers == w.handlers && Says(v, op, Timeout) && !v.tracker.Busy(op)
  {
    var later := w.ctl.clock + WINDOW_SECONDS + 1;
    LeadsInside(l, w0, w, Tick(later));
    var w1 := w.(ctl := Apply(w.ctl, Tick(later)));
    LeadsOn(l, w0, w1, SelectActive([]));
    var w2 := w1.(tracker := Polling([]));
    assert Do(w1, SelectActive([])) == w2;
    v := CanBeExpiredNow(l, w0, w2, op);
  }

  lemma CanBeExpiredNow(l: Losses, w0: World, w: World, op: OpId) returns (v: World)
    requires Leads(l, w0, w) && w.tracker == Polling([])
    requires op in w.records && w.records[op].Active() && w.records[op].createdAt < w.ctl.clock - WINDOW_SECONDS
    ensures Leads(l, w0, v) && v.ctl == w.ctl && v.handlers == w.handlers && Says(v, op, Timeout) && !v.tracker.Busy(op)
  {
    var batch := [op];
    assert Selects(w, batch, false);
    LeadsOn(l, w0, w, SelectStale(batch));
    var w1 := w.(tracker := Expiring(batch, w.ctl.clock));
    assert Do(w, SelectStale(batch)) == w1;
    v := StaleIsWritten(l, w0, w1, op);
  }

  lemma StaleIsWritten(l: Losses, w0: World, w: World, op: OpId) returns (v: World)
    requires Leads(l, w0, w) && w.tracker.Expiring? && w.tracker.todo == [op] && op in w.records
    ensures Leads(l, w0, v) && v.ctl == w.ctl && v.handlers == w.handlers && Says(v, op, Timeout) && !v.tracker.Busy(op)
  {
    LeadsOn(l, w0, w, WriteStale);
    v := Do(w, WriteStale);
  }

  /** Its task is accepted under the stripped id and succeeds, and the record says TIMEOUT for good. */
  lemma PaddedTaskTimesOut(l: Losses, now: int, op: OpId) returns (v: World)
    requires Strip(op) != "" && Strip(op) != op
    ensures Leads(l, Beginning(now), v) && EverEnded(v.ctl, Strip(op), Success)
    ensures Kept(l, v, op, Timeout)
  {
    var w0 := Beginning(now);
    CanBeAnswered(l, now, op);
    AnsweredIsQueued(now, op);
    var w1 := CanSucceed(l, w0, Answered(now, op), Strip(op));
    var w2 := CanBeAccepted(l, w0, w1, 0);
    v := CanExpire(l, w0, w2, op);
    assert 0 in v.ctl.q.heap && v.ctl.q.heap[0].status == Success;
    assert v.handlers == map[0 := Handler(op, Done)];
  }

  // ---- A late verdict ------------------------------------------------------------------------------------

  /** The tracker records the success while the dispatcher, told of the acceptance, has not written
      it yet; when it does, the finished record is RUNNING again, with its end time. */
  lemma LateVerdictReopens(l: Losses, now: int, op: OpId) returns (u: World, v: World)
    requires op != "" && Strip(op) == op
    ensures Leads(l, Beginning(now), u) && Says(u, op, Success)
    ensures Can(u, WriteResult(0)) && v == Do(u, WriteResult(0))
    ensures Leads(l, Beginning(now), v) && Says(v, op, Running) && v.records[op].completedAt.Some?
  {
    var w0 := Beginning(now);
    CanBeAnswered(l, now, op);
    AnsweredIsQueued(now, op);
    var w1 := CanSucceed(l, w0, Answered(now, op), op);
    LeadsOn(l, w0, w1, GetReply(0));
    var w2 := Do(w1, GetReply(0));
    u := CanBeReported(l, w0, w2, op);
    LeadsOn(l, w0, u, WriteResult(0));
    v := Do(u, WriteResult(0));
    BeginningInv(now);
    LeadsKeepsInv(l, w0, u);
    assert RecordTruthful(u, op, u.records[op]);
  }

  // ---- Lost replies -----------------------------------------------------------------------------------------

  /** A lost reply is enough: the task succeeds, and its record says FAILED for good. */
  lemma FailedRecordOfSuccessfulTask(l: Losses, now: int, op: OpId) returns (v: World)
    requires l.failures && op != "" && Strip(op) == op
    ensures Leads(l, Beginning(now), v) && EverEnded(v.ctl, op, Success)
    ensures Kept(l, v, op, Failed)
  {
    var w0 := Beginning(now);
    CanBeAnswered(l, now, op);
    AnsweredIsQueued(now, op);
    var w1 := CanSucceed(l, w0, Answered(now, op), op);
    v := CanFail(l, w0, w1, 0);
    assert v.handlers == map[0 := Handler(op, Done)];
    assert 0 in v.ctl.q.heap && v.ctl.q.heap[0].status == Success;
  }

  /** And a retry after a lost reply can execute one request twice: the second call is accepted,
      as a new task, once the first task is over. */
  lemma OneRequestTwoExecutions(l: Losses, now: int, op: OpId) returns (v: World)
    requires l.exceptions && op != "" && Strip(op) == op
    ensures Leads(l, Beginning(now), v)
    ensures v.handlers.Keys == {0} && v.ctl.accepted == [0, 1]
    ensures 0 in v.ctl.q.heap && v.ctl.q.heap[0].serial == op && v.ctl.q.heap[0].status == Success
    ensures 1 in v.ctl.q.heap && v.ctl.q.heap[1].serial == op && v.ctl.q.heap[1].status == Pending
  {
    var w0 := Beginning(now);
    CanBeAnswered(l, now, op);
    AnsweredIsQueued(now, op);
    var w1 := CanSucceed(l, w0, Answered(now, op), op);
    LeadsOn(l, w0, w1, GetException(0));
    var w2 := Do(w1, GetException(0));
    LeadsOn(l, w0, w2, Send(0));
    var w3 := Do(w2, Send(0));
    var second := Deliver(Call(0, 2), 1, FreshTask(op, now));
    LeadsOn(l, w0, w3, second);
    v := Do(w3, second);
  }

  // ---- Two requests for one operation ---------------------------------------------------------------------

  /** Two requests, both past their check before either has called. */
  function BothDispatching(now: int, op: OpId): World {
    Dispatching(now, op).(handlers := map[0 := Handler(op, Calling(1, now)), 1 := Handler(op, Calling(1, now))])
  }

  lemma BothCanDispatch(l: Losses, now: int, op: OpId)
    requires op != ""
    ensures Leads(l, Beginning(now), BothDispatching(now, op))
  {
    var w0, w := Beginning(now), Dispatching(now, op);
    CanDispatch(l, now, op);
    LeadsOn(l, w0, w, Arrive(1, op));
    var w1 := Do(w, Arrive(1, op));
    LeadsOn(l, w0, w1, Check(1));
    assert Do(w1, Check(1)) == BothDispatching(now, op);
  }

  /** With every reply delivered: the first request is accepted and says RUNNING, the second one is
      refused as a duplicate and overwrites that with FAILED while the task is live; nothing will
      correct it. */
  lemma DuplicateFailsLiveOperation(l: Losses, now: int, op: OpId) returns (v: World)
    requires op != "" && Strip(op) == op
    ensures Leads(l, Beginning(now), v) && Kept(l, v, op, Failed)
    ensures exists id :: id in v.ctl.q.heap && v.ctl.q.heap[id].serial == op && Runs.Live(v.ctl, id)
  {
    var w0, w := Beginning(now), BothDispatching(now, op);
    BothCanDispatch(l, now, op);
    LeadsOn(l, w0, w, Send(0));
    var w1 := Do(w, Send(0));
    var first := Deliver(Call(0, 1), 0, FreshTask(op, now));
    LeadsOn(l, w0, w1, first);
    var w2 := Do(w1, first);
    LeadsOn(l, w0, w2, Send(1));
    var w3 := Do(w2, Send(1));
    var second := Deliver(Call(1, 1), 1, FreshTask(op, now));
    LeadsOn(l, w0, w3, second);
    var w4 := Do(w3, second);
    v := BothAnswered(l, w0, w4, op);
  }

  lemma BothAnswered(l: Losses, w0: World, w: World, op: OpId) returns (v: World)
    requires Leads(l, w0, w) && w.tracker.Resting? && op in w.records && w.handlers.Keys == {0, 1}
    requires w.handlers[0].op == op && w.handlers[1].op == op
    requires w.handlers[0].pc.Waiting? && w.handlers[0].pc.attempt == 1 && w.handlers[1].pc.Waiting? && w.handlers[1].pc.attempt == 1
    requires Call(0, 1) in w.answers && w.answers[Call(0, 1)] == Accepted
    requires Call(1, 1) in w.answers && w.answers[Call(1, 1)] == DuplicateSerial
    requires 0 in w.ctl.q.heap && w.ctl.q.heap[0].serial == op && Runs.Live(w.ctl, 0)
    ensures Leads(l, w0, v) && Kept(l, v, op, Failed)
    ensures exists id :: id in v.ctl.q.heap && v.ctl.q.heap[id].serial == op && Runs.Live(v.ctl, id)
  {
    var w1 := CanBeAccepted(l, w0, w, 0);
    LeadsOn(l, w0, w1, GetReply(1));
    var w2 := Do(w1, GetReply(1));
    LeadsOn(l, w0, w2, WriteResult(1));
    v := Do(w2, WriteResult(1));
  }

  // ---- Selected twice in one cycle ---------------------------------------------------------------------------

  lemma {:induction false} RunKeepsCreatedAt(w: World, run: seq<Move>, op: OpId)
    requires Feasible(w, run) && op in w.records
    ensures op in Reached(w, run).records && Reached(w, run).records[op].createdAt == w.records[op].createdAt
    decreases |run|
  {
    if run != [] {
      RecordsGrow(w, run[0]);
      RunKeepsCreatedAt(Do(w, run[0]), run[1..], op);
    }
  }

  ghost predicate CanBePolled(w: World, op: OpId) {
    exists batch :: op in batch && Can(w, SelectActive(batch))
  }

  ghost predicate CanBeExpired(w: World, op: OpId) {
    exists batch :: op in batch && Can(w, SelectStale(batch))
  }

  lemma SelectableMeans(w: World, op: OpId)
    ensures CanBePolled(w, op) <==>
      w.tracker.Resting? && op in w.records && w.records[op].Active() && w.records[op].createdAt >= w.ctl.clock - WINDOW_SECONDS
    ensures CanBeExpired(w, op) <==>
      w.tracker == Polling([]) && op in w.records && w.records[op].Active() && w.records[op].createdAt < w.ctl.clock - WINDOW_SECONDS
  {
    var batch := [op];
    assert op in batch && forall o | o in batch :: o == op;
    assert w.tracker.Resting? && Selects(w, batch, true) ==> Can(w, SelectActive(batch));
    assert w.tracker == Polling([]) && Selects(w, batch, false) ==> Can(w, SelectStale(batch));
  }

  /** The two selections of one cycle overlap in exactly the records, active both times, whose window
      runs out between the first selection and the second: each query reads the clock anew. */
  lemma SelectedTwiceExactlyWhen(l: Losses, w: World, v: World, op: OpId)
    requires Leads(l, w, v) && w.tracker.Resting? && v.tracker == Polling([]) && op in w.records
    ensures op in v.records
    ensures CanBePolled(w, op) && CanBeExpired(v, op) <==>
            && w.records[op].Active() && v.records[op].Active()
            && w.ctl.clock <= w.records[op].createdAt + WINDOW_SECONDS < v.ctl.clock
  {
    var run :| Feasible(w, run) && Within(l, run) && Reached(w, run) == v;
    RunKeepsCreatedAt(w, run, op);
    SelectableMeans(w, op);
    SelectableMeans(v, op);
  }

  /** It happens: a poll without an answer, just before the window ends, and the record is expired in
      the same cycle. */
  lemma SelectedTwice(l: Losses, now: int, op: OpId) returns (w: World, v: World)
    requires op != ""
    ensures Leads(l, Beginning(now), w) && CanBePolled(w, op)
    ensures Can(w, SelectActive([op])) && Leads(l, Do(w, SelectActive([op])), v) && CanBeExpired(v, op)
  {
    var w0, d := Beginning(now), Dispatching(now, op);
    CanDispatch(l, now, op);
    LeadsInside(l, w0, d, Tick(now + WINDOW_SECONDS));
    w := d.(ctl := Apply(d.ctl, Tick(now + WINDOW_SECONDS)));
    SelectableMeans(w, op);
    assert Selects(w, [op], true);
    var w1 := w.(tracker := Polling([op]));
    assert Do(w, SelectActive([op])) == w1;
    v := PollFailsThenTick(l, w1, op);
    SelectableMeans(v, op);
  }

  lemma PollFailsThenTick(l: Losses, w: World, op: OpId) returns (v: World)
    requires w.tracker == Polling([op]) && w.ctl.phase.Idle?
    ensures Leads(l, w, v) && v == w.(tracker := Polling([]), ctl := w.ctl.(clock := w.ctl.clock + 1))
  {
    LeadsNowhere(l, w);
    LeadsOn(l, w, w, PollFails);
    var w1 := w.(tracker := Polling([]));
    assert w.tracker.todo[1..] == [] && Do(w, PollFails) == w1;
    LeadsInside(l, w, w1, Tick(w.ctl.clock + 1));
    v := w1.(ctl := Apply(w1.ctl, Tick(w.ctl.clock + 1)));
  }
}
