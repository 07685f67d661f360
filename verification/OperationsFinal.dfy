/** When a terminal record is final. */
module OperationsFinal {
  import opened Wrappers
  import opened Sequences
  import opened Whitespace
  import opened Tasks
  import opened Controller
  import Runs = ControllerRuns
  import opened Operations
  import opened OperationsSafety
  import opened OperationsRuns
  import opened OperationsReach

  // ---- What a request in flight can still do --------------------------------------------------------

  /** Sooner or later controllersrv could accept a task of the operation. */
  ghost predicate Acceptable(c: State<nat>, op: OpId) {
    Strip(op) != "" && !TakenForGood(c, Strip(op))
  }

  predicate Lossy(l: Losses) {
    l.failures || l.exceptions
  }

  /** The request could still come to write RUNNING. */
  ghost predicate MayBeAccepted(l: Losses, w: World, r: Request) {
    && r in w.handlers
    && var op := w.handlers[r].op;
       match w.handlers[r].pc
       case Checking => false
       case Creating => Acceptable(w.ctl, op)
       case Calling(_, _) => Acceptable(w.ctl, op)
       case Waiting(n, _) =>
         if Call(r, n) in w.answers
         then w.answers[Call(r, n)] == Accepted || (l.exceptions && n < DISPATCH_RETRIES && Acceptable(w.ctl, op))
         else Acceptable(w.ctl, op)
       case Writing(accepted, _, _) => accepted
       case Done => false
  }

  /** The request could still come to write any verdict. A call with a blank serial is never queued,
      and not answered either unless something is lost. */
  predicate MayWrite(l: Losses, w: World, r: Request) {
    && r in w.handlers
    && match w.handlers[r].pc
       case Checking => false
       case Creating => Lossy(l) || Strip(w.handlers[r].op) != ""
       case Calling(_, _) => Lossy(l) || Strip(w.handlers[r].op) != ""
       case Waiting(n, _) => Lossy(l) || Strip(w.handlers[r].op) != "" || Call(r, n) in w.answers
       case Writing(_, _, _) => true
       case Done => false
  }

  ghost predicate Says(w: World, op: OpId, st: OperationStatus) {
    op in w.records && w.records[op].status == st
  }

  /** The request writes the verdict it has. */
  lemma VerdictWritten(l: Losses, w0: World, w: World, r: Request) returns (v: World)
    requires Leads(l, w0, w) && Tidy(w) && r in w.handlers && w.handlers[r].pc.Writing?
    ensures Leads(l, w0, v) && Says(v, w.handlers[r].op, if w.handlers[r].pc.accepted then Running else Failed)
    ensures var rec, pc := v.records[w.handlers[r].op], w.handlers[r].pc;
            rec.startedAt == Some(pc.startedAt) && (!pc.accepted ==> rec.completedAt == Some(pc.completedAt))
  {
    assert HandlerSound(w, r, w.handlers[r]);
    LeadsOn(l, w0, w, WriteResult(r));
    v := Do(w, WriteResult(r));
  }

  /** The answer arrives and is written. */
  lemma AnswerWritten(l: Losses, w0: World, w: World, r: Request) returns (v: World)
    requires WorldInv(w0) && Leads(l, w0, w) && r in w.handlers && w.handlers[r].pc.Waiting?
    requires Call(r, w.handlers[r].pc.attempt) in w.answers
    ensures Leads(l, w0, v)
    ensures Says(v, w.handlers[r].op, if w.answers[Call(r, w.handlers[r].pc.attempt)] == Accepted then Running else Failed)
    ensures w.answers[Call(r, w.handlers[r].pc.attempt)] != Accepted ==> v.records[w.handlers[r].op].completedAt == Some(w.ctl.clock)
  {
    LeadsOn(l, w0, w, GetReply(r));
    var w1 := Do(w, GetReply(r));
    LeadsKeepsInv(l, w0, w1);
    v := VerdictWritten(l, w0, w1, r);
  }

  /** A call that is under way can be answered with an acceptance. */
  lemma CallCanBeAccepted(l: Losses, w0: World, w: World, r: Request) returns (v: World)
    requires WorldInv(w0) && Leads(l, w0, w) && r in w.handlers && w.handlers[r].pc.Waiting?
    requires Call(r, w.handlers[r].pc.attempt) in w.sent && Call(r, w.handlers[r].pc.attempt) !in w.answers
    requires Acceptable(w.ctl, w.handlers[r].op)
    ensures Leads(l, w0, v) && Says(v, w.handlers[r].op, Running)
  {
    LeadsKeepsInv(l, w0, w);
    var w1 := SerialCanBeFreed(l, w0, w, Strip(w.handlers[r].op));
    var w2, id := CanBeDelivered(l, w0, w1, Call(r, w.handlers[r].pc.attempt));
    v := AnswerWritten(l, w0, w2, r);
  }

  /** A request about to call can be accepted: its next call has not been answered yet. */
  lemma NextCallCanBeAccepted(l: Losses, w0: World, w: World, r: Request) returns (v: World)
    requires WorldInv(w0) && Leads(l, w0, w) && r in w.handlers && w.handlers[r].pc.Calling? && CallsCounted(w, r)
    requires Acceptable(w.ctl, w.handlers[r].op)
    ensures Leads(l, w0, v) && Says(v, w.handlers[r].op, Running)
  {
    LeadsKeepsInv(l, w0, w);
    assert Call(r, w.handlers[r].pc.attempt) !in w.sent;
    LeadsOn(l, w0, w, Send(r));
    v := CallCanBeAccepted(l, w0, Do(w, Send(r)), r);
  }

  lemma RetryCanBeAccepted(l: Losses, w0: World, w: World, r: Request) returns (v: World)
    requires WorldInv(w0) && Leads(l, w0, w) && l.exceptions
    requires r in w.handlers && w.handlers[r].pc.Waiting? && CallsCounted(w, r)
    requires w.handlers[r].pc.attempt < DISPATCH_RETRIES && Acceptable(w.ctl, w.handlers[r].op)
    ensures Leads(l, w0, v) && Says(v, w.handlers[r].op, Running)
  {
    LeadsOn(l, w0, w, GetException(r));
    v := NextCallCanBeAccepted(l, w0, Do(w, GetException(r)), r);
  }

  /** Whoever may be accepted can come to write RUNNING. */
  lemma CanComeToRunning(l: Losses, w0: World, w: World, r: Request) returns (v: World)
    requires WorldInv(w0) && Leads(l, w0, w) && MayBeAccepted(l, w, r) && CallsCounted(w, r)
    ensures Leads(l, w0, v) && Says(v, w.handlers[r].op, Running)
  {
    match w.handlers[r].pc
    case Creating =>
      LeadsOn(l, w0, w, Create(r));
      v := NextCallCanBeAccepted(l, w0, Do(w, Create(r)), r);
    case Calling(_, _) => v := NextCallCanBeAccepted(l, w0, w, r);
    case Waiting(n, _) =>
      if Call(r, n) !in w.answers {
        v := CallCanBeAccepted(l, w0, w, r);
      } else if w.answers[Call(r, n)] == Accepted {
        v := AnswerWritten(l, w0, w, r);
      } else {
        v := RetryCanBeAccepted(l, w0, w, r);
      }
    case Writing(_, _, _) =>
      LeadsKeepsInv(l, w0, w);
      v := VerdictWritten(l, w0, w, r);
  }

  /** The record says RUNNING, or FAILED with an end after this time. */
  ghost predicate Reopened(w: World, op: OpId, time: int) {
    Says(w, op, Running) || (Says(w, op, Failed) && w.records[op].completedAt.Some? && w.records[op].completedAt.value > time)
  }

  /** Whoever may write and has not got its verdict yet can come to write one. */
  lemma CanComeToWrite(l: Losses, w0: World, w: World, r: Request, time: int) returns (v: World)
    requires WorldInv(w0) && Leads(l, w0, w) && MayWrite(l, w, r) && CallsCounted(w, r)
    requires !w.handlers[r].pc.Writing? && w.ctl.clock > time
    ensures Leads(l, w0, v) && Reopened(v, w.handlers[r].op, time)
  {
    match w.handlers[r].pc
    case Creating =>
      LeadsOn(l, w0, w, Create(r));
      v := CallCanBeWritten(l, w0, Do(w, Create(r)), r, time);
    case Calling(_, _) => v := CallCanBeWritten(l, w0, w, r, time);
    case Waiting(_, _) => v := ReplyCanBeWritten(l, w0, w, r, time);
  }

  lemma CallCanBeWritten(l: Losses, w0: World, w: World, r: Request, time: int) returns (v: World)
    requires WorldInv(w0) && Leads(l, w0, w) && r in w.handlers && w.handlers[r].pc.Calling? && MayWrite(l, w, r)
    requires CallsCounted(w, r) && w.ctl.clock > time
    ensures Leads(l, w0, v) && Reopened(v, w.handlers[r].op, time)
    decreases DISPATCH_RETRIES - w.handlers[r].pc.attempt, 2
  {
    LeadsKeepsInv(l, w0, w);
    assert HandlerSound(w, r, w.handlers[r]);
    LeadsOn(l, w0, w, Send(r));
    v := ReplyCanBeWritten(l, w0, Do(w, Send(r)), r, time);
  }

  lemma ReplyCanBeWritten(l: Losses, w0: World, w: World, r: Request, time: int) returns (v: World)
    requires WorldInv(w0) && Leads(l, w0, w) && r in w.handlers && w.handlers[r].pc.Waiting? && MayWrite(l, w, r)
    requires CallsCounted(w, r) && w.ctl.clock > time
    ensures Leads(l, w0, v) && Reopened(v, w.handlers[r].op, time)
    decreases DISPATCH_RETRIES - w.handlers[r].pc.attempt, 1
  {
    var call := Call(r, w.handlers[r].pc.attempt);
    if call in w.answers {
      v := AnswerWritten(l, w0, w, r);
    } else if Strip(w.handlers[r].op) != "" {
      var w1, id := CanBeDelivered(l, w0, w, call);
      v := AnswerWritten(l, w0, w1, r);
    } else if l.failures {
      v := FailureCanBeWritten(l, w0, w, r, time);
    } else {
      v := ExceptionCanBeWritten(l, w0, w, r, time);
    }
  }

  lemma FailureCanBeWritten(l: Losses, w0: World, w: World, r: Request, time: int) returns (v: World)
    requires WorldInv(w0) && Leads(l, w0, w) && l.failures && r in w.handlers && w.handlers[r].pc.Waiting?
    requires w.ctl.clock > time
    ensures Leads(l, w0, v) && Reopened(v, w.handlers[r].op, time)
  {
    LeadsOn(l, w0, w, GetFailureReply(r));
    var w1 := Do(w, GetFailureReply(r));
    LeadsKeepsInv(l, w0, w1);
    v := VerdictWritten(l, w0, w1, r);
  }

  lemma ExceptionCanBeWritten(l: Losses, w0: World, w: World, r: Request, time: int) returns (v: World)
    requires WorldInv(w0) && Leads(l, w0, w) && l.exceptions && r in w.handlers && w.handlers[r].pc.Waiting?
    requires CallsCounted(w, r) && w.ctl.clock > time
    ensures Leads(l, w0, v) && Reopened(v, w.handlers[r].op, time)
    decreases DISPATCH_RETRIES - w.handlers[r].pc.attempt, 0
  {
    LeadsOn(l, w0, w, GetException(r));
    var w1 := Do(w, GetException(r));
    if w.handlers[r].pc.attempt < DISPATCH_RETRIES {
      v := CallCanBeWritten(l, w0, w1, r, time);
    } else {
      LeadsKeepsInv(l, w0, w1);
      v := VerdictWritten(l, w0, w1, r);
    }
  }

  // ---- What the tracker can still do -----------------------------------------------------------------

  /** controllersrv keeps serials stripped: only under such an id is a task ever found. */
  predicate Pollable(op: OpId) {
    op != "" && Strip(op) == op
  }

  /** Whatever the tracker has selected or fetched, it will not write another status than this one. */
  predicate TrackerHarmless(w: World, op: OpId, st: OperationStatus) {
    match w.tracker
    case Resting => true
    case Polling(todo) => op in todo ==> !Pollable(op)
    case Fetched(o, d, todo) => (o == op ==> d.status == st) && (op in todo ==> !Pollable(op))
    case Expiring(todo, _) => op in todo ==> st == Timeout
  }

  /** The record says something else than this. */
  ghost predicate Differs(w: World, op: OpId, st: OperationStatus) {
    op in w.records && w.records[op].status != st
  }

  /** The task known under a serial can come to be one that has not ended. */
  lemma CanHaveUnendedTask(l: Losses, w0: World, w: World, op: OpId) returns (v: World)
    requires Leads(l, w0, w) && Inv(w.ctl) && Pollable(op)
    ensures Leads(l, w0, v) && v == w.(ctl := v.ctl)
    ensures op in v.ctl.q.tasks && v.ctl.q.tasks[op] in v.ctl.q.heap && !v.ctl.q.heap[v.ctl.q.tasks[op]].IsFinished()
  {
    if TakenForGood(w.ctl, op) {
      var id :| Runs.GivenUp(w.ctl, id) && w.ctl.q.heap[id].serial == op;
      v := w;
    } else {
      var w1 := SerialCanBeFreed(l, w0, w, op);
      var id := AboveAll(w1.ctl.q.heap.Keys);
      var step := Submit(id, FreshTask(op, w1.ctl.clock));
      LeadsOn(l, w0, w1, Internal(step));
      v := w1.(ctl := Apply(w1.ctl, step));
    }
  }

  lemma FetchedIsWritten(l: Losses, w0: World, w: World, st: OperationStatus) returns (v: World)
    requires Leads(l, w0, w) && w.tracker.Fetched? && w.tracker.op in w.records && w.tracker.task.status != st
    ensures Leads(l, w0, v) && Differs(v, w.tracker.op, st)
  {
    LeadsOn(l, w0, w, WritePolled);
    v := Do(w, WritePolled);
  }

  lemma HeadCanChange(l: Losses, w0: World, w: World, op: OpId, st: OperationStatus) returns (v: World)
    requires Leads(l, w0, w) && Inv(w.ctl) && op in w.records && Pollable(op) && st.Finished()
    requires w.tracker.Polling? && w.tracker.todo != [] && w.tracker.todo[0] == op
    ensures Leads(l, w0, v) && Differs(v, op, st)
  {
    var w1 := CanHaveUnendedTask(l, w0, w, op);
    LeadsOn(l, w0, w1, Poll);
    v := FetchedIsWritten(l, w0, Do(w1, Poll), st);
  }

  lemma {:induction false} SelectedCanChange(l: Losses, w0: World, w: World, op: OpId, st: OperationStatus) returns (v: World)
    requires Leads(l, w0, w) && Inv(w.ctl) && op in w.records && Pollable(op) && st.Finished()
    requires w.tracker.Polling? && op in w.tracker.todo
    ensures Leads(l, w0, v) && Differs(v, op, st)
    decreases |w.tracker.todo|
  {
    var todo := w.tracker.todo;
    if todo[0] == op {
      v := HeadCanChange(l, w0, w, op, st);
    } else {
      assert todo == [todo[0]] + todo[1..];
      LeadsOn(l, w0, w, PollFails);
      var w1 := w.(tracker := Polling(todo[1..]));
      assert Do(w, PollFails) == w1;
      v := SelectedCanChange(l, w0, w1, op, st);
    }
  }

  lemma {:induction false} StaleCanChange(l: Losses, w0: World, w: World, op: OpId, st: OperationStatus) returns (v: World)
    requires Leads(l, w0, w) && op in w.records && st != Timeout
    requires w.tracker.Expiring? && op in w.tracker.todo
    ensures Leads(l, w0, v) && Differs(v, op, st)
    decreases |w.tracker.todo|
  {
    var todo := w.tracker.todo;
    assert todo == [todo[0]] + todo[1..];
    LeadsOn(l, w0, w, WriteStale);
    var w1 := Do(w, WriteStale);
    if todo[0] == op { v := w1; } else { v := StaleCanChange(l, w0, w1, op, st); }
  }

  /** A tracker that is not harmless can come to write another status. */
  lemma TrackerCanChange(l: Losses, w: World, op: OpId, st: OperationStatus) returns (v: World)
    requires WorldInv(w) && op in w.records && st.Finished() && !TrackerHarmless(w, op, st)
    ensures Leads(l, w, v) && Differs(v, op, st)
  {
    LeadsNowhere(l, w);
    match w.tracker
    case Polling(_) => v := SelectedCanChange(l, w, w, op, st);
    case Fetched(o, d, todo) =>
      if o == op {
        v := FetchedIsWritten(l, w, w, st);
      } else {
        LeadsOn(l, w, w, WritePolled);
        v := SelectedCanChange(l, w, Do(w, WritePolled), op, st);
      }
    case Expiring(_, _) => v := StaleCanChange(l, w, w, op, st);
  }

  // ---- What can change nothing any more --------------------------------------------------------------

  lemma TakenStaysTaken(c: State<nat>, step: Step<nat>, serial: Serial)
    requires Inv(c) && Enabled(c, step) && TakenForGood(c, serial)
    ensures TakenForGood(Apply(c, step), serial)
  {
    var id :| Runs.GivenUp(c, id) && c.q.heap[id].serial == serial;
    Runs.StepKeepsGivenUp(c, step, id);
  }

  lemma NeverAcceptableAgain(w: World, m: Move, op: OpId)
    requires WorldInv(w) && Can(w, m)
    ensures Acceptable(Do(w, m).ctl, op) ==> Acceptable(w.ctl, op)
  {
    if Strip(op) != "" && TakenForGood(w.ctl, Strip(op)) {
      if m.Internal? {
        TakenStaysTaken(w.ctl, m.step, Strip(op));
      } else if m.Deliver? {
        TakenStaysTaken(w.ctl, Submit(m.id, m.data), Strip(op));
      } else {
        QuietCtl(w, m);
      }
    }
  }

  lemma QuietCtl(w: World, m: Move)
    requires Can(w, m) && !m.Internal? && !m.Deliver?
    ensures Do(w, m).ctl == w.ctl
  {
  }

  lemma TakenMeansDuplicate(c: State<nat>, serial: Serial)
    requires Inv(c) && TakenForGood(c, serial)
    ensures EnqueueResultOf(c.q, serial) == DuplicateSerial
  {
    var id :| Runs.GivenUp(c, id) && c.q.heap[id].serial == serial;
    Runs.GivenUpForEver(c, [], id);
  }

  lemma NewAnswer(w: World, m: Move, call: Operations.Call)
    requires Can(w, m) && call !in w.answers && call in Do(w, m).answers
    ensures m.Deliver? && m.call == call && call.request in w.handlers
    ensures Do(w, m).answers[call] == EnqueueResultOf(w.ctl.q, Strip(w.handlers[call.request].op))
    ensures Strip(w.handlers[call.request].op) != ""
  {
  }

  /** The request will not write another status than this one. */
  ghost predicate Harmless(l: Losses, w: World, r: Request, st: OperationStatus) {
    if st == Failed then !MayBeAccepted(l, w, r) else !MayWrite(l, w, r)
  }

  lemma AnswerStaysHarmless(l: Losses, w: World, m: Move, r: Request, st: OperationStatus)
    requires WorldInv(w) && Can(w, m) && SameFor(w, Do(w, m), r) && Harmless(l, w, r, st)
    ensures Harmless(l, Do(w, m), r, st)
  {
    NeverAcceptableAgain(w, m, w.handlers[r].op);
    if w.handlers[r].pc.Waiting? {
      var call := Call(r, w.handlers[r].pc.attempt);
      if call !in w.answers && call in Do(w, m).answers {
        NewAnswer(w, m, call);
        if st == Failed { TakenMeansDuplicate(w.ctl, Strip(w.handlers[r].op)); }
      }
    }
  }

  lemma OwnMoveStaysHarmless(l: Losses, w: World, m: Move, r: Request, st: OperationStatus)
    requires Can(w, m) && Allows(l, m) && RequestOf(m) == Some(r) && Harmless(l, w, r, st)
    requires r in w.handlers ==> CallsCounted(w, r) && (w.handlers[r].pc.Checking? ==> BlockedIn(w, w.handlers[r].op))
    requires CallsSound(w)
    ensures Harmless(l, Do(w, m), r, st)
  {
    QuietCtl(w, m);
  }

  /** The record has this status, and neither the tracker nor a request in flight will write another. */
  ghost predicate Kept(l: Losses, w: World, op: OpId, st: OperationStatus) {
    && Says(w, op, st) && TrackerHarmless(w, op, st)
    && forall r | r in w.handlers && w.handlers[r].op == op :: Harmless(l, w, r, st)
  }

  lemma UnpolledId(w: World, op: OpId)
    requires WorldInv(w) && !Pollable(op)
    ensures op !in w.ctl.q.tasks
  {
  }

  lemma PollStaysHarmless(w: World, op: OpId, st: OperationStatus)
    requires WorldInv(w) && Can(w, Poll) && TrackerHarmless(w, op, st)
    ensures TrackerHarmless(Do(w, Poll), op, st)
  {
    if !Pollable(op) { UnpolledId(w, op); }
    assert forall o | o in w.tracker.todo[1..] :: o in w.tracker.todo;
  }

  lemma RestStaysHarmless(w: World, m: Move, op: OpId, st: OperationStatus)
    requires Can(w, m) && (m.PollFails? || m.WriteStale?) && TrackerHarmless(w, op, st)
    ensures TrackerHarmless(Do(w, m), op, st)
  {
    assert forall o | o in w.tracker.todo[1..] :: o in w.tracker.todo;
  }

  lemma OtherStaysHarmless(w: World, m: Move, op: OpId, st: OperationStatus)
    requires Can(w, m) && !m.Poll? && !m.PollFails? && !m.WriteStale?
    requires Says(w, op, st) && st.Finished() && TrackerHarmless(w, op, st)
    ensures TrackerHarmless(Do(w, m), op, st)
  {
  }

  lemma TrackerStaysHarmless(w: World, m: Move, op: OpId, st: OperationStatus)
    requires WorldInv(w) && Can(w, m) && Says(w, op, st) && st.Finished() && TrackerHarmless(w, op, st)
    ensures TrackerHarmless(Do(w, m), op, st)
  {
    if m.Poll? {
      PollStaysHarmless(w, op, st);
    } else if m.PollFails? || m.WriteStale? {
      RestStaysHarmless(w, m, op, st);
    } else {
      OtherStaysHarmless(w, m, op, st);
    }
  }

  lemma RecordStays(l: Losses, w: World, m: Move, op: OpId, st: OperationStatus)
    requires Can(w, m) && Kept(l, w, op, st) && st.Finished()
    ensures Says(Do(w, m), op, st)
  {
    if m.WriteResult? {
      VerdictHarmless(l, w, m.r, op, st);
    } else if m.Create? || m.WritePolled? || m.WriteStale? {
      OtherWriteStays(w, m, op, st);
    } else {
      QuietRecords(w, m);
    }
  }

  lemma VerdictHarmless(l: Losses, w: World, r: Request, op: OpId, st: OperationStatus)
    requires Can(w, WriteResult(r)) && Kept(l, w, op, st)
    ensures Says(Do(w, WriteResult(r)), op, st)
  {
    assert w.handlers[r].op == op ==> Harmless(l, w, r, st);
  }

  lemma OtherWriteStays(w: World, m: Move, op: OpId, st: OperationStatus)
    requires Can(w, m) && Says(w, op, st) && TrackerHarmless(w, op, st) && (m.Create? || m.WritePolled? || m.WriteStale?)
    ensures Says(Do(w, m), op, st)
  {
  }

  lemma MoveKeepsKept(l: Losses, w: World, m: Move, op: OpId, st: OperationStatus)
    requires WorldInv(w) && Counted(w) && Can(w, m) && Allows(l, m) && Kept(l, w, op, st) && st.Finished()
    ensures Kept(l, Do(w, m), op, st)
  {
    RecordStays(l, w, m, op, st);
    TrackerStaysHarmless(w, m, op, st);
    var v := Do(w, m);
    forall r | r in v.handlers && v.handlers[r].op == op ensures Harmless(l, v, r, st) {
      if RequestOf(m) == Some(r) {
        if r in w.handlers { OwnMoveKeepsOp(w, m, r); }
        OwnMoveStaysHarmless(l, w, m, r, st);
      } else {
        HandlersGrow(w, m, r);
        OthersStaySame(w, m, r);
        AnswerStaysHarmless(l, w, m, r, st);
      }
    }
  }

  lemma OwnMoveKeepsOp(w: World, m: Move, r: Request)
    requires Can(w, m) && RequestOf(m) == Some(r) && r in w.handlers
    ensures r in Do(w, m).handlers && Do(w, m).handlers[r].op == w.handlers[r].op
  {
  }

  lemma {:induction false} KeptForEver(l: Losses, w: World, run: seq<Move>, op: OpId, st: OperationStatus)
    requires WorldInv(w) && Counted(w) && Feasible(w, run) && Within(l, run) && Kept(l, w, op, st) && st.Finished()
    ensures Says(Reached(w, run), op, st)
    decreases |run|
  {
    if run != [] {
      assert Allows(l, run[0]) && Within(l, run[1..]);
      MoveKeepsKept(l, w, run[0], op, st);
      MoveKeepsCounted(w, run[0]);
      MoveKeepsInv(w, run[0]);
      KeptForEver(l, Do(w, run[0]), run[1..], op, st);
    }
  }

  // ---- Exactly when a terminal record is final ---------------------------------------------------------

  /** Whatever may get lost: a terminal record keeps its status over every run exactly when the tracker
      is harmless to it and so is every request of the operation: one that says FAILED is safe from
      those that cannot be accepted any more, any other one only from those that cannot write. */
  lemma FinalExactlyWhen(l: Losses, w: World, op: OpId)
    requires WorldInv(w) && Counted(w) && op in w.records && !w.records[op].Active()
    ensures (forall v | Leads(l, w, v) :: Says(v, op, w.records[op].status)) <==> Kept(l, w, op, w.records[op].status)
  {
    var st := w.records[op].status;
    if Kept(l, w, op, st) {
      forall v | Leads(l, w, v) ensures Says(v, op, st) {
        var run :| Feasible(w, run) && Within(l, run) && Reached(w, run) == v;
        KeptForEver(l, w, run, op, st);
      }
    } else {
      var v := CanChange(l, w, op, st);
      assert !Says(v, op, st);
    }
  }

  lemma CanChange(l: Losses, w: World, op: OpId, st: OperationStatus) returns (v: World)
    requires WorldInv(w) && Counted(w) && Says(w, op, st) && st.Finished() && !Kept(l, w, op, st)
    ensures Leads(l, w, v) && Differs(v, op, st)
  {
    LeadsNowhere(l, w);
    if !TrackerHarmless(w, op, st) {
      v := TrackerCanChange(l, w, op, st);
    } else {
      var r :| r in w.handlers && w.handlers[r].op == op && !Harmless(l, w, r, st);
      assert CallsCounted(w, r);
      if st == Failed { v := CanComeToRunning(l, w, w, r); } else { v := CanWriteOther(l, w, r, st); }
    }
  }

  lemma CanWriteOther(l: Losses, w: World, r: Request, st: OperationStatus) returns (v: World)
    requires WorldInv(w) && MayWrite(l, w, r) && CallsCounted(w, r) && st != Failed && st != Running
    ensures Leads(l, w, v) && Differs(v, w.handlers[r].op, st)
  {
    LeadsNowhere(l, w);
    if w.handlers[r].pc.Writing? {
      v := VerdictWritten(l, w, w, r);
    } else {
      v := CanComeToWrite(l, w, w, r, w.ctl.clock - 1);
    }
  }

  /** The tracker converges: what it writes of an ended task, with the end time, is what the record says
      ever after, exactly when no request is left that will write something else. */
  lemma TrackerSettlesExactlyWhen(l: Losses, w: World)
    requires WorldInv(w) && Counted(w) && w.tracker.Fetched? && w.tracker.task.IsFinished()
    ensures Can(w, WritePolled)
    ensures Settles(l, Do(w, WritePolled), w.tracker.op, w.tracker.task.status)
  {
    PolledWritten(w);
    FinalExactlyWhen(l, Do(w, WritePolled), w.tracker.op);
  }

  lemma PolledWritten(w: World)
    requires WorldInv(w) && Counted(w) && w.tracker.Fetched? && w.tracker.task.IsFinished()
    ensures var v, op := Do(w, WritePolled), w.tracker.op;
            && WorldInv(v) && Counted(v) && Says(v, op, w.tracker.task.status) && v.records[op].completedAt.Some?
            && TrackerHarmless(v, op, w.tracker.task.status)
  {
    var v, op := Do(w, WritePolled), w.tracker.op;
    assert SelectedSound(w, op);
    MoveKeepsInv(w, WritePolled);
    MoveKeepsCounted(w, WritePolled);
    assert RecordTruthful(v, op, v.records[op]);
  }

  ghost predicate Settles(l: Losses, w: World, op: OpId, st: OperationStatus) {
    && Says(w, op, st) && w.records[op].completedAt.Some?
    && ((forall v | Leads(l, w, v) :: Says(v, op, st)) <==>
        forall r | r in w.handlers && w.handlers[r].op == op :: Harmless(l, w, r, st))
  }

  /** The same for every world that the protocol can come to. */
  lemma TrackerConverges(l: Losses, now: int, w: World)
    requires Leads(l, Beginning(now), w) && w.tracker.Fetched? && w.tracker.task.IsFinished()
    ensures Can(w, WritePolled)
    ensures Settles(l, Do(w, WritePolled), w.tracker.op, w.tracker.task.status)
  {
    BeginningCounts(l, now, w);
    TrackerSettlesExactlyWhen(l, w);
  }

  lemma BeginningCounts(l: Losses, now: int, w: World)
    requires Leads(l, Beginning(now), w)
    ensures WorldInv(w) && Counted(w)
  {
    var run :| Feasible(Beginning(now), run) && Within(l, run) && Reached(Beginning(now), run) == w;
    BeginningInv(now);
    RunKeepsCounted(Beginning(now), run);
  }
}
