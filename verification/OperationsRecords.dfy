/** What each writer puts into the fields of a record, and what becomes of the fields that the tracker
    has written of an ended task. */
module OperationsRecords {
  import opened Wrappers
  import opened Tasks
  import Runs = ControllerRuns
  import opened Operations
  import opened OperationsSafety
  import opened OperationsRuns
  import opened OperationsReach
  import opened OperationsFinal

  // ---- One write -----------------------------------------------------------------------------------

  /** Nothing but this record has changed. */
  ghost predicate OnlyRecord(w: World, v: World, op: OpId) {
    && v.ctl == w.ctl && v.sent == w.sent && v.answers == w.answers && v.records.Keys == w.records.Keys
    && forall o | o in w.records && o != op :: v.records[o] == w.records[o]
  }

  /** The tracker writes a polled task: its status and retry count; its start, end and error as far as
      it has them; an end only of an ended task, the present time if that lacks one. */
  lemma PolledFields(w: World)
    requires Can(w, WritePolled) && w.tracker.op in w.records
    ensures OnlyRecord(w, Do(w, WritePolled), w.tracker.op)
    ensures var before, after, d := w.records[w.tracker.op], Do(w, WritePolled).records[w.tracker.op], w.tracker.task;
      && after.status == d.status && after.retryCount == d.retryCount && after.createdAt == before.createdAt
      && (d.startedAt.Some? ==> after.startedAt == d.startedAt)
      && (d.startedAt.None? ==> after.startedAt == before.startedAt)
      && (d.IsFinished() && d.finishedAt.Some? ==> after.completedAt == d.finishedAt)
      && (d.IsFinished() && d.finishedAt.None? ==> after.completedAt == Some(w.ctl.clock))
      && (!d.IsFinished() ==> after.completedAt == before.completedAt)
      && (d.error.Some? ==> after.error == d.error)
      && (d.error.None? ==> after.error == before.error)
  {
  }

  /** A dispatcher writes its verdict: the start that it noted, and an end and an error only of a
      refused operation. */
  lemma VerdictFields(w: World, r: Request)
    requires Can(w, WriteResult(r)) && w.handlers[r].op in w.records
    ensures OnlyRecord(w, Do(w, WriteResult(r)), w.handlers[r].op)
    ensures var op, pc := w.handlers[r].op, w.handlers[r].pc;
      var before, after := w.records[op], Do(w, WriteResult(r)).records[op];
      && after.startedAt == Some(pc.startedAt) && after.createdAt == before.createdAt && after.retryCount == before.retryCount
      && (pc.accepted ==> after.status == Running && after.completedAt == before.completedAt && after.error == before.error)
      && (!pc.accepted ==> after.status == Failed && after.completedAt == Some(pc.completedAt) && after.error.Some?)
  {
  }

  /** An expired record keeps its start and gets the time of the selection as its end. */
  lemma StaleFields(w: World)
    requires Can(w, WriteStale) && w.tracker.todo[0] in w.records
    ensures OnlyRecord(w, Do(w, WriteStale), w.tracker.todo[0])
    ensures var op := w.tracker.todo[0];
      var before, after := w.records[op], Do(w, WriteStale).records[op];
      && after.status == Timeout && after.completedAt == Some(w.tracker.now) && after.error.Some?
      && after.startedAt == before.startedAt && after.createdAt == before.createdAt && after.retryCount == before.retryCount
  {
  }

  lemma CreatedFields(w: World, r: Request)
    requires Can(w, Create(r)) && w.handlers[r].op !in w.records
    ensures var v, op := Do(w, Create(r)), w.handlers[r].op;
      && v.records.Keys == w.records.Keys + {op} && (forall o | o in w.records :: v.records[o] == w.records[o])
      && v.records[op].status == Pending && v.records[op].createdAt == w.ctl.clock && v.records[op].retryCount == 0
      && v.records[op].startedAt == None && v.records[op].completedAt == None && v.records[op].error == None
  {
  }

  /** What a request does at its check: nothing more if there is a record that has left PENDING or has a
      start; it creates a record if there is none; otherwise it goes on to its first call. */
  lemma CheckDecides(w: World, r: Request)
    requires Can(w, Check(r))
    ensures var op, after := w.handlers[r].op, Do(w, Check(r)).handlers[r];
      && after.op == op && Do(w, Check(r)).records == w.records
      && (op !in w.records ==> after.pc == Creating)
      && (op in w.records && (w.records[op].status != Pending || w.records[op].startedAt.Some?) ==> after.pc == Done)
      && (op in w.records && w.records[op].status == Pending && w.records[op].startedAt.None? ==> after.pc == Calling(1, w.ctl.clock))
  {
  }

  /** The start that a request has noted. */
  function StartNoted(pc: Pc): Option<int> {
    match pc
    case Calling(_, t) => Some(t)
    case Waiting(_, t) => Some(t)
    case Writing(_, t, _) => Some(t)
    case _ => None
  }

  /** A request notes its start when it is past the check, keeps it over all its calls, and notes its
      end when the last reply has come. */
  lemma TimesNoted(w: World, m: Move, r: Request)
    requires Can(w, m) && r in w.handlers
    ensures r in Do(w, m).handlers
    ensures var before, after := w.handlers[r].pc, Do(w, m).handlers[r].pc;
      && (StartNoted(before).Some? && !after.Done? ==> StartNoted(after) == StartNoted(before))
      && (StartNoted(before).None? && StartNoted(after).Some? ==> StartNoted(after) == Some(w.ctl.clock))
      && (after.Writing? && !before.Writing? ==> after.completedAt == w.ctl.clock)
      && (after.Writing? && before.Writing? ==> after == before)
  {
    if RequestOf(m) != Some(r) { OthersStaySame(w, m, r); }
  }

  // ---- What is kept --------------------------------------------------------------------------------

  /** The request has nothing to write but a refusal with these very times. */
  predicate Repeats(pc: Pc, status: OperationStatus, startedAt: Option<int>, completedAt: Option<int>) {
    pc.Writing? && !pc.accepted && status == Failed && startedAt == Some(pc.startedAt) && completedAt == Some(pc.completedAt)
  }

  /** A terminal record that the tracker is not on and at which no request can write anything else. */
  ghost predicate Untouched(l: Losses, w: World, op: OpId) {
    && op in w.records && !w.records[op].Active() && !w.tracker.Busy(op)
    && forall r | r in w.handlers && w.handlers[r].op == op :: Spares(l, w, r, w.records[op])
  }

  predicate Spares(l: Losses, w: World, r: Request, rec: Record) {
    MayWrite(l, w, r) ==> Repeats(w.handlers[r].pc, rec.status, rec.startedAt, rec.completedAt)
  }

  predicate SameTold(a: Record, b: Record) {
    a.status == b.status && a.startedAt == b.startedAt && a.completedAt == b.completedAt && a.retryCount == b.retryCount
  }

  lemma OffTracker(w: World, m: Move, op: OpId)
    requires Can(w, m) && op in w.records && !w.records[op].Active() && !w.tracker.Busy(op)
    ensures !Do(w, m).tracker.Busy(op)
  {
  }

  lemma NobodyWrites(l: Losses, w: World, m: Move, op: OpId)
    requires Can(w, m) && Untouched(l, w, op)
    ensures op in Do(w, m).records && SameTold(Do(w, m).records[op], w.records[op])
  {
    if m.WriteResult? {
      assert w.handlers[m.r].op == op ==> Spares(l, w, m.r, w.records[op]);
    } else if m.Create? || m.WritePolled? || m.WriteStale? {
      WrittenElsewhere(w, m, op);
    } else {
      QuietRecords(w, m);
    }
  }

  lemma WrittenElsewhere(w: World, m: Move, op: OpId)
    requires Can(w, m) && op in w.records && !w.tracker.Busy(op) && (m.Create? || m.WritePolled? || m.WriteStale?)
    ensures op in Do(w, m).records && Do(w, m).records[op] == w.records[op]
  {
  }

  lemma OwnMoveSpares(l: Losses, w: World, m: Move, r: Request, rec: Record)
    requires CallsSound(w) && Can(w, m) && Allows(l, m) && RequestOf(m) == Some(r) && Spares(l, w, r, rec)
    requires r in w.handlers ==> CallsCounted(w, r) && (w.handlers[r].pc.Checking? ==> BlockedIn(w, w.handlers[r].op))
    ensures Spares(l, Do(w, m), r, rec)
  {
    if MayWrite(l, w, r) {
      assert Do(w, m).handlers[r].pc.Done?;
    } else {
      OwnMoveStaysHarmless(l, w, m, r, Timeout);
    }
  }

  lemma OthersSpare(l: Losses, w: World, m: Move, r: Request, rec: Record)
    requires WorldInv(w) && Can(w, m) && SameFor(w, Do(w, m), r) && Spares(l, w, r, rec)
    ensures Spares(l, Do(w, m), r, rec)
  {
    if !MayWrite(l, w, r) { AnswerStaysHarmless(l, w, m, r, Timeout); }
  }

  lemma MoveKeepsUntouched(l: Losses, w: World, m: Move, op: OpId)
    requires WorldInv(w) && Counted(w) && Can(w, m) && Allows(l, m) && Untouched(l, w, op)
    ensures Untouched(l, Do(w, m), op) && SameTold(Do(w, m).records[op], w.records[op])
  {
    NobodyWrites(l, w, m, op);
    OffTracker(w, m, op);
    var v, rec := Do(w, m), w.records[op];
    forall r | r in v.handlers && v.handlers[r].op == op ensures Spares(l, v, r, v.records[op]) {
      if RequestOf(m) == Some(r) {
        if r in w.handlers { OwnMoveKeepsOp(w, m, r); }
        OwnMoveSpares(l, w, m, r, rec);
      } else {
        HandlersGrow(w, m, r);
        OthersStaySame(w, m, r);
        OthersSpare(l, w, m, r, rec);
      }
    }
  }

  lemma {:induction false} UntouchedForEver(l: Losses, w: World, run: seq<Move>, op: OpId)
    requires WorldInv(w) && Counted(w) && Feasible(w, run) && Within(l, run) && Untouched(l, w, op)
    ensures op in Reached(w, run).records && SameTold(Reached(w, run).records[op], w.records[op])
    decreases |run|
  {
    if run != [] {
      assert Allows(l, run[0]) && Within(l, run[1..]);
      MoveKeepsUntouched(l, w, run[0], op);
      MoveKeepsCounted(w, run[0]);
      MoveKeepsInv(w, run[0]);
      UntouchedForEver(l, Do(w, run[0]), run[1..], op);
    }
  }

  // ---- What the tracker has written of an ended task -----------------------------------------------

  /** The record says of a task of its operation how and when that started and ended. */
  ghost predicate TellsOf(rec: Record, d: TaskData) {
    && d.IsFinished() && rec.status == d.status && rec.retryCount == d.retryCount
    && rec.startedAt.Some? && rec.startedAt == d.startedAt
    && rec.completedAt.Some? && rec.completedAt == d.finishedAt
  }

  ghost predicate TellsOfTask(v: World, op: OpId, id: nat) {
    op in v.records && id in v.ctl.q.heap && v.ctl.q.heap[id].serial == op && TellsOf(v.records[op], v.ctl.q.heap[id])
  }

  /** What the tracker writes of an ended task is true of that very task. */
  lemma PolledTellsOf(w: World) returns (id: nat)
    requires WorldInv(w) && w.tracker.Fetched? && w.tracker.task.IsFinished()
    ensures w.tracker.op in w.records && Can(w, WritePolled)
    ensures id in w.ctl.q.heap && TellsOfTask(Do(w, WritePolled), w.tracker.op, id)
    ensures TellsOf(Do(w, WritePolled).records[w.tracker.op], w.tracker.task)
  {
    var op, d := w.tracker.op, w.tracker.task;
    assert SelectedSound(w, op) && Picture(w.ctl, op, d);
    id :| id in w.ctl.q.heap && w.ctl.q.heap[id].serial == op && Runs.Later(d, w.ctl.q.heap[id]);
    PolledFields(w);
  }

  /** No request of the operation will write anything but a refusal with the times of this task. */
  ghost predicate TimesAreSafe(l: Losses, w: World, op: OpId, d: TaskData) {
    forall r | r in w.handlers && w.handlers[r].op == op ::
      MayWrite(l, w, r) ==> Repeats(w.handlers[r].pc, d.status, d.startedAt, d.finishedAt)
  }

  /** The tracker's write of an ended task lasts: the record carries the status, the start, the end and
      the retry count of a task of its operation in every world that follows, exactly when no request
      of the operation may still write anything else. A refusal still to be written cannot change a
      FAILED status, but it takes these times away. */
  lemma TimesFinalExactlyWhen(l: Losses, w: World) returns (id: nat)
    requires WorldInv(w) && Counted(w) && w.tracker.Fetched? && w.tracker.task.IsFinished()
    ensures Can(w, WritePolled) && TellsOfTask(Do(w, WritePolled), w.tracker.op, id)
    ensures (forall v | Leads(l, Do(w, WritePolled), v) :: TellsOfTask(v, w.tracker.op, id))
            <==> TimesAreSafe(l, w, w.tracker.op, w.tracker.task)
  {
    var w', op := Do(w, WritePolled), w.tracker.op;
    id := PolledTellsOf(w);
    PolledWritten(w);
    SameWriters(l, w);
    if TimesAreSafe(l, w, op, w.tracker.task) {
      forall v | Leads(l, w', v) ensures TellsOfTask(v, op, id) {
        TimesStay(l, w', op, id, v);
      }
    } else {
      var r :| r in w.handlers && w.handlers[r].op == op && !Spares(l, w', r, w'.records[op]);
      assert CallsCounted(w', r);
      var v := TimesCanBeLost(l, w', r);
      LeadsGrows(l, w', v);
      assert !TellsOfTask(v, op, id);
    }
  }

  lemma SameWriters(l: Losses, w: World)
    requires Can(w, WritePolled)
    ensures Do(w, WritePolled).handlers == w.handlers
    ensures forall r :: MayWrite(l, Do(w, WritePolled), r) <==> MayWrite(l, w, r)
  {
  }

  lemma TimesStay(l: Losses, w: World, op: OpId, id: nat, v: World)
    requires WorldInv(w) && Counted(w) && Untouched(l, w, op) && TellsOfTask(w, op, id) && Leads(l, w, v)
    ensures TellsOfTask(v, op, id)
  {
    var run :| Feasible(w, run) && Within(l, run) && Reached(w, run) == v;
    UntouchedForEver(l, w, run, op);
    LeadsGrows(l, w, v);
  }

  /** Whoever may write something else can come to do so, if need be when more time has passed. */
  lemma TimesCanBeLost(l: Losses, w: World, r: Request) returns (v: World)
    requires WorldInv(w) && Counted(w) && r in w.handlers && w.handlers[r].op in w.records
    requires w.records[w.handlers[r].op].status.Finished() && w.records[w.handlers[r].op].completedAt.Some?
    requires !Spares(l, w, r, w.records[w.handlers[r].op])
    ensures Leads(l, w, v) && w.handlers[r].op in v.records && !SameTold(v.records[w.handlers[r].op], w.records[w.handlers[r].op])
  {
    LeadsNowhere(l, w);
    assert CallsCounted(w, r);
    if w.handlers[r].pc.Writing? {
      v := VerdictWritten(l, w, w, r);
    } else {
      var time := w.records[w.handlers[r].op].completedAt.value;
      var w1 := TimeCanPass(l, w, w, time);
      v := CanComeToWrite(l, w, w1, r, time);
    }
  }

  lemma LeadsGrows(l: Losses, w: World, v: World)
    requires WorldInv(w) && Leads(l, w, v)
    ensures forall id | id in w.ctl.q.heap :: id in v.ctl.q.heap && Runs.Later(w.ctl.q.heap[id], v.ctl.q.heap[id])
  {
    var run :| Feasible(w, run) && Within(l, run) && Reached(w, run) == v;
    RunGrows(w, run);
  }
}
