/** What every run of the service-operation protocol keeps. */
module OperationsSafety {
  import opened Sequences
  import opened Wrappers
  import opened Whitespace
  import opened Tasks
  import opened Controller
  import opened ControllerSafety
  import Runs = ControllerRuns
  import opened Operations

  // ---- The invariant ---------------------------------------------------------------------------

  /** Some task with this serial was accepted; with `ended`, one that has ended like that. */
  ghost predicate EverAccepted(c: State<nat>, serial: Serial) {
    exists id :: id in c.q.heap && c.q.heap[id].serial == serial
  }

  ghost predicate EverEnded(c: State<nat>, serial: Serial, st: OperationStatus) {
    exists id :: id in c.q.heap && c.q.heap[id].serial == serial && c.q.heap[id].status == st
  }

  /** `d` is a true picture, possibly old, of a task known under `serial`. */
  ghost predicate Picture(c: State<nat>, serial: Serial, d: TaskData) {
    TaskWellFormed(d, c.clock) && exists id :: id in c.q.heap && c.q.heap[id].serial == serial && Runs.Later(d, c.q.heap[id])
  }

  ghost predicate RecordTruthful(w: World, op: OpId, r: Record) {
    && (!r.Active() ==> r.completedAt.Some?)
    && (r.status != Pending && r.status != Timeout ==> r.startedAt.Some?)
    && (r.status == Success ==> EverEnded(w.ctl, op, Success))
    && (r.status == Running ==> EverAccepted(w.ctl, Strip(op)))
    && r.status != Cancelled
  }

  ghost predicate SerialsStripped(c: State<nat>) {
    forall id | id in c.q.heap :: c.q.heap[id].serial != "" && Strip(c.q.heap[id].serial) == c.q.heap[id].serial
  }

  ghost predicate HandlerSound(w: World, r: Request, h: Handler) {
    && (h.pc.Calling? ==> 1 <= h.pc.attempt <= DISPATCH_RETRIES)
    && (h.pc.Waiting? ==> 1 <= h.pc.attempt <= DISPATCH_RETRIES)
    && (h.pc.Writing? && h.pc.accepted ==> EverAccepted(w.ctl, Strip(h.op)))
    && (h.pc.Calling? || h.pc.Waiting? || h.pc.Writing? ==> h.op in w.records)
  }

  ghost predicate CallsSound(w: World) {
    && (forall call | call in w.sent :: call.request in w.handlers && 1 <= call.attempt <= DISPATCH_RETRIES)
    && (forall call | call in w.answers :: call in w.sent)
    && (forall call | call in w.answers && w.answers[call] == Accepted && call.request in w.handlers ::
          EverAccepted(w.ctl, Strip(w.handlers[call.request].op)))
  }

  /** A record the tracker has selected has been started, or has not been expired. */
  ghost predicate SelectedSound(w: World, op: OpId) {
    op in w.records && (w.records[op].status == Timeout ==> w.records[op].startedAt.Some?)
  }

  ghost predicate TrackerSound(w: World) {
    match w.tracker
    case Resting => true
    case Polling(todo) => Distinct(todo) && forall o | o in todo :: SelectedSound(w, o)
    case Fetched(op, d, todo) =>
      && op !in todo && Distinct(todo) && SelectedSound(w, op) && Picture(w.ctl, op, d)
      && forall o | o in todo :: SelectedSound(w, o)
    case Expiring(todo, now) => forall o | o in todo :: o in w.records
  }

  ghost predicate Tidy(w: World) {
    && (forall op | op in w.records :: RecordTruthful(w, op, w.records[op]))
    && (forall r | r in w.handlers :: HandlerSound(w, r, w.handlers[r]))
    && CallsSound(w)
    && TrackerSound(w)
  }

  ghost predicate WorldInv(w: World) {
    Inv(w.ctl) && SerialsStripped(w.ctl) && Tidy(w)
  }

  // ---- One move ---------------------------------------------------------------------------------

  /** What is true of an older controllersrv stays true of a newer one. */
  ghost predicate Grown(c: State<nat>, c': State<nat>) {
    c.clock <= c'.clock && forall id | id in c.q.heap :: id in c'.q.heap && Runs.Later(c.q.heap[id], c'.q.heap[id])
  }

  lemma StepGrows(c: State<nat>, step: Step<nat>)
    requires Inv(c) && Enabled(c, step)
    ensures Grown(c, Apply(c, step)) && Inv(Apply(c, step))
  {
    Runs.StepOnlyAdvances(c, step);
    StepKeepsInv(c, step);
  }

  lemma GrownKeepsEvidence(c: State<nat>, c': State<nat>, serial: Serial)
    requires Grown(c, c')
    ensures EverAccepted(c, serial) ==> EverAccepted(c', serial)
    ensures forall st: OperationStatus | st.Finished() :: EverEnded(c, serial, st) ==> EverEnded(c', serial, st)
    ensures forall d | Picture(c, serial, d) :: Picture(c', serial, d)
  {
    if EverAccepted(c, serial) {
      var id :| id in c.q.heap && c.q.heap[id].serial == serial;
      assert c'.q.heap[id].serial == serial;
    }
    forall st: OperationStatus | st.Finished() && EverEnded(c, serial, st) ensures EverEnded(c', serial, st) {
      var id :| id in c.q.heap && c.q.heap[id].serial == serial && c.q.heap[id].status == st;
      assert c'.q.heap[id].serial == serial && c'.q.heap[id].status == st;
    }
    forall d | Picture(c, serial, d) ensures Picture(c', serial, d) {
      var id :| id in c.q.heap && c.q.heap[id].serial == serial && Runs.Later(d, c.q.heap[id]);
      assert c'.q.heap[id].serial == serial && Runs.Later(d, c'.q.heap[id]);
    }
  }

  lemma GrownKeepsTidy(w: World, c': State<nat>)
    requires Tidy(w) && Grown(w.ctl, c')
    ensures Tidy(w.(ctl := c'))
  {
    var w' := w.(ctl := c');
    forall s { GrownKeepsEvidence(w.ctl, c', s); }
    assert forall op | op in w'.records :: RecordTruthful(w, op, w.records[op]);
    assert forall r | r in w'.handlers :: HandlerSound(w, r, w.handlers[r]);
    assert TrackerSound(w');
  }

  /** Controllersrv moves on by one step, and nothing else happens. */
  lemma ControllerMoveKeepsInv(w: World, step: Step<nat>)
    requires WorldInv(w) && Enabled(w.ctl, step)
    requires step.Submit? ==> step.data.serial != "" && Strip(step.data.serial) == step.data.serial
    ensures WorldInv(w.(ctl := Apply(w.ctl, step)))
  {
    var c' := Apply(w.ctl, step);
    StepGrows(w.ctl, step);
    GrownKeepsTidy(w, c');
    StepKeepsStripped(w.ctl, step);
  }

  lemma StepKeepsStripped(c: State<nat>, step: Step<nat>)
    requires Inv(c) && SerialsStripped(c) && Enabled(c, step)
    requires step.Submit? ==> step.data.serial != "" && Strip(step.data.serial) == step.data.serial
    ensures SerialsStripped(Apply(c, step))
  {
    StepGrows(c, step);
    var c' := Apply(c, step);
    forall id | id in c'.q.heap ensures c'.q.heap[id].serial != "" && Strip(c'.q.heap[id].serial) == c'.q.heap[id].serial {
      if id in c.q.heap {
        assert Runs.Later(c.q.heap[id], c'.q.heap[id]);
      } else {
        assert step.Submit? && c'.q.heap[id] == step.data;
      }
    }
  }

  // ---- The handlers' moves ---------------------------------------------------------------------

  lemma GotoKeepsTidy(w: World, r: Request, h: Handler)
    requires Tidy(w) && HandlerSound(w, r, h)
    requires r in w.handlers ==> h.op == w.handlers[r].op
    ensures Tidy(w.(handlers := w.handlers[r := h]))
  {
    var w' := w.(handlers := w.handlers[r := h]);
    forall x | x in w'.handlers ensures HandlerSound(w', x, w'.handlers[x]) {
      assert HandlerSound(w, x, w'.handlers[x]);
    }
    assert forall op | op in w'.records :: RecordTruthful(w, op, w.records[op]);
    assert CallsSound(w');
    assert TrackerSound(w');
  }

  lemma SendKeepsTidy(w: World, call: Call)
    requires Tidy(w) && call.request in w.handlers && 1 <= call.attempt <= DISPATCH_RETRIES
    ensures Tidy(w.(sent := w.sent + {call}))
  {
    var w' := w.(sent := w.sent + {call});
    assert forall r | r in w'.handlers :: HandlerSound(w, r, w.handlers[r]);
    assert forall op | op in w'.records :: RecordTruthful(w, op, w.records[op]);
    assert TrackerSound(w');
  }

  lemma HandlerMoveKeepsTidy(w: World, m: Move)
    requires Tidy(w) && Can(w, m)
    requires m.Arrive? || m.Check? || m.CreateFails? || m.Send? || m.GetReply? || m.GetFailureReply? || m.GetException? || m.WriteFails?
    ensures Tidy(Do(w, m))
  {
    var w' := Do(w, m);
    var r := m.r;
    if m.Arrive? {
      GotoKeepsTidy(w, r, w'.handlers[r]);
    } else {
      assert HandlerSound(w, r, w.handlers[r]);
      if m.Send? {
        var call := Call(r, w.handlers[r].pc.attempt);
        SendKeepsTidy(w, call);
        GotoKeepsTidy(w.(sent := w.sent + {call}), r, w'.handlers[r]);
      } else {
        GotoKeepsTidy(w, r, w'.handlers[r]);
      }
    }
  }

  // ---- Writes to the records ----------------------------------------------------------------------

  lemma RecordWriteKeepsTidy(w: World, op: OpId, rec: Record)
    requires Tidy(w) && RecordTruthful(w, op, rec)
    requires rec.status == Timeout && w.tracker.Busy(op) ==> rec.startedAt.Some? || w.tracker.Expiring?
    ensures Tidy(w.(records := w.records[op := rec]))
  {
    var w' := w.(records := w.records[op := rec]);
    assert forall r | r in w'.handlers :: HandlerSound(w, r, w.handlers[r]);
    forall o | o in w'.records ensures RecordTruthful(w', o, w'.records[o]) {
      assert o == op || RecordTruthful(w, o, w.records[o]);
    }
    assert CallsSound(w');
    assert TrackerSound(w');
  }

  lemma CreateKeepsTidy(w: World, r: Request)
    requires Tidy(w) && Can(w, Create(r))
    ensures Tidy(Do(w, Create(r)))
  {
    var op := w.handlers[r].op;
    if op !in w.records {
      var rec := Record(Pending, None, None, w.ctl.clock, 0, None);
      RecordWriteKeepsTidy(w, op, rec);
      GotoKeepsTidy(w.(records := w.records[op := rec]), r, Do(w, Create(r)).handlers[r]);
    } else {
      GotoKeepsTidy(w, r, Do(w, Create(r)).handlers[r]);
    }
  }

  lemma WriteResultKeepsTidy(w: World, r: Request)
    requires Tidy(w) && Can(w, WriteResult(r))
    ensures Tidy(Do(w, WriteResult(r)))
  {
    var op, pc := w.handlers[r].op, w.handlers[r].pc;
    assert HandlerSound(w, r, w.handlers[r]);
    var rec := Updated(w.records[op], UpdateFromDispatch(pc.accepted, pc.startedAt, pc.completedAt));
    RecordWriteKeepsTidy(w, op, rec);
    GotoKeepsTidy(w.(records := w.records[op := rec]), r, Handler(op, Done));
  }

  // ---- The tracker's moves -------------------------------------------------------------------------

  lemma TrackerKeepsTidy(w: World, t: Tracker)
    requires Tidy(w) && TrackerSound(w.(tracker := t))
    ensures Tidy(w.(tracker := t))
  {
    var w' := w.(tracker := t);
    assert forall op | op in w'.records :: RecordTruthful(w, op, w.records[op]);
    assert forall r | r in w'.handlers :: HandlerSound(w, r, w.handlers[r]);
    assert CallsSound(w');
  }

  lemma PollKeepsTidy(w: World)
    requires WorldInv(w) && Can(w, Poll)
    ensures Tidy(Do(w, Poll))
  {
    var op, c, rest := w.tracker.todo[0], w.ctl, w.tracker.todo[1..];
    if op in c.q.tasks {
      FetchedSound(w, op, rest);
      TrackerKeepsTidy(w, Fetched(op, c.q.heap[c.q.tasks[op]], rest));
    } else {
      assert forall o | o in rest :: o in w.tracker.todo;
      TrackerKeepsTidy(w, Polling(rest));
    }
  }

  lemma FetchedSound(w: World, op: OpId, rest: seq<OpId>)
    requires WorldInv(w) && w.tracker.Polling? && w.tracker.todo == [op] + rest && op in w.ctl.q.tasks
    ensures w.ctl.q.tasks[op] in w.ctl.q.heap
    ensures TrackerSound(w.(tracker := Fetched(op, w.ctl.q.heap[w.ctl.q.tasks[op]], rest)))
  {
    var id := w.ctl.q.tasks[op];
    assert id in w.ctl.q.heap && w.ctl.q.heap[id].serial == op;
    PictureOfNow(w.ctl, id);
    RestOfSelection(w.tracker.todo, op, rest);
    forall o | o in rest ensures SelectedSound(w, o) {
      assert o in w.tracker.todo;
    }
    assert SelectedSound(w, op);
  }

  lemma RestOfSelection(todo: seq<OpId>, op: OpId, rest: seq<OpId>)
    requires todo == [op] + rest && Distinct(todo)
    ensures op in todo && op !in rest && Distinct(rest) && forall o | o in rest :: o in todo
  {
    assert todo[0] == op && forall i | 0 <= i < |rest| :: rest[i] == todo[i + 1];
  }

  lemma PictureOfNow(c: State<nat>, id: nat)
    requires Inv(c) && id in c.q.heap
    ensures Picture(c, c.q.heap[id].serial, c.q.heap[id])
  {
    assert Runs.Later(c.q.heap[id], c.q.heap[id]);
  }

  lemma PollFailsKeepsTidy(w: World)
    requires Tidy(w) && Can(w, PollFails)
    ensures Tidy(Do(w, PollFails))
  {
    var rest := w.tracker.todo[1..];
    assert forall o | o in rest :: o in w.tracker.todo;
    TrackerKeepsTidy(w, Polling(rest));
  }

  lemma SelectKeepsTidy(w: World, batch: seq<OpId>, t: Tracker)
    requires Tidy(w) && (Selects(w, batch, true) || Selects(w, batch, false))
    requires t == Polling(batch) || t == Expiring(batch, w.ctl.clock)
    ensures Tidy(w.(tracker := t))
  {
    forall o | o in batch ensures SelectedSound(w, o) {}
    TrackerKeepsTidy(w, t);
  }

  lemma WritePolledKeepsTidy(w: World)
    requires WorldInv(w) && Can(w, WritePolled)
    ensures Tidy(Do(w, WritePolled))
  {
    var op, d := w.tracker.op, w.tracker.task;
    var rec := Updated(w.records[op], UpdateFromTask(d, w.ctl.clock));
    PolledRecordTruthful(w);
    RecordWriteKeepsTidy(w, op, rec);
    TrackerKeepsTidy(w.(records := w.records[op := rec]), Polling(w.tracker.todo));
  }

  lemma PolledRecordTruthful(w: World)
    requires WorldInv(w) && Can(w, WritePolled)
    ensures w.tracker.op in w.records
    ensures RecordTruthful(w, w.tracker.op, Updated(w.records[w.tracker.op], UpdateFromTask(w.tracker.task, w.ctl.clock)))
  {
    var op, d := w.tracker.op, w.tracker.task;
    assert SelectedSound(w, op) && Picture(w.ctl, op, d);
    var id :| id in w.ctl.q.heap && w.ctl.q.heap[id].serial == op && Runs.Later(d, w.ctl.q.heap[id]);
    assert RecordTruthful(w, op, w.records[op]);
  }

  lemma WriteStaleKeepsTidy(w: World)
    requires Tidy(w) && Can(w, WriteStale)
    ensures Tidy(Do(w, WriteStale))
  {
    var op := w.tracker.todo[0];
    assert RecordTruthful(w, op, w.records[op]);
    var rec := Updated(w.records[op], UpdateFromAge(w.tracker.now));
    RecordWriteKeepsTidy(w, op, rec);
    TrackerKeepsTidy(w.(records := w.records[op := rec]), Expiring(w.tracker.todo[1..], w.tracker.now));
  }

  predicate IsTrackerMove(m: Move) {
    m.SelectActive? || m.Poll? || m.PollFails? || m.WritePolled? || m.SelectStale? || m.WriteStale? || m.EndCycle?
  }

  lemma TrackerMoveKeepsTidy(w: World, m: Move)
    requires WorldInv(w) && Can(w, m) && IsTrackerMove(m)
    ensures Tidy(Do(w, m))
  {
    if m.SelectActive? { SelectKeepsTidy(w, m.batch, Polling(m.batch)); }
    else if m.SelectStale? { SelectKeepsTidy(w, m.batch, Expiring(m.batch, w.ctl.clock)); }
    else if m.Poll? { PollKeepsTidy(w); }
    else if m.PollFails? { PollFailsKeepsTidy(w); }
    else if m.WritePolled? { WritePolledKeepsTidy(w); }
    else if m.WriteStale? { WriteStaleKeepsTidy(w); }
    else { TrackerKeepsTidy(w, Resting); }
  }

  lemma AnswerKeepsTidy(w: World, call: Call, answer: EnqueueResult)
    requires Tidy(w) && call in w.sent && call.request in w.handlers
    requires answer == Accepted ==> EverAccepted(w.ctl, Strip(w.handlers[call.request].op))
    ensures Tidy(w.(answers := w.answers[call := answer]))
  {
    var w' := w.(answers := w.answers[call := answer]);
    assert forall r | r in w'.handlers :: HandlerSound(w, r, w.handlers[r]);
    assert forall op | op in w'.records :: RecordTruthful(w, op, w.records[op]);
    assert TrackerSound(w');
  }

  lemma DeliverKeepsInv(w: World, call: Call, id: nat, data: TaskData)
    requires WorldInv(w) && Can(w, Deliver(call, id, data))
    ensures WorldInv(Do(w, Deliver(call, id, data)))
  {
    StripIdempotent(w.handlers[call.request].op);
    ControllerMoveKeepsInv(w, Submit(id, data));
    var w1 := w.(ctl := Apply(w.ctl, Submit(id, data)));
    var answer := EnqueueResultOf(w.ctl.q, data.serial);
    if answer == Accepted {
      assert id in w1.ctl.q.heap && w1.ctl.q.heap[id].serial == data.serial;
    }
    AnswerKeepsTidy(w1, call, answer);
  }

  lemma QuietMoveKeepsTidy(w: World, m: Move)
    requires WorldInv(w) && Can(w, m) && !m.Internal? && !m.Deliver?
    ensures Do(w, m).ctl == w.ctl && Tidy(Do(w, m))
  {
    if m.Create? { CreateKeepsTidy(w, m.r); }
    else if m.WriteResult? { WriteResultKeepsTidy(w, m.r); }
    else if IsTrackerMove(m) { TrackerMoveKeepsTidy(w, m); }
    else { HandlerMoveKeepsTidy(w, m); }
  }

  lemma MoveKeepsInv(w: World, m: Move)
    requires WorldInv(w) && Can(w, m)
    ensures WorldInv(Do(w, m))
  {
    if m.Internal? { ControllerMoveKeepsInv(w, m.step); }
    else if m.Deliver? { DeliverKeepsInv(w, m.call, m.id, m.data); }
    else { QuietMoveKeepsTidy(w, m); }
  }

  lemma BeginningInv(now: int)
    ensures WorldInv(Beginning(now))
  {
    InitialInv<nat>(now);
  }

  lemma {:induction false} RunKeepsInv(w: World, run: seq<Move>)
    requires WorldInv(w) && Feasible(w, run)
    ensures WorldInv(Reached(w, run))
    decreases |run|
  {
    if run != [] {
      MoveKeepsInv(w, run[0]);
      RunKeepsInv(Do(w, run[0]), run[1..]);
    }
  }
}
