/** When a record can come to say FAILED although a task of its operation has not ended. */
module OperationsFailures {
  import opened Wrappers
  import opened Sequences
  import opened Whitespace
  import opened Tasks
  import opened Controller
  import opened Operations
  import opened OperationsSafety
  import opened OperationsRuns
  import opened OperationsReach
  import opened OperationsFinal

  /** This task of the operation is queued or being worked on, or was given up there. */
  ghost predicate Unended(w: World, id: nat, op: OpId) {
    id in w.ctl.q.heap && w.ctl.q.heap[id].serial == Strip(op) && !w.ctl.q.heap[id].IsFinished()
  }

  ghost predicate FalselyFailed(w: World, id: nat, op: OpId) {
    Says(w, op, Failed) && Unended(w, id, op)
  }

  /** The request can still come to write FAILED while the task lives: it will be refused as a
      duplicate, or is refused already, or the acceptance it waits for can get lost. */
  predicate MayFail(l: Losses, w: World, r: Request) {
    && r in w.handlers
    && match w.handlers[r].pc
       case Checking => false
       case Creating => true
       case Calling(_, _) => true
       case Waiting(n, _) => Lossy(l) || !(Call(r, n) in w.answers && w.answers[Call(r, n)] == Accepted)
       case Writing(accepted, _, _) => !accepted
       case Done => false
  }

  predicate TrackerFails(w: World, op: OpId) {
    w.tracker.Fetched? && w.tracker.op == op && w.tracker.task.status == Failed
  }

  /** Everything that can make the record of a live task FAILED: that it says so, the tracker about to
      write it of an earlier task, a request that may fail, or a record at which a further request
      would not stop. */
  ghost predicate FailureLooms(l: Losses, w: World, op: OpId) {
    || Says(w, op, Failed) || TrackerFails(w, op) || !BlockedIn(w, op)
    || exists r :: r in w.handlers && w.handlers[r].op == op && MayFail(l, w, r)
  }

  // ---- It can happen ---------------------------------------------------------------------------------

  lemma UnendedMeans(w: World, id: nat, op: OpId)
    requires WorldInv(w) && Unended(w, id, op)
    ensures Strip(op) != "" && EnqueueResultOf(w.ctl.q, Strip(op)) == DuplicateSerial
    ensures Strip(op) in w.ctl.q.tasks && w.ctl.q.tasks[Strip(op)] == id
  {
  }

  lemma VerdictFails(l: Losses, w0: World, w: World, r: Request, id: nat) returns (v: World)
    requires Leads(l, w0, w) && WorldInv(w) && r in w.handlers && w.handlers[r].pc.Writing? && !w.handlers[r].pc.accepted
    requires Unended(w, id, w.handlers[r].op)
    ensures Leads(l, w0, v) && FalselyFailed(v, id, w.handlers[r].op)
  {
    assert HandlerSound(w, r, w.handlers[r]);
    LeadsOn(l, w0, w, WriteResult(r));
    v := Do(w, WriteResult(r));
  }

  lemma RefusalFails(l: Losses, w0: World, w: World, r: Request, id: nat) returns (v: World)
    requires WorldInv(w0) && Leads(l, w0, w) && r in w.handlers && w.handlers[r].pc.Waiting?
    requires Call(r, w.handlers[r].pc.attempt) in w.answers && w.answers[Call(r, w.handlers[r].pc.attempt)] != Accepted
    requires Unended(w, id, w.handlers[r].op)
    ensures Leads(l, w0, v) && FalselyFailed(v, id, w.handlers[r].op)
  {
    LeadsOn(l, w0, w, GetReply(r));
    var w1 := Do(w, GetReply(r));
    LeadsKeepsInv(l, w0, w1);
    v := VerdictFails(l, w0, w1, r, id);
  }

  lemma UnansweredFails(l: Losses, w0: World, w: World, r: Request, id: nat) returns (v: World)
    requires WorldInv(w0) && Leads(l, w0, w) && r in w.handlers && w.handlers[r].pc.Waiting? && CallsCounted(w, r)
    requires Call(r, w.handlers[r].pc.attempt) !in w.answers && Unended(w, id, w.handlers[r].op)
    ensures Leads(l, w0, v) && FalselyFailed(v, id, w.handlers[r].op)
  {
    LeadsKeepsInv(l, w0, w);
    UnendedMeans(w, id, w.handlers[r].op);
    var w1, other := CanBeDelivered(l, w0, w, Call(r, w.handlers[r].pc.attempt));
    v := RefusalFails(l, w0, w1, r, id);
  }

  lemma JustSent(w: World, r: Request)
    requires CallsSound(w) && r in w.handlers && w.handlers[r].pc.Calling? && CallsCounted(w, r)
    ensures var v := Do(w, Send(r));
            && v.ctl == w.ctl && r in v.handlers && v.handlers[r] == Handler(w.handlers[r].op, Waiting(w.handlers[r].pc.attempt, w.handlers[r].pc.startedAt))
            && Call(r, w.handlers[r].pc.attempt) !in v.answers && CallsCounted(v, r)
  {
  }

  lemma CallFails(l: Losses, w0: World, w: World, r: Request, id: nat) returns (v: World)
    requires WorldInv(w0) && Leads(l, w0, w) && r in w.handlers && w.handlers[r].pc.Calling? && CallsCounted(w, r)
    requires Unended(w, id, w.handlers[r].op)
    ensures Leads(l, w0, v) && FalselyFailed(v, id, w.handlers[r].op)
  {
    LeadsKeepsInv(l, w0, w);
    JustSent(w, r);
    LeadsOn(l, w0, w, Send(r));
    v := UnansweredFails(l, w0, Do(w, Send(r)), r, id);
  }

  lemma CreatingFails(l: Losses, w0: World, w: World, r: Request, id: nat) returns (v: World)
    requires WorldInv(w0) && Leads(l, w0, w) && r in w.handlers && w.handlers[r].pc.Creating? && CallsCounted(w, r)
    requires Unended(w, id, w.handlers[r].op)
    ensures Leads(l, w0, v) && FalselyFailed(v, id, w.handlers[r].op)
  {
    LeadsOn(l, w0, w, Create(r));
    v := CallFails(l, w0, Do(w, Create(r)), r, id);
  }

  /** An acceptance that gets lost: a failure reply is written at once, an exception leads to another
      call, which is refused, or to the last verdict. */
  lemma LossFails(l: Losses, w0: World, w: World, r: Request, id: nat) returns (v: World)
    requires WorldInv(w0) && Leads(l, w0, w) && Lossy(l) && r in w.handlers && w.handlers[r].pc.Waiting? && CallsCounted(w, r)
    requires Unended(w, id, w.handlers[r].op)
    ensures Leads(l, w0, v) && FalselyFailed(v, id, w.handlers[r].op)
  {
    var m := if l.failures then GetFailureReply(r) else GetException(r);
    LeadsOn(l, w0, w, m);
    var w1 := Do(w, m);
    if w1.handlers[r].pc.Calling? {
      v := CallFails(l, w0, w1, r, id);
    } else {
      LeadsKeepsInv(l, w0, w1);
      v := VerdictFails(l, w0, w1, r, id);
    }
  }

  lemma RequestFails(l: Losses, w0: World, w: World, r: Request, id: nat) returns (v: World)
    requires WorldInv(w0) && Leads(l, w0, w) && MayFail(l, w, r) && CallsCounted(w, r)
    requires Unended(w, id, w.handlers[r].op)
    ensures Leads(l, w0, v) && FalselyFailed(v, id, w.handlers[r].op)
  {
    match w.handlers[r].pc
    case Creating => v := CreatingFails(l, w0, w, r, id);
    case Calling(_, _) => v := CallFails(l, w0, w, r, id);
    case Waiting(n, _) =>
      if Call(r, n) !in w.answers {
        v := UnansweredFails(l, w0, w, r, id);
      } else if w.answers[Call(r, n)] != Accepted {
        v := RefusalFails(l, w0, w, r, id);
      } else {
        v := LossFails(l, w0, w, r, id);
      }
    case Writing(_, _, _) =>
      LeadsKeepsInv(l, w0, w);
      v := VerdictFails(l, w0, w, r, id);
  }

  /** At a record that stops nobody, a further request comes to call. */
  lemma NewcomerFails(l: Losses, w: World, id: nat, op: OpId) returns (v: World)
    requires WorldInv(w) && Counted(w) && Unended(w, id, op) && !BlockedIn(w, op)
    ensures Leads(l, w, v) && FalselyFailed(v, id, op)
  {
    UnendedMeans(w, id, op);
    var r := AboveAll(w.handlers.Keys);
    LeadsNowhere(l, w);
    LeadsOn(l, w, w, Arrive(r, op));
    var w1 := Do(w, Arrive(r, op));
    LeadsOn(l, w, w1, Check(r));
    var w2 := Do(w1, Check(r));
    NoCallsYet(w, r);
    if w2.handlers[r].pc.Creating? {
      v := CreatingFails(l, w, w2, r, id);
    } else {
      v := CallFails(l, w, w2, r, id);
    }
  }

  lemma NoCallsYet(w: World, r: Request)
    requires CallsSound(w) && r !in w.handlers
    ensures forall call | call in w.sent :: call.request != r
  {
  }

  // ---- Otherwise it does not --------------------------------------------------------------------------

  lemma UnendedBefore(w: World, m: Move, id: nat, op: OpId)
    requires WorldInv(w) && Can(w, m) && id in w.ctl.q.heap && Unended(Do(w, m), id, op)
    ensures Unended(w, id, op)
  {
    MoveGrows(w, m);
  }

  lemma UntilUnended(w: World, run: seq<Move>, id: nat, op: OpId)
    requires WorldInv(w) && Feasible(w, run) && id in w.ctl.q.heap && Unended(Reached(w, run), id, op)
    ensures Unended(w, id, op)
  {
    RunGrows(w, run);
  }

  /** A poll finds the live task, if it finds one at all. */
  lemma PollDoesNotFail(w: World, id: nat, op: OpId)
    requires WorldInv(w) && Can(w, Poll) && Unended(w, id, op)
    ensures !TrackerFails(Do(w, Poll), op)
  {
    UnendedMeans(w, id, op);
    if !Pollable(op) { UnpolledId(w, op); }
  }

  lemma OtherwiseUnfetched(w: World, m: Move, op: OpId)
    requires Can(w, m) && !m.Poll? && !TrackerFails(w, op)
    ensures !TrackerFails(Do(w, m), op)
  {
  }

  lemma TrackerStaysFine(w: World, m: Move, id: nat, op: OpId)
    requires WorldInv(w) && Can(w, m) && Unended(w, id, op) && !TrackerFails(w, op)
    ensures !TrackerFails(Do(w, m), op)
  {
    if m.Poll? { PollDoesNotFail(w, id, op); } else { OtherwiseUnfetched(w, m, op); }
  }

  lemma RecordStaysFine(l: Losses, w: World, m: Move, id: nat, op: OpId)
    requires WorldInv(w) && Can(w, m) && !FailureLooms(l, w, op)
    ensures !Says(Do(w, m), op, Failed)
  {
    if m.WriteResult? {
      assert w.handlers[m.r].op == op ==> !MayFail(l, w, m.r);
    } else if m.Create? || m.WritePolled? || m.WriteStale? {
      OtherWriteFine(w, m, op);
    } else {
      QuietRecords(w, m);
    }
  }

  lemma OtherWriteFine(w: World, m: Move, op: OpId)
    requires Can(w, m) && BlockedIn(w, op) && !Says(w, op, Failed) && !TrackerFails(w, op)
    requires m.Create? || m.WritePolled? || m.WriteStale?
    ensures !Says(Do(w, m), op, Failed)
  {
  }

  lemma OwnMoveStaysFine(l: Losses, w: World, m: Move, r: Request)
    requires CallsSound(w) && Can(w, m) && Allows(l, m) && RequestOf(m) == Some(r) && !MayFail(l, w, r)
    requires r in w.handlers && w.handlers[r].pc.Checking? ==> BlockedIn(w, w.handlers[r].op)
    ensures !MayFail(l, Do(w, m), r)
  {
  }

  lemma SameStaysFine(l: Losses, w: World, w': World, r: Request)
    requires SameFor(w, w', r) && !MayFail(l, w, r)
    ensures !MayFail(l, w', r)
  {
  }

  lemma MoveStaysFine(l: Losses, w: World, m: Move, id: nat, op: OpId)
    requires WorldInv(w) && Can(w, m) && Allows(l, m) && Unended(w, id, op) && !FailureLooms(l, w, op)
    ensures !FailureLooms(l, Do(w, m), op)
  {
    var v := Do(w, m);
    RecordStaysFine(l, w, m, id, op);
    TrackerStaysFine(w, m, id, op);
    MoveKeepsBlocked(w, m, op);
    forall r | r in v.handlers && v.handlers[r].op == op ensures !MayFail(l, v, r) {
      if RequestOf(m) == Some(r) {
        if r in w.handlers { OwnMoveKeepsOp(w, m, r); }
        OwnMoveStaysFine(l, w, m, r);
      } else {
        HandlersGrow(w, m, r);
        OthersStaySame(w, m, r);
        SameStaysFine(l, w, v, r);
      }
    }
  }

  lemma {:induction false} FineForEver(l: Losses, w: World, run: seq<Move>, id: nat, op: OpId)
    requires WorldInv(w) && Feasible(w, run) && Within(l, run) && !FailureLooms(l, w, op)
    requires id in w.ctl.q.heap && Unended(Reached(w, run), id, op)
    ensures !Says(Reached(w, run), op, Failed)
    decreases |run|
  {
    UntilUnended(w, run, id, op);
    if run != [] {
      assert Allows(l, run[0]) && Within(l, run[1..]);
      MoveStaysFine(l, w, run[0], id, op);
      MoveGrows(w, run[0]);
      MoveKeepsInv(w, run[0]);
      FineForEver(l, Do(w, run[0]), run[1..], id, op);
    }
  }

  // ---- Exactly when -------------------------------------------------------------------------------------

  /** Whatever may get lost, and in particular when nothing does: the record of an operation whose task
      has not ended can come to say FAILED with that task still not ended, exactly when failure looms. */
  lemma FalselyFailedExactlyWhen(l: Losses, w: World, id: nat, op: OpId)
    requires WorldInv(w) && Counted(w) && Unended(w, id, op)
    ensures (exists v :: Leads(l, w, v) && FalselyFailed(v, id, op)) <==> FailureLooms(l, w, op)
  {
    if FailureLooms(l, w, op) {
      var v := CanFailFalsely(l, w, id, op);
    } else {
      forall v | Leads(l, w, v) ensures !FalselyFailed(v, id, op) {
        var run :| Feasible(w, run) && Within(l, run) && Reached(w, run) == v;
        if Unended(v, id, op) { FineForEver(l, w, run, id, op); }
      }
    }
  }

  lemma CanFailFalsely(l: Losses, w: World, id: nat, op: OpId) returns (v: World)
    requires WorldInv(w) && Counted(w) && Unended(w, id, op) && FailureLooms(l, w, op)
    ensures Leads(l, w, v) && FalselyFailed(v, id, op)
  {
    LeadsNowhere(l, w);
    if Says(w, op, Failed) {
      v := w;
    } else if TrackerFails(w, op) {
      assert SelectedSound(w, op);
      LeadsOn(l, w, w, WritePolled);
      v := Do(w, WritePolled);
    } else if !BlockedIn(w, op) {
      v := NewcomerFails(l, w, id, op);
    } else {
      var r :| r in w.handlers && w.handlers[r].op == op && MayFail(l, w, r);
      assert CallsCounted(w, r);
      v := RequestFails(l, w, w, r, id);
    }
  }
}
