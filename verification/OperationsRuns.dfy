/** Theorems about whole runs of the service-operation protocol. */
module OperationsRuns {
  import opened Wrappers
  import opened Whitespace
  import opened Tasks
  import opened Controller
  import Runs = ControllerRuns
  import opened Operations
  import opened OperationsSafety

  // ---- What holds in every reachable world --------------------------------------------------

  /** However requests, retries, lost and late messages, other clients, worker and tracker
      interleave: at most one task of an operation is live, and when controllersrv would accept the
      operation, every earlier task of it has ended and been released. */
  lemma OneLiveTaskPerOperation(now: int, run: seq<Move>, op: OpId)
    requires Feasible(Beginning(now), run)
    ensures var c := Reached(Beginning(now), run).ctl;
            && (forall a, b | a in c.q.heap && b in c.q.heap ::
                  c.q.heap[a].serial == c.q.heap[b].serial == Strip(op) && Runs.Live(c, a) && Runs.Live(c, b) ==> a == b)
            && (EnqueueResultOf(c.q, Strip(op)) == Accepted ==>
                  forall a | a in c.q.heap :: c.q.heap[a].serial == Strip(op) ==>
                    c.q.heap[a].IsFinished() && !c.Window(a) && a !in c.q.queue)
  {
    BeginningInv(now);
    RunKeepsInv(Beginning(now), run);
    Runs.OneLiveTaskPerSerial(Reached(Beginning(now), run).ctl, []);
  }

  /** A record never claims more than happened: SUCCESS only when a task of that very operation
      succeeded, RUNNING only when one was accepted; and a terminal record has its end time. */
  lemma RecordsTellTheTruth(now: int, run: seq<Move>, op: OpId)
    requires Feasible(Beginning(now), run) && op in Reached(Beginning(now), run).records
    ensures var w := Reached(Beginning(now), run); var r := w.records[op];
            && (r.status == Success ==> exists id :: id in w.ctl.q.heap && w.ctl.q.heap[id].serial == op && w.ctl.q.heap[id].status == Success)
            && (r.status == Running ==> exists id :: id in w.ctl.q.heap && w.ctl.q.heap[id].serial == Strip(op))
            && (!r.Active() ==> r.completedAt.Some?)
            && (r.status != Pending && r.status != Timeout ==> r.startedAt.Some?)
  {
    BeginningInv(now);
    RunKeepsInv(Beginning(now), run);
    var w := Reached(Beginning(now), run);
    assert RecordTruthful(w, op, w.records[op]);
  }

  /** An operation id with surrounding white space is stripped on the way to controllersrv but not
      when it is polled: such an operation is never reported as a success. */
  lemma PaddedIdNeverSucceeds(now: int, run: seq<Move>, op: OpId)
    requires Feasible(Beginning(now), run) && Strip(op) != op
    ensures var w := Reached(Beginning(now), run);
            op !in w.ctl.q.tasks && (op in w.records ==> w.records[op].status != Success)
  {
    BeginningInv(now);
    RunKeepsInv(Beginning(now), run);
    var w := Reached(Beginning(now), run);
    if op in w.records && w.records[op].status == Success {
      RecordsTellTheTruth(now, run, op);
    }
  }

  /** One request makes at most three calls. */
  lemma CallsPerRequest(now: int, run: seq<Move>, r: Request)
    requires Feasible(Beginning(now), run)
    ensures |set call | call in Reached(Beginning(now), run).sent && call.request == r| <= DISPATCH_RETRIES
  {
    BeginningInv(now);
    RunKeepsInv(Beginning(now), run);
    var made := set call | call in Reached(Beginning(now), run).sent && call.request == r;
    var most := {Call(r, 1), Call(r, 2), Call(r, 3)};
    assert made <= most;
    SubsetIsSmaller(made, most);
    SubsetIsSmaller(most, {Call(r, 1)} + {Call(r, 2)} + {Call(r, 3)});
  }

  lemma {:induction false} SubsetIsSmaller<T>(a: set<T>, b: set<T>)
    requires a <= b
    ensures |a| <= |b|
    decreases a
  {
    if a != {} {
      var x :| x in a;
      SubsetIsSmaller(a - {x}, b - {x});
    }
  }

  // ---- Once blocked, always blocked ----------------------------------------------------------

  ghost predicate BlockedIn(w: World, op: OpId) {
    op in w.records && w.records[op].Blocked()
  }

  /** A request that has not yet looked at its record, or is over, and has made no call. */
  ghost predicate Silent(w: World, r: Request) {
    && r in w.handlers && (w.handlers[r].pc.Checking? || w.handlers[r].pc.Done?)
    && forall call | call in w.sent :: call.request != r
  }

  /** The request whose handling goes on with a move. */
  function RequestOf(m: Move): Option<Request> {
    match m
    case Arrive(r, _) => Some(r)
    case Check(r) => Some(r)
    case Create(r) => Some(r)
    case CreateFails(r) => Some(r)
    case Send(r) => Some(r)
    case GetReply(r) => Some(r)
    case GetFailureReply(r) => Some(r)
    case GetException(r) => Some(r)
    case WriteResult(r) => Some(r)
    case WriteFails(r) => Some(r)
    case _ => None
  }

  /** Nothing has happened to a request, except that one of its calls may have been answered. */
  ghost predicate SameFor(w: World, w': World, r: Request) {
    && r in w.handlers && r in w'.handlers && w'.handlers[r] == w.handlers[r]
    && forall call: Operations.Call | call.request == r ::
         && (call in w'.sent <==> call in w.sent)
         && (call in w.answers ==> call in w'.answers && w'.answers[call] == w.answers[call])
  }

  lemma OthersStaySame(w: World, m: Move, r: Request)
    requires Can(w, m) && r in w.handlers && RequestOf(m) != Some(r)
    ensures SameFor(w, Do(w, m), r)
  {
    OthersHandled(w, m, r);
    OthersCalls(w, m, r);
  }

  lemma OthersHandled(w: World, m: Move, r: Request)
    requires Can(w, m) && r in w.handlers && RequestOf(m) != Some(r)
    ensures r in Do(w, m).handlers && Do(w, m).handlers[r] == w.handlers[r]
  {
  }

  lemma OthersCalls(w: World, m: Move, r: Request)
    requires Can(w, m) && r in w.handlers && RequestOf(m) != Some(r)
    ensures forall call: Operations.Call | call.request == r ::
      && (call in Do(w, m).sent <==> call in w.sent)
      && (call in w.answers ==> call in Do(w, m).answers && Do(w, m).answers[call] == w.answers[call])
  {
  }

  lemma MoveKeepsBlocked(w: World, m: Move, op: OpId)
    requires Tidy(w) && Can(w, m) && BlockedIn(w, op)
    ensures BlockedIn(Do(w, m), op)
  {
    if m.WritePolled? {
      if w.tracker.op == op { PolledStaysBlocked(w, op); }
    } else if m.Create? || m.WriteResult? || m.WriteStale? {
      WriteKeepsBlocked(w, m, op);
    } else {
      QuietRecords(w, m);
    }
  }

  lemma WriteKeepsBlocked(w: World, m: Move, op: OpId)
    requires Can(w, m) && BlockedIn(w, op) && (m.Create? || m.WriteResult? || m.WriteStale?)
    ensures BlockedIn(Do(w, m), op)
  {
  }

  lemma PolledStaysBlocked(w: World, op: OpId)
    requires Tidy(w) && w.tracker.Fetched? && w.tracker.op == op && BlockedIn(w, op)
    ensures Updated(w.records[op], UpdateFromTask(w.tracker.task, w.ctl.clock)).Blocked()
  {
    assert RecordTruthful(w, op, w.records[op]) && SelectedSound(w, op);
  }

  lemma QuietRecords(w: World, m: Move)
    requires Can(w, m) && !m.Create? && !m.WriteResult? && !m.WritePolled? && !m.WriteStale?
    ensures Do(w, m).records == w.records
  {
  }

  lemma MoveKeepsSilent(w: World, m: Move, r: Request)
    requires Can(w, m) && Silent(w, r) && BlockedIn(w, w.handlers[r].op)
    ensures Silent(Do(w, m), r) && Do(w, m).handlers[r].op == w.handlers[r].op
  {
    if RequestOf(m) != Some(r) { OthersStaySame(w, m, r); }
  }

  /** A record that has left PENDING, or has a start time, stays so for ever; and no request that
      looks at it afterwards ever makes a call. */
  lemma {:induction false} BlockedForEver(w: World, run: seq<Move>, r: Request)
    requires WorldInv(w) && Feasible(w, run) && Silent(w, r) && BlockedIn(w, w.handlers[r].op)
    ensures var v := Reached(w, run);
            && r in v.handlers && v.handlers[r].op == w.handlers[r].op
            && BlockedIn(v, w.handlers[r].op)
            && forall call | call in v.sent :: call.request != r
    decreases |run|
  {
    if run != [] {
      MoveKeepsBlocked(w, run[0], w.handlers[r].op);
      MoveKeepsSilent(w, run[0], r);
      MoveKeepsInv(w, run[0]);
      BlockedForEver(Do(w, run[0]), run[1..], r);
    }
  }

  // ---- Settled records ------------------------------------------------------------------------

  ghost predicate InFlight(w: World, op: OpId) {
    exists r :: r in w.handlers && w.handlers[r].op == op && !w.handlers[r].pc.Checking? && !w.handlers[r].pc.Done?
  }

  /** A terminal record with no request past its check and no pending tracker write. */
  ghost predicate Settled(w: World, op: OpId) {
    op in w.records && !w.records[op].Active() && !InFlight(w, op) && !w.tracker.Busy(op)
  }

  lemma MoveKeepsSettled(w: World, m: Move, op: OpId)
    requires Can(w, m) && Settled(w, op)
    ensures Settled(Do(w, m), op) && Do(w, m).records[op] == w.records[op]
  {
    SettledRecord(w, m, op);
    SettledTracker(w, m, op);
    var w' := Do(w, m);
    forall r | r in w'.handlers && w'.handlers[r].op == op ensures w'.handlers[r].pc.Checking? || w'.handlers[r].pc.Done? {
      SettledHandler(w, m, op, r);
    }
  }

  lemma SettledRecord(w: World, m: Move, op: OpId)
    requires Can(w, m) && Settled(w, op)
    ensures op in Do(w, m).records && Do(w, m).records[op] == w.records[op]
  {
    if !m.Create? && !m.WriteResult? && !m.WritePolled? && !m.WriteStale? { QuietRecords(w, m); }
  }

  lemma SettledTracker(w: World, m: Move, op: OpId)
    requires Can(w, m) && Settled(w, op)
    ensures !Do(w, m).tracker.Busy(op)
  {
  }

  lemma SettledHandler(w: World, m: Move, op: OpId, r: Request)
    requires Can(w, m) && Settled(w, op) && r in Do(w, m).handlers && Do(w, m).handlers[r].op == op
    ensures Do(w, m).handlers[r].pc.Checking? || Do(w, m).handlers[r].pc.Done?
  {
    if r in w.handlers && RequestOf(m) != Some(r) { OthersStaySame(w, m, r); }
  }

  /** A settled record never changes again, whatever requests, controllersrv and tracker do. */
  lemma {:induction false} SettledForEver(w: World, run: seq<Move>, op: OpId)
    requires Feasible(w, run) && Settled(w, op)
    ensures Settled(Reached(w, run), op) && Reached(w, run).records[op] == w.records[op]
    decreases |run|
  {
    if run != [] {
      MoveKeepsSettled(w, run[0], op);
      SettledForEver(Do(w, run[0]), run[1..], op);
    }
  }

  lemma {:induction false} RunGrows(w: World, run: seq<Move>)
    requires WorldInv(w) && Feasible(w, run)
    ensures Grown(w.ctl, Reached(w, run).ctl)
    decreases |run|
  {
    if run == [] {
      assert forall id | id in w.ctl.q.heap :: Runs.Later(w.ctl.q.heap[id], w.ctl.q.heap[id]);
    } else {
      var w1 := Do(w, run[0]);
      MoveKeepsInv(w, run[0]);
      RunGrows(w1, run[1..]);
      MoveGrows(w, run[0]);
      GrowsOn(w.ctl, w1.ctl, Reached(w1, run[1..]).ctl);
    }
  }

  lemma GrowsOn(c0: State<nat>, c1: State<nat>, c2: State<nat>)
    requires Grown(c0, c1) && Grown(c1, c2)
    ensures Grown(c0, c2)
  {
  }

  lemma MoveGrows(w: World, m: Move)
    requires WorldInv(w) && Can(w, m)
    ensures Grown(w.ctl, Do(w, m).ctl)
  {
    if m.Internal? {
      StepGrows(w.ctl, m.step);
    } else if m.Deliver? {
      StepGrows(w.ctl, Submit(m.id, m.data));
    } else {
      QuietMoveKeepsTidy(w, m);
    }
  }

  // ---- Verdicts and lost replies ------------------------------------------------------------------

  /** A request none of whose replies has been lost. */
  ghost predicate NothingLost(w: World, r: Request) {
    && r in w.handlers
    && (forall call | call in w.sent && call.request == r :: call.attempt == 1)
    && match w.handlers[r].pc
       case Checking => Call(r, 1) !in w.sent
       case Creating => Call(r, 1) !in w.sent
       case Calling(n, _) => n == 1 && Call(r, 1) !in w.sent
       case Waiting(n, _) => n == 1 && Call(r, 1) in w.sent
       case Writing(accepted, _, _) => Call(r, 1) in w.answers && (accepted <==> w.answers[Call(r, 1)] == Accepted)
       case Done => Call(r, 1) in w.sent ==> Call(r, 1) in w.answers
  }

  predicate Loses(m: Move, r: Request) {
    m == GetFailureReply(r) || m == GetException(r)
  }

  lemma MoveKeepsNothingLost(w: World, m: Move, r: Request)
    requires CallsSound(w) && Can(w, m) && NothingLost(w, r) && !Loses(m, r)
    ensures NothingLost(Do(w, m), r)
  {
    if RequestOf(m) == Some(r) {
      OwnMoveLosesNothing(w, m, r);
    } else {
      OthersStaySame(w, m, r);
      SameLosesNothing(w, Do(w, m), r);
    }
  }

  lemma OwnMoveLosesNothing(w: World, m: Move, r: Request)
    requires CallsSound(w) && Can(w, m) && NothingLost(w, r) && !Loses(m, r) && RequestOf(m) == Some(r)
    ensures NothingLost(Do(w, m), r)
  {
  }

  lemma SameLosesNothing(w: World, w': World, r: Request)
    requires NothingLost(w, r) && SameFor(w, w', r)
    ensures NothingLost(w', r)
  {
  }

  /** As long as no reply is lost, a request makes one call only, and its verdict is exact:
      RUNNING is written if and only if controllersrv accepted the task. */
  lemma {:induction false} VerdictExactWhenNothingLost(w: World, run: seq<Move>, r: Request)
    requires WorldInv(w) && Feasible(w, run) && NothingLost(w, r)
    requires forall i | 0 <= i < |run| :: !Loses(run[i], r)
    ensures var v := Reached(w, run);
            && NothingLost(v, r)
            && (v.handlers[r].pc.Writing? ==>
                  (v.handlers[r].pc.accepted <==> Call(r, 1) in v.answers && v.answers[Call(r, 1)] == Accepted))
    decreases |run|
  {
    if run != [] {
      MoveKeepsNothingLost(w, run[0], r);
      MoveKeepsInv(w, run[0]);
      VerdictExactWhenNothingLost(Do(w, run[0]), run[1..], r);
    }
  }

  /** The guard is needed: whenever the reply to an accepted call turns into a failure reply (which is
      how the client reports a lost connection), the record becomes FAILED although the task is
      there; and if this was the only request in flight and the tracker is not on the record, it says
      FAILED for ever, whatever becomes of the task. */
  lemma LostAcceptanceIsFinal(w: World, r: Request, run: seq<Move>)
    requires WorldInv(w) && r in w.handlers && w.handlers[r].pc.Waiting?
    requires Call(r, w.handlers[r].pc.attempt) in w.answers && w.answers[Call(r, w.handlers[r].pc.attempt)] == Accepted
    requires !w.tracker.Busy(w.handlers[r].op)
    requires forall x | x in w.handlers && w.handlers[x].op == w.handlers[r].op && x != r :: w.handlers[x].pc.Checking? || w.handlers[x].pc.Done?
    requires Feasible(Do(Do(w, GetFailureReply(r)), WriteResult(r)), run)
    ensures var v := Reached(Do(Do(w, GetFailureReply(r)), WriteResult(r)), run); var op := w.handlers[r].op;
            && EverAccepted(v.ctl, Strip(op))
            && op in v.records && v.records[op].status == Failed
  {
    var op := w.handlers[r].op;
    var written := Do(Do(w, GetFailureReply(r)), WriteResult(r));
    MoveKeepsInv(w, GetFailureReply(r));
    MoveKeepsInv(Do(w, GetFailureReply(r)), WriteResult(r));
    LostAcceptanceWritten(w, r);
    SettledForEver(written, run, op);
    RunGrows(written, run);
    GrownKeepsEvidence(written.ctl, Reached(written, run).ctl, Strip(op));
  }

  lemma LostAcceptanceWritten(w: World, r: Request)
    requires WorldInv(w) && r in w.handlers && w.handlers[r].pc.Waiting?
    requires Call(r, w.handlers[r].pc.attempt) in w.answers && w.answers[Call(r, w.handlers[r].pc.attempt)] == Accepted
    requires !w.tracker.Busy(w.handlers[r].op)
    requires forall x | x in w.handlers && w.handlers[x].op == w.handlers[r].op && x != r :: w.handlers[x].pc.Checking? || w.handlers[x].pc.Done?
    ensures var v := Do(Do(w, GetFailureReply(r)), WriteResult(r)); var op := w.handlers[r].op;
            Settled(v, op) && v.records[op].status == Failed && EverAccepted(v.ctl, Strip(op))
  {
    assert HandlerSound(w, r, w.handlers[r]);
    var v := Do(Do(w, GetFailureReply(r)), WriteResult(r));
    forall x | x in v.handlers && v.handlers[x].op == w.handlers[r].op ensures v.handlers[x].pc.Checking? || v.handlers[x].pc.Done? {
      assert v.handlers[x].op == w.handlers[x].op;
    }
  }
}
