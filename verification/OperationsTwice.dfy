/** When controllersrv can accept a call of a request that it has not accepted so far: for a request
    already accepted once, when it can be executed twice. */
module OperationsTwice {
  import opened Wrappers
  import opened Whitespace
  import opened Controller
  import opened Operations
  import opened OperationsSafety
  import opened OperationsRuns
  import opened OperationsReach
  import opened OperationsFinal

  ghost predicate AcceptedCall(w: World, call: Operations.Call) {
    call in w.answers && w.answers[call] == Accepted
  }

  /** A call of the request is still under way, whether or not the request still waits for it. */
  ghost predicate Outstanding(w: World, r: Request) {
    exists call :: call in w.sent && call.request == r && call !in w.answers
  }

  /** The request can come to make another call. */
  predicate CanCall(l: Losses, w: World, r: Request) {
    && r in w.handlers
    && match w.handlers[r].pc
       case Checking => !(w.handlers[r].op in w.records && w.records[w.handlers[r].op].Blocked())
       case Creating => true
       case Calling(_, _) => true
       case Waiting(n, _) => l.exceptions && n < DISPATCH_RETRIES
       case Writing(_, _, _) => false
       case Done => false
  }

  ghost predicate AgainPossible(l: Losses, w: World, r: Request) {
    r in w.handlers && Acceptable(w.ctl, w.handlers[r].op) && (Outstanding(w, r) || CanCall(l, w, r))
  }

  /** A call that has not been accepted in `w` is accepted in `v`. */
  ghost predicate AcceptedSince(w: World, v: World, r: Request) {
    exists call: Operations.Call :: call.request == r && AcceptedCall(v, call) && !AcceptedCall(w, call)
  }

  // ---- It can happen ---------------------------------------------------------------------------------

  lemma OutstandingCanBeAccepted(l: Losses, w0: World, w: World, r: Request) returns (v: World, call: Operations.Call)
    requires WorldInv(w0) && Leads(l, w0, w) && r in w.handlers && Acceptable(w.ctl, w.handlers[r].op) && Outstanding(w, r)
    ensures Leads(l, w0, v) && call.request == r && call !in w.answers && AcceptedCall(v, call)
  {
    LeadsKeepsInv(l, w0, w);
    call :| call in w.sent && call.request == r && call !in w.answers;
    var w1 := SerialCanBeFreed(l, w0, w, Strip(w.handlers[r].op));
    var id;
    v, id := CanBeDelivered(l, w0, w1, call);
  }

  lemma NextCallAccepted(l: Losses, w0: World, w: World, r: Request) returns (v: World, call: Operations.Call)
    requires WorldInv(w0) && Leads(l, w0, w) && r in w.handlers && w.handlers[r].pc.Calling? && CallsCounted(w, r)
    requires Acceptable(w.ctl, w.handlers[r].op)
    ensures Leads(l, w0, v) && call.request == r && call !in w.answers && AcceptedCall(v, call)
  {
    LeadsKeepsInv(l, w0, w);
    LeadsOn(l, w0, w, Send(r));
    var w1 := Do(w, Send(r));
    var next := Call(r, w.handlers[r].pc.attempt);
    assert next !in w.sent && next in w1.sent && next !in w1.answers;
    v, call := OutstandingCanBeAccepted(l, w0, w1, r);
  }

  lemma CreatedAccepted(l: Losses, w0: World, w: World, r: Request) returns (v: World, call: Operations.Call)
    requires WorldInv(w0) && Leads(l, w0, w) && r in w.handlers && w.handlers[r].pc.Creating? && CallsCounted(w, r)
    requires Acceptable(w.ctl, w.handlers[r].op)
    ensures Leads(l, w0, v) && call.request == r && call !in w.answers && AcceptedCall(v, call)
  {
    LeadsOn(l, w0, w, Create(r));
    v, call := NextCallAccepted(l, w0, Do(w, Create(r)), r);
  }

  lemma CheckedAccepted(l: Losses, w0: World, w: World, r: Request) returns (v: World, call: Operations.Call)
    requires WorldInv(w0) && Leads(l, w0, w) && r in w.handlers && w.handlers[r].pc.Checking? && CallsCounted(w, r)
    requires Acceptable(w.ctl, w.handlers[r].op) && CanCall(l, w, r)
    ensures Leads(l, w0, v) && call.request == r && call !in w.answers && AcceptedCall(v, call)
  {
    LeadsOn(l, w0, w, Check(r));
    var w1 := Do(w, Check(r));
    if w1.handlers[r].pc.Creating? {
      v, call := CreatedAccepted(l, w0, w1, r);
    } else {
      v, call := NextCallAccepted(l, w0, w1, r);
    }
  }

  lemma RetryAccepted(l: Losses, w0: World, w: World, r: Request) returns (v: World, call: Operations.Call)
    requires WorldInv(w0) && Leads(l, w0, w) && l.exceptions && r in w.handlers && w.handlers[r].pc.Waiting? && CallsCounted(w, r)
    requires Acceptable(w.ctl, w.handlers[r].op) && w.handlers[r].pc.attempt < DISPATCH_RETRIES
    ensures Leads(l, w0, v) && call.request == r && call !in w.answers && AcceptedCall(v, call)
  {
    LeadsOn(l, w0, w, GetException(r));
    v, call := NextCallAccepted(l, w0, Do(w, GetException(r)), r);
  }

  lemma CanBeAcceptedAgain(l: Losses, w: World, r: Request) returns (v: World)
    requires WorldInv(w) && Counted(w) && AgainPossible(l, w, r)
    ensures Leads(l, w, v) && AcceptedSince(w, v, r)
  {
    LeadsNowhere(l, w);
    assert CallsCounted(w, r);
    var call;
    if Outstanding(w, r) {
      v, call := OutstandingCanBeAccepted(l, w, w, r);
    } else {
      match w.handlers[r].pc
      case Checking => v, call := CheckedAccepted(l, w, w, r);
      case Creating => v, call := CreatedAccepted(l, w, w, r);
      case Calling(_, _) => v, call := NextCallAccepted(l, w, w, r);
      case Waiting(_, _) => v, call := RetryAccepted(l, w, w, r);
    }
    assert call.request == r && AcceptedCall(v, call) && !AcceptedCall(w, call);
  }

  // ---- Otherwise it does not --------------------------------------------------------------------------

  lemma NoNewAcceptance(l: Losses, w: World, m: Move, r: Request)
    requires WorldInv(w) && Can(w, m) && r in w.handlers && !AgainPossible(l, w, r)
    ensures !AcceptedSince(w, Do(w, m), r)
  {
    forall call: Operations.Call | call.request == r && AcceptedCall(Do(w, m), call) ensures AcceptedCall(w, call) {
      if call in w.answers {
        AnswersStay(w, m, call);
      } else {
        NewAnswer(w, m, call);
        assert Outstanding(w, r);
        TakenMeansDuplicate(w.ctl, Strip(w.handlers[r].op));
      }
    }
  }

  lemma AnswersStay(w: World, m: Move, call: Operations.Call)
    requires Can(w, m) && call in w.answers
    ensures call in Do(w, m).answers && Do(w, m).answers[call] == w.answers[call]
  {
  }

  /** Nothing under way and nothing to come. */
  ghost predicate Spent(l: Losses, w: World, r: Request) {
    !Outstanding(w, r) && !CanCall(l, w, r)
  }

  lemma OwnMoveStaysSpent(l: Losses, w: World, m: Move, r: Request)
    requires Can(w, m) && Allows(l, m) && RequestOf(m) == Some(r) && r in w.handlers && Spent(l, w, r)
    ensures r in Do(w, m).handlers && Spent(l, Do(w, m), r)
  {
    assert Do(w, m).sent == w.sent && Do(w, m).answers == w.answers;
  }

  lemma SameStaysSpent(l: Losses, w: World, w': World, r: Request)
    requires SameFor(w, w', r) && Spent(l, w, r)
    requires BlockedIn(w, w.handlers[r].op) ==> BlockedIn(w', w.handlers[r].op)
    ensures Spent(l, w', r)
  {
    forall call | call in w'.sent && call.request == r ensures call in w'.answers {
      assert call in w.sent;
    }
  }

  lemma MoveStaysOver(l: Losses, w: World, m: Move, r: Request)
    requires WorldInv(w) && Can(w, m) && Allows(l, m) && r in w.handlers && !AgainPossible(l, w, r)
    ensures r in Do(w, m).handlers && !AgainPossible(l, Do(w, m), r)
  {
    var op := w.handlers[r].op;
    NeverAcceptableAgain(w, m, op);
    if RequestOf(m) == Some(r) {
      OwnMoveKeepsOp(w, m, r);
      if Spent(l, w, r) { OwnMoveStaysSpent(l, w, m, r); }
    } else {
      OthersStaySame(w, m, r);
      if BlockedIn(w, op) { MoveKeepsBlocked(w, m, op); }
      if Spent(l, w, r) { SameStaysSpent(l, w, Do(w, m), r); }
    }
  }

  lemma {:induction false} NoAcceptanceAnyMore(l: Losses, w: World, run: seq<Move>, r: Request)
    requires WorldInv(w) && Feasible(w, run) && Within(l, run) && r in w.handlers && !AgainPossible(l, w, r)
    ensures !AcceptedSince(w, Reached(w, run), r)
    decreases |run|
  {
    if run != [] {
      assert Allows(l, run[0]) && Within(l, run[1..]);
      NoNewAcceptance(l, w, run[0], r);
      MoveStaysOver(l, w, run[0], r);
      MoveKeepsInv(w, run[0]);
      NoAcceptanceAnyMore(l, Do(w, run[0]), run[1..], r);
    }
  }

  // ---- Exactly when -------------------------------------------------------------------------------------

  /** Whatever may get lost: another call of a request can come to be accepted exactly when its serial
      is not taken for good and a call is still under way or the request can still make one. For a
      request of which a call has been accepted this is a second execution. */
  lemma AcceptedAgainExactlyWhen(l: Losses, w: World, r: Request)
    requires WorldInv(w) && Counted(w) && r in w.handlers
    ensures (exists v :: Leads(l, w, v) && AcceptedSince(w, v, r)) <==> AgainPossible(l, w, r)
  {
    if AgainPossible(l, w, r) {
      var v := CanBeAcceptedAgain(l, w, r);
    } else {
      forall v | Leads(l, w, v) ensures !AcceptedSince(w, v, r) {
        var run :| Feasible(w, run) && Within(l, run) && Reached(w, run) == v;
        NoAcceptanceAnyMore(l, w, run, r);
      }
    }
  }

  // ---- Never twice without exceptions ----------------------------------------------------------------

  /** The request has made no call but its first. */
  ghost predicate FirstCallOnly(w: World, r: Request)
    requires r in w.handlers
  {
    && (w.handlers[r].pc.Calling? || w.handlers[r].pc.Waiting? ==> w.handlers[r].pc.attempt == 1)
    && forall call | call in w.sent && call.request == r :: call.attempt == 1
  }

  ghost predicate FirstCallsOnly(w: World) {
    forall r | r in w.handlers :: FirstCallOnly(w, r)
  }

  lemma MoveKeepsFirstCalls(w: World, m: Move)
    requires CallsSound(w) && FirstCallsOnly(w) && Can(w, m) && !m.GetException?
    ensures FirstCallsOnly(Do(w, m))
  {
    forall r | r in Do(w, m).handlers ensures FirstCallOnly(Do(w, m), r) {
      if RequestOf(m) == Some(r) {
        OwnMoveKeepsFirst(w, m, r);
      } else {
        HandlersGrow(w, m, r);
        OthersStaySame(w, m, r);
        assert FirstCallOnly(w, r);
      }
    }
  }

  lemma OwnMoveKeepsFirst(w: World, m: Move, r: Request)
    requires CallsSound(w) && Can(w, m) && !m.GetException? && RequestOf(m) == Some(r)
    requires r in w.handlers ==> FirstCallOnly(w, r)
    ensures r in Do(w, m).handlers && FirstCallOnly(Do(w, m), r)
  {
  }

  lemma {:induction false} RunKeepsFirstCalls(l: Losses, w: World, run: seq<Move>)
    requires WorldInv(w) && FirstCallsOnly(w) && Feasible(w, run) && Within(l, run) && !l.exceptions
    ensures FirstCallsOnly(Reached(w, run)) && WorldInv(Reached(w, run))
    decreases |run|
  {
    if run != [] {
      assert Allows(l, run[0]) && Within(l, run[1..]);
      MoveKeepsFirstCalls(w, run[0]);
      MoveKeepsInv(w, run[0]);
      RunKeepsFirstCalls(l, Do(w, run[0]), run[1..]);
    }
  }

  /** As long as no call ends in an exception, each request is accepted at most once, in every run
      from the beginning, and whatever replies turn into failure replies. */
  lemma OnceWithoutExceptions(l: Losses, now: int, w: World, first: Operations.Call, second: Operations.Call)
    requires !l.exceptions && Leads(l, Beginning(now), w) && first.request == second.request
    requires AcceptedCall(w, first) && AcceptedCall(w, second)
    ensures first == second
  {
    var run :| Feasible(Beginning(now), run) && Within(l, run) && Reached(Beginning(now), run) == w;
    BeginningInv(now);
    RunKeepsFirstCalls(l, Beginning(now), run);
    assert first in w.sent && second in w.sent;
    assert FirstCallOnly(w, first.request);
  }
}
