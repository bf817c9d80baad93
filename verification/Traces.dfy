/** The grammar every run's trace obeys, and the run status a trace replays to. */
module Traces {
  import opened Prelude
  import opened Domain
  import opened Lifecycle
  import opened Projection
  import opened Protocol

  datatype Phase =
    | Blank | Started | Retrieved | Calling | Reporting | Paused | Granted | Refused | Routed | Closed | Broken

  function NextPhase(p: Phase, e: Event): Phase {
    match e
    case RunStarted(_, _) => if p == Blank then Started else Broken
    case RetrievalCompleted(_, _) => if p == Started then Retrieved else Broken
    case ToolCalled(_, _) => if p in {Retrieved, Calling} then Calling else Broken
    case ToolResultReceived(_, _, _, _) => if p in {Retrieved, Calling, Reporting} then Reporting else Broken
    case ApprovalRequested(_, _, _) => if p in {Retrieved, Calling, Reporting} then Paused else Broken
    case ApprovalResolved(_, decision) =>
      if p != Paused || decision == Undecided then Broken
      else if decision == Approved then Granted else Refused
    case ModelSelected(_) => if p in {Retrieved, Calling, Reporting, Granted} then Routed else Broken
    case RunCompleted(final, _) =>
      if final == Completed && p in {Retrieved, Calling, Reporting, Granted, Routed} then Closed
      else if final == Canceled && p == Refused then Closed
      else Broken
    case RunFailed(_) => if p in {Started, Retrieved, Calling, Reporting, Granted, Routed} then Closed else Broken
  }

  function Walk(log: seq<Event>): Phase {
    if log == [] then Blank else NextPhase(Walk(log[..|log| - 1]), log[|log| - 1])
  }

  predicate Ends(e: Event) {
    e.RunCompleted? || e.RunFailed?
  }

  lemma WalkOneMore(log: seq<Event>, e: Event)
    ensures Walk(log + [e]) == NextPhase(Walk(log), e)
  {
  }

  /** In a trace the grammar accepts, nothing follows a terminal event; so there is at most one. */
  lemma {:induction false} OnlyTheLastEventEnds(log: seq<Event>, i: nat)
    requires Walk(log) != Broken && i < |log| && Ends(log[i])
    ensures i == |log| - 1 && Walk(log) == Closed
  {
    if i < |log| - 1 {
      OnlyTheLastEventEnds(log[..|log| - 1], i);
    }
  }

  lemma {:induction false} CallsWalk(before: seq<Event>, planned: seq<ToolCall>)
    requires Walk(before) == Retrieved
    ensures Walk(before + CallEvents(planned)) == if planned == [] then Retrieved else Calling
  {
    if planned == [] {
      assert before + CallEvents(planned) == before;
    } else {
      var n := |planned| - 1;
      CallsWalk(before, planned[..n]);
      assert before + CallEvents(planned) == (before + CallEvents(planned[..n])) + [CallEvents(planned)[n]];
      WalkOneMore(before + CallEvents(planned[..n]), CallEvents(planned)[n]);
    }
  }

  lemma {:induction false} ResultsWalk(before: seq<Event>, records: seq<ToolRecord>)
    requires Walk(before) in {Retrieved, Calling}
    ensures Walk(before + ResultEvents(records)) == if records == [] then Walk(before) else Reporting
  {
    if records == [] {
      assert before + ResultEvents(records) == before;
    } else {
      var n := |records| - 1;
      ResultsWalk(before, records[..n]);
      assert before + ResultEvents(records) == (before + ResultEvents(records[..n])) + [ResultEvents(records)[n]];
      WalkOneMore(before + ResultEvents(records[..n]), ResultEvents(records)[n]);
    }
  }

  lemma GroundedWalk(c: Context)
    ensures Walk(Begun(c)) == Started && Walk(Grounded(c)) == Retrieved
  {
  }

  lemma TooledWalk(c: Context)
    ensures Walk(Begun(c)) == Started && Walk(Grounded(c)) == Retrieved
    ensures Walk(Called(c)) in {Retrieved, Calling}
    ensures Walk(Tooled(c)) in {Retrieved, Calling, Reporting}
  {
    hide Walk;
    GroundedWalk(c);
    CallsWalk(Grounded(c), c.planned);
    ResultsWalk(Called(c), c.records);
  }

  /** Where the trace stands after the approval part. */
  lemma GateWalk(l: Local)
    requires ApprovalFits(l)
    ensures var p := Walk(Tooled(l.context) + Gate(l));
            if l.context.approvalId.None? then p in {Retrieved, Calling, Reporting}
            else p == match Verdict(l) case Undecided => Paused case Approved => Granted case _ => Refused
  {
    TooledWalk(l.context);
    var before := Tooled(l.context);
    if l.context.approvalId.None? {
      assert before + Gate(l) == before;
    } else {
      var id := l.context.approvalId.value;
      var row := l.approvals[id];
      WalkOneMore(before, ApprovalRequested(id, row.invocation, row.preview));
      var asked := before + [ApprovalRequested(id, row.invocation, row.preview)];
      if row.status == Undecided {
        assert before + Gate(l) == asked;
      } else {
        assert before + Gate(l) == asked + [ApprovalResolved(id, row.status)];
        WalkOneMore(asked, ApprovalResolved(id, row.status));
      }
    }
  }

  lemma AnsweringWalk(l: Local, route: Option<Route>)
    requires ApprovalFits(l) && (l.context.approvalId.Some? ==> Verdict(l) == Approved)
    ensures Walk(Answering(l, route)) in {Retrieved, Calling, Reporting, Granted, Routed}
  {
    GateWalk(l);
    var before := Tooled(l.context) + Gate(l);
    if route.None? {
      assert Answering(l, route) == before;
    } else {
      assert Answering(l, route) == before + [ModelSelected(route.value)];
      WalkOneMore(before, ModelSelected(route.value));
    }
  }

  lemma FailedWalk(l: Local, kept: seq<Event>)
    requires ApprovalFits(l) && (l.context.approvalId.Some? ==> Verdict(l) == Approved)
    requires CutShort(l, kept)
    ensures Walk(kept) in {Started, Retrieved, Calling, Reporting, Granted, Routed}
  {
    TooledWalk(l.context);
    if exists route :: kept == Answering(l, route) {
      var route :| kept == Answering(l, route);
      AnsweringWalk(l, route);
    }
  }

  /** The phase a run's trace has reached, read off the run's state and its approval. */
  function PhaseOf(l: Local): Phase {
    if l.context.state == WaitingForApproval
    then match Verdict(l) case Undecided => Paused case Approved => Granted case _ => Refused
    else Closed
  }

  lemma CompletedCloses(l: Local)
    requires AtRest(l) && l.context.state == Completed
    ensures Walk(l.log) == Closed
  {
    var route :| l.log == Answering(l, route) + [RunCompleted(Completed, l.context.responseText)];
    AnsweringWalk(l, route);
    WalkOneMore(Answering(l, route), RunCompleted(Completed, l.context.responseText));
  }

  lemma FailedCloses(l: Local)
    requires AtRest(l) && l.context.state == Failed
    ensures Walk(l.log) == Closed
  {
    var kept :| CutShort(l, kept) && l.log == kept + [RunFailed(l.context.failureReason.value)];
    FailedWalk(l, kept);
    WalkOneMore(kept, RunFailed(l.context.failureReason.value));
  }

  lemma RestingWalk(l: Local)
    requires AtRest(l)
    ensures Walk(l.log) == PhaseOf(l)
  {
    match l.context.state
    case Completed => CompletedCloses(l);
    case Failed => FailedCloses(l);
    case WaitingForApproval => GateWalk(l);
    case Canceled =>
      GateWalk(l);
      WalkOneMore(Tooled(l.context) + Gate(l), RunCompleted(Canceled, l.context.failureReason));
  }

  // ---- Replaying a trace ----

  /** The run status the events alone give. */
  function Replay(log: seq<Event>): RunState {
    if log == [] then Pending
    else
      var before := Replay(log[..|log| - 1]);
      match log[|log| - 1]
      case RunStarted(_, _) => InProgress
      case ApprovalRequested(_, _, _) => WaitingForApproval
      case ApprovalResolved(_, decision) => if decision == Approved then InProgress else before
      case RunCompleted(final, _) => final
      case RunFailed(_) => Failed
      case _ => before
  }

  lemma ReplayOneMore(log: seq<Event>, e: Event)
    ensures Replay(log + [e]) ==
            match e
            case RunStarted(_, _) => InProgress
            case ApprovalRequested(_, _, _) => WaitingForApproval
            case ApprovalResolved(_, decision) => if decision == Approved then InProgress else Replay(log)
            case RunCompleted(final, _) => final
            case RunFailed(_) => Failed
            case _ => Replay(log)
  {
  }

  /** Replay misses the stored status only when an approved run was never woken. */
  lemma RestingReplay(l: Local)
    requires AtRest(l)
    ensures Replay(l.log) == l.row.status <==> !(l.row.status == WaitingForApproval && Verdict(l) == Approved)
  {
    match l.context.state
    case WaitingForApproval =>
      var id := l.context.approvalId.value;
      var row := l.approvals[id];
      var asked := Tooled(l.context) + [ApprovalRequested(id, row.invocation, row.preview)];
      ReplayOneMore(Tooled(l.context), ApprovalRequested(id, row.invocation, row.preview));
      ReplayOneMore(asked, ApprovalResolved(id, row.status));
      assert l.log == if row.status == Undecided then asked else asked + [ApprovalResolved(id, row.status)];
    case Completed =>
      var route :| l.log == Answering(l, route) + [RunCompleted(Completed, l.context.responseText)];
      ReplayOneMore(Answering(l, route), RunCompleted(Completed, l.context.responseText));
    case Canceled =>
      ReplayOneMore(Tooled(l.context) + Gate(l), RunCompleted(Canceled, l.context.failureReason));
    case Failed =>
      var kept :| CutShort(l, kept) && l.log == kept + [RunFailed(l.context.failureReason.value)];
      ReplayOneMore(kept, RunFailed(l.context.failureReason.value));
  }

  /** A completed or failed run with an approval logged its APPROVED decision before its end. */
  lemma DecisionComesFirst(l: Local)
    requires AtRest(l) && l.context.approvalId.Some? && l.context.state == Completed
    ensures l.context.approvalId.value in l.approvals && l.approvals[l.context.approvalId.value].status == Approved
    ensures exists i, j :: 0 <= i < j < |l.log| && l.log[j].RunCompleted?
              && l.log[i] == ApprovalResolved(l.context.approvalId.value, Approved)
  {
    var id := l.context.approvalId.value;
    var route :| l.log == Answering(l, route) + [RunCompleted(Completed, l.context.responseText)];
    var i := |Tooled(l.context)| + 1;
    assert Gate(l)[1] == ApprovalResolved(id, Approved);
    assert l.log[i] == ApprovalResolved(id, Approved);
    assert l.log[|l.log| - 1].RunCompleted?;
  }
}
