/** What the API reports about a run, and that it reports what happened. */
module ReadModel {
  import opened Prelude
  import opened Domain
  import opened Tables
  import opened System
  import opened Projection
  import opened Protocol
  import opened Invariant
  import opened Traces
  import opened Guarantees
  import Sorting

  // ---- Listing a run's events ----

  function RowsOf(events: seq<EventRow>, r: RunId): seq<EventRow> {
    if events == [] then []
    else
      var last := events[|events| - 1];
      RowsOf(events[..|events| - 1], r) + if last.runId == r then [last] else []
  }

  function BySequence(a: EventRow, b: EventRow): bool {
    a.sequence <= b.sequence
  }

  /** The query: the run's rows, ordered by sequence number. */
  function ListRunEvents(events: seq<EventRow>, r: RunId): seq<EventRow> {
    Sorting.Sort(RowsOf(events, r), BySequence)
  }

  lemma {:induction false} RowsAreNumbered(events: seq<EventRow>, r: RunId)
    requires GapFree(events)
    ensures |RowsOf(events, r)| == |Log(events, r)|
    ensures forall i :: 0 <= i < |RowsOf(events, r)| ==>
              var row := RowsOf(events, r)[i];
              row.runId == r && row.sequence == i + 1 && row.event == Log(events, r)[i]
  {
    if events != [] {
      var front := events[..|events| - 1];
      assert forall i :: 0 <= i < |front| ==> events[..i] == front[..i];
      RowsAreNumbered(front, r);
    }
  }

  /**
   * All runs share one event table. Each run's rows are numbered 1, 2, 3, ... in the order they were
   * appended, so listing by number gives the run's log.
   */
  lemma EventsListInOrder(actions: seq<Action>, r: RunId)
    ensures var events := Reached(actions).shared.events; var listed := ListRunEvents(events, r);
            && |listed| == |Log(events, r)|
            && forall i :: 0 <= i < |listed| ==> listed[i] == EventRow(r, i + 1, Log(events, r)[i])
  {
    ReachedSound(actions);
    var events := Reached(actions).shared.events;
    RowsAreNumbered(events, r);
    Sorting.SortOfSorted(RowsOf(events, r), BySequence);
  }

  // ---- The run response ----

  datatype RunResponse = RunResponse(runId: RunId, status: RunState, workflowKey: string, userInput: string,
                                     responseText: Option<string>, lastError: Option<string>,
                                     approvalId: Option<ApprovalId>)

  /** The latest event that carries a text, scanning backwards. */
  function ExtractResponseText(log: seq<Event>): Option<string> {
    if log == [] then None
    else match log[|log| - 1]
      case RunCompleted(_, Some(text)) => Some(text)
      case RunFailed(error) => Some(error)
      case _ => ExtractResponseText(log[..|log| - 1])
  }

  ghost predicate IsLatest(s: Shared, r: RunId, id: ApprovalId) {
    && id in s.approvals && s.approvals[id].runId == r
    && forall other :: other in s.approvals && s.approvals[other].runId == r ==>
         s.approvals[other].requestedAt <= s.approvals[id].requestedAt
  }

  ghost function LatestFor(s: Shared, r: RunId): Option<ApprovalId> {
    if exists id :: IsLatest(s, r, id) then (var id :| IsLatest(s, r, id); Some(id)) else None
  }

  const APPROVAL_NOTICE := "Approval required before the proposed action can proceed."

  ghost function GetRun(s: Shared, r: RunId, latestContext: Option<Context>): Outcome<RunResponse> {
    if r !in s.runs then Raised("Run not found.")
    else
      var row := s.runs[r];
      var latest := LatestFor(s, r);
      var pending := latest.Some? && s.approvals[latest.value].status == Undecided;
      var logged := ExtractResponseText(Log(s.events, r));
      var text := if latestContext.Some? && latestContext.value.responseText.Some?
                  then latestContext.value.responseText else logged;
      var shown := if text.None? && pending && row.status == WaitingForApproval
                   then Some(APPROVAL_NOTICE) else text;
      Ok(RunResponse(r, row.status, row.task.workflowKey, row.task.userInput, shown, row.lastError,
                     if pending then latest else None))
  }

  lemma {:induction false} NoEndNoText(log: seq<Event>)
    requires forall i :: 0 <= i < |log| ==> !Ends(log[i])
    ensures ExtractResponseText(log).None?
  {
    if log != [] {
      NoEndNoText(log[..|log| - 1]);
    }
  }

  /** The text found in the trace is the run's answer, or the reason it has none; a waiting run has neither. */
  lemma TextOfShare(l: Local)
    requires AtRest(l)
    ensures ExtractResponseText(l.log) ==
            match l.context.state
            case Completed => l.context.responseText
            case WaitingForApproval => None
            case _ => l.context.failureReason
  {
    if l.context.state == WaitingForApproval {
      RestingWalk(l);
      forall i | 0 <= i < |l.log|
        ensures !Ends(l.log[i])
      {
        if Ends(l.log[i]) {
          OnlyTheLastEventEnds(l.log, i);
        }
      }
      NoEndNoText(l.log);
    }
  }

  /** The one approval a run can have is its latest. */
  lemma LatestIsTheOne(l: Local, s: Shared, r: RunId)
    requires r in s.runs && l == Project(s, l.context, r) && AtRest(l)
    ensures LatestFor(s, r) == l.context.approvalId
  {
    if l.context.approvalId.Some? {
      var id := l.context.approvalId.value;
      assert id in l.approvals;
      assert forall other :: other in s.approvals && s.approvals[other].runId == r ==> other in l.approvals;
      assert IsLatest(s, r, id);
    } else {
      assert forall id :: IsLatest(s, r, id) ==> id in l.approvals;
    }
  }

  /** The approval to show for a waiting run, if it is still open. */
  ghost predicate AwaitsDecision(s: Shared, r: RunId, id: ApprovalId) {
    && r in s.runs && s.runs[r].status == WaitingForApproval
    && id in s.approvals && s.approvals[id].runId == r && s.approvals[id].status == Undecided
  }

  /**
   * A finished run's response text is what its context ended with, whether or not that context is at
   * hand; and an approval is reported exactly when the run waits for its decision.
   */
  lemma ResponseIsFaithful(actions: seq<Action>, r: RunId, fromCall: bool)
    requires r in Reached(actions).shared.runs
    ensures r in Reached(actions).contexts
    ensures var w := Reached(actions); var c := w.contexts[r];
            var answer := GetRun(w.shared, r, if fromCall then Some(c) else None);
            && answer.Ok? && answer.value.runId == r && answer.value.status == c.state
            && answer.value.lastError == (if c.state == Failed then c.failureReason else None)
            && answer.value.workflowKey == c.task.workflowKey && answer.value.userInput == c.task.userInput
            && (c.state == Completed ==> answer.value.responseText == c.responseText)
            && (c.state in {Failed, Canceled} ==> answer.value.responseText == c.failureReason)
            && (c.state == WaitingForApproval ==>
                  answer.value.responseText == if answer.value.approvalId.Some? then Some(APPROVAL_NOTICE) else None)
            && forall id: ApprovalId :: answer.value.approvalId == Some(id) <==> AwaitsDecision(w.shared, r, id)
  {
    ShareAtRest(actions, r);
    var w := Reached(actions);
    var l := Share(w, r);
    TextOfShare(l);
    LatestIsTheOne(l, w.shared, r);
    OneGate(l);
    assert forall id :: id in l.approvals <==> id in w.shared.approvals && w.shared.approvals[id].runId == r;
  }

  lemma OneGate(l: Local)
    requires AtRest(l)
    ensures l.context.approvalId.Some? ==> l.approvals.Keys == {l.context.approvalId.value}
    ensures l.context.approvalId.None? ==> l.approvals == map[]
    ensures l.context.approvalId.Some? && Verdict(l) == Undecided ==> l.context.state == WaitingForApproval
    ensures l.context.state == WaitingForApproval ==> l.context.approvalId.Some?
    ensures l.context.state == Completed <==> l.context.responseText.Some?
    ensures l.context.state in {Failed, Canceled} <==> l.context.failureReason.Some?
  {
  }

  /** Until the first restart, a run shows an approval to decide exactly as long as it waits. */
  lemma WaitingShowsApproval(actions: seq<Action>, r: RunId)
    requires r in Reached(actions).shared.runs && Restart !in actions
    ensures var s := Reached(actions).shared; var answer := GetRun(s, r, None);
            answer.Ok? && (answer.value.approvalId.Some? <==> s.runs[r].status == WaitingForApproval)
  {
    ResponseIsFaithful(actions, r, false);
    IndexesAgree(actions);
    var w := Reached(actions);
    if w.shared.runs[r].status == WaitingForApproval {
      assert r in w.shared.waiting && r in w.shared.index.Values;
      var id :| id in w.shared.index && w.shared.index[id] == r;
      ReachedSound(actions);
      IndexedIsParked(w, id, false);
      assert AwaitsDecision(w.shared, r, id);
    }
  }
}
