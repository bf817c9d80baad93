/** The run and approval repositories over one database session. */
module Persistence {
  import opened Prelude
  import opened Domain
  import opened Tables

  datatype Resolution = NotFound | NotPending | Resolved(row: ApprovalRow)

  class Database {
    var runs: map<RunId, RunRow>
    var events: seq<EventRow>
    var approvals: map<ApprovalId, ApprovalRow>
    var now: nat

    constructor ()
      ensures runs == map[] && events == [] && approvals == map[] && now == 0
    {
      runs, events, approvals, now := map[], [], map[], 0;
    }

    method ReadClock() returns (time: nat)
      modifies this`now
      ensures time == old(now) && now == old(now) + 1
    {
      time := now;
      now := now + 1;
    }

    method CreateRun(task: Task)
      modifies this`runs
      ensures runs == old(runs)[task.runId := NewRow(task)]
      ensures runs[task.runId] == RunRow(task, Pending, None, None, None, [])
    {
      runs := runs[task.runId := NewRow(task)];
    }

    /** Writes the status and the error of a run, and stamps its start and its end. */
    method UpdateRunStatus(r: RunId, status: RunState, lastError: Option<string>) returns (found: bool)
      modifies this`runs, this`now
      ensures found <==> r in old(runs)
      ensures found ==> runs == old(runs)[r := WriteStatus(old(runs)[r], status, lastError, old(now))]
      ensures found ==> now == old(now) + 1
      ensures found ==>
                var before, after := old(runs)[r], runs[r];
                && runs.Keys == old(runs).Keys && after.task == before.task
                && after.status == status && after.lastError == lastError
                && after.startedAt == (if status == InProgress && before.startedAt == None then Some(old(now))
                                       else before.startedAt)
                && after.completedAt == (if status in {Completed, Failed, Canceled} then Some(old(now))
                                         else before.completedAt)
                && after.history == before.history + [status]
      ensures !found ==> runs == old(runs) && now == old(now)
    {
      if r !in runs {
        return false;
      }
      var time := ReadClock();
      var row := runs[r];
      row := row.(status := status, lastError := lastError, history := row.history + [status]);
      if status == InProgress && row.startedAt.None? {
        row := row.(startedAt := Some(time));
      }
      if status in {Completed, Failed, Canceled} {
        row := row.(completedAt := Some(time));
      }
      runs := runs[r := row];
      return true;
    }

    method AppendRunEvent(r: RunId, e: Event) returns (row: EventRow)
      modifies this`events
      ensures events == AppendEvent(old(events), r, e)
      ensures events == old(events) + [row] && row.runId == r && row.event == e && row.sequence >= 1
      ensures forall i :: 0 <= i < |old(events)| && old(events)[i].runId == r ==> old(events)[i].sequence < row.sequence
      ensures row.sequence > 1 ==>
                exists i :: 0 <= i < |old(events)| && old(events)[i].runId == r
                            && old(events)[i].sequence == row.sequence - 1
    {
      var sequence := MaxSequence(events, r) + 1;
      row := EventRow(r, sequence, e);
      events := events + [row];
    }

    method CreateApprovalRequest(id: ApprovalId, r: RunId, reason: string, preview: Option<Payload>,
                                 invocation: Option<InvocationId>)
      modifies this`approvals, this`now
      ensures approvals == old(approvals)[id := ApprovalRow(r, Undecided, reason, preview, invocation, old(now), None)]
      ensures now == old(now) + 1
    {
      var time := ReadClock();
      approvals := approvals[id := ApprovalRow(r, Undecided, reason, preview, invocation, time, None)];
    }

    method GetApprovalDecision(id: ApprovalId) returns (decision: Outcome<ApprovalStatus>)
      ensures id in approvals ==> decision == Ok(approvals[id].status)
      ensures id !in approvals ==> decision == Raised("Approval request not found.")
    {
      if id !in approvals {
        return Raised("Approval request not found.");
      }
      return Ok(approvals[id].status);
    }

    /** Only a pending request can be decided; a second decision is refused and writes nothing. */
    method ResolveApprovalRequest(id: ApprovalId, decision: ApprovalStatus) returns (answer: Resolution)
      modifies this`approvals, this`now
      ensures answer == NotFound <==> id !in old(approvals)
      ensures answer == NotPending <==> id in old(approvals) && old(approvals)[id].status != Undecided
      ensures answer.Resolved? ==>
                && answer.row == old(approvals)[id].(status := decision, resolvedAt := Some(old(now)))
                && approvals == old(approvals)[id := answer.row] && now == old(now) + 1
      ensures !answer.Resolved? ==> approvals == old(approvals) && now == old(now)
    {
      if id !in approvals {
        return NotFound;
      }
      var row := approvals[id];
      if row.status != Undecided {
        return NotPending;
      }
      var time := ReadClock();
      row := row.(status := decision, resolvedAt := Some(time));
      approvals := approvals[id := row];
      return Resolved(row);
    }
  }
}
