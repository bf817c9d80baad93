/** Run contexts, and the controller that keeps the waiting ones in memory. */
module Runtime {
  import opened Prelude
  import opened Domain
  import opened Tables

  class RunContext {
    const task: Task
    var state: RunState
    var step: Option<RunStep>
    var classification: Option<string>
    var retrieved: seq<Document>
    var planned: seq<ToolCall>
    var results: seq<Payload>
    var records: seq<ToolRecord>
    var responseText: Option<string>
    var approvalId: Option<ApprovalId>
    var pendingInvocation: Option<InvocationId>
    var failureReason: Option<string>

    constructor (task: Task)
      ensures Value() == FreshContext(task) && this.task == task
    {
      this.task := task;
      state, step, classification := Pending, None, None;
      retrieved, planned, results, records := [], [], [], [];
      responseText, approvalId, pendingInvocation, failureReason := None, None, None, None;
    }

    function Value(): Context
      reads this
    {
      Context(task, state, step, classification, retrieved, planned, results, records,
              responseText, approvalId, pendingInvocation, failureReason)
    }
  }

  class RuntimeController {
    var waiting: map<RunId, RunContext>
    var approvalToRun: map<ApprovalId, RunId>

    constructor ()
      ensures waiting == map[] && approvalToRun == map[]
    {
      waiting, approvalToRun := map[], map[];
    }

    /** A context without an approval id is not kept. */
    method StoreWaitingContext(c: RunContext)
      modifies this
      ensures c.approvalId.None? ==> waiting == old(waiting) && approvalToRun == old(approvalToRun)
      ensures c.approvalId.Some? ==>
                && waiting == old(waiting)[c.task.runId := c]
                && approvalToRun == old(approvalToRun)[c.approvalId.value := c.task.runId]
    {
      if c.approvalId.None? {
        return;
      }
      waiting := waiting[c.task.runId := c];
      approvalToRun := approvalToRun[c.approvalId.value := c.task.runId];
    }

    method OnWaitingForApproval(r: RunId, id: ApprovalId)
      modifies this`approvalToRun
      ensures approvalToRun == old(approvalToRun)[id := r]
    {
      approvalToRun := approvalToRun[id := r];
    }

    /** The approval stays indexed until the run is over. */
    method OnRunResumed(r: RunId)
      modifies this`waiting
      ensures waiting == old(waiting) - {r}
    {
      waiting := waiting - {r};
    }

    method OnRunCompleted(r: RunId)
      modifies this
      ensures waiting == old(waiting) - {r}
      ensures approvalToRun == WithoutRun(old(approvalToRun), r)
      ensures forall a :: a in approvalToRun <==> a in old(approvalToRun) && old(approvalToRun)[a] != r
      ensures forall a :: a in approvalToRun ==> approvalToRun[a] == old(approvalToRun)[a]
    {
      waiting := waiting - {r};
      var stale := set a | a in approvalToRun && approvalToRun[a] == r;
      while stale != {}
        invariant forall a :: a in stale ==> a in approvalToRun && approvalToRun[a] == r
        invariant forall a :: a in old(approvalToRun) && a !in approvalToRun ==> old(approvalToRun)[a] == r
        invariant forall a :: a in approvalToRun ==>
                    a in old(approvalToRun) && approvalToRun[a] == old(approvalToRun)[a]
        invariant forall a :: a in approvalToRun && approvalToRun[a] == r ==> a in stale
        invariant waiting == old(waiting) - {r}
        decreases |stale|
      {
        var a :| a in stale;
        approvalToRun := approvalToRun - {a};
        stale := stale - {a};
      }
    }

    method GetWaitingContext(r: RunId) returns (c: Option<RunContext>)
      ensures c == if r in waiting then Some(waiting[r]) else None
    {
      c := if r in waiting then Some(waiting[r]) else None;
    }

    method GetRunIdForApproval(id: ApprovalId) returns (r: Option<RunId>)
      ensures r == if id in approvalToRun then Some(approvalToRun[id]) else None
    {
      r := if id in approvalToRun then Some(approvalToRun[id]) else None;
    }
  }
}
