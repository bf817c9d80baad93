/** Values carried by runs, approvals and traces, and the two state tables of the orchestrator. */
module Domain {
  import opened Prelude

  type RunId = nat
  type ApprovalId = nat
  type InvocationId = nat
  type Payload = map<string, string>

  /** The orchestrator's RunState and the database's RunStatus list the same six values. */
  datatype RunState = Pending | InProgress | WaitingForApproval | Completed | Failed | Canceled

  datatype RunStep =
    | Classify
    | RetrieveContext
    | DecideTools
    | ExecuteTools
    | RequestApprovalIfNeeded
    | GenerateResponse
    | Complete

  datatype ApprovalStatus = Undecided | Approved | Rejected | Expired

  datatype Task = Task(runId: RunId, workflowKey: string, userInput: string, tenantId: string,
                       requestedBy: Option<string>)

  datatype Document = Document(sourceId: string, content: string)

  datatype ToolCall = ToolCall(name: string, requiresApproval: bool, arguments: Payload)

  datatype ToolRecord = ToolRecord(toolName: string, status: string, invocation: Option<InvocationId>,
                                   output: Option<Payload>, error: Option<string>,
                                   requiresApproval: bool, preview: Option<Payload>)

  datatype ToolPhaseResult = ToolPhaseResult(outputs: seq<Payload>, requiresApproval: bool,
                                             reason: Option<string>, preview: Option<Payload>,
                                             records: seq<ToolRecord>)

  datatype Route = Route(provider: string, model: string, reason: Option<string>)

  /** The value of a run context: every field of RunContext. */
  datatype Context = Context(task: Task, state: RunState, step: Option<RunStep>,
                             classification: Option<string>, retrieved: seq<Document>,
                             planned: seq<ToolCall>, results: seq<Payload>, records: seq<ToolRecord>,
                             responseText: Option<string>, approvalId: Option<ApprovalId>,
                             pendingInvocation: Option<InvocationId>, failureReason: Option<string>)

  datatype Event =
    | RunStarted(workflowKey: string, tenantId: string)
    | RetrievalCompleted(classification: string, documentCount: nat)
    | ToolCalled(toolName: string, gated: bool)
    | ToolResultReceived(toolName: string, invocation: Option<InvocationId>, status: string, gated: bool)
    | ApprovalRequested(approval: ApprovalId, invocation: Option<InvocationId>, preview: Option<Payload>)
    | ApprovalResolved(approval: ApprovalId, decision: ApprovalStatus)
    | ModelSelected(route: Route)
    | RunCompleted(finalState: RunState, text: Option<string>)
    | RunFailed(error: string)

  /**
   * Everything one API call may meet outside the modelled code: the six collaborator operations,
   * each free to return anything or to raise, and the id the database draws for a new approval.
   */
  datatype Collaborators = Collaborators(
    classify: Task -> Outcome<string>,
    retrieve: (Task, string) -> Outcome<seq<Document>>,
    planTools: Context -> Outcome<seq<ToolCall>>,
    executeTools: Context -> Outcome<ToolPhaseResult>,
    describeRoute: Context -> Outcome<Option<Route>>,
    generateResponse: Context -> Outcome<string>,
    newApprovalId: ApprovalId)

  predicate Terminal(s: RunState) {
    s in {Completed, Failed, Canceled}
  }

  function Allowed(s: RunState): set<RunState> {
    match s
    case Pending => {InProgress, Canceled}
    case InProgress => {WaitingForApproval, Completed, Failed, Canceled}
    case WaitingForApproval => {InProgress, Failed, Canceled}
    case _ => {}
  }

  /** The moves there are, one by one. */
  lemma MovesAre(s: RunState, t: RunState)
    ensures t in Allowed(s) <==>
            || (s == Pending && (t == InProgress || t == Canceled))
            || (s == InProgress && (t == WaitingForApproval || t == Completed || t == Failed || t == Canceled))
            || (s == WaitingForApproval && (t == InProgress || t == Failed || t == Canceled))
  {
  }

  const ORDERED_STEPS: seq<RunStep> :=
    [Classify, RetrieveContext, DecideTools, ExecuteTools, RequestApprovalIfNeeded, GenerateResponse, Complete]

  function NextStep(step: Option<RunStep>): Outcome<RunStep> {
    match step
    case None => Ok(Classify)
    case Some(Classify) => Ok(RetrieveContext)
    case Some(RetrieveContext) => Ok(DecideTools)
    case Some(DecideTools) => Ok(ExecuteTools)
    case Some(ExecuteTools) => Ok(RequestApprovalIfNeeded)
    case Some(RequestApprovalIfNeeded) => Ok(GenerateResponse)
    case Some(GenerateResponse) => Ok(Complete)
    case Some(Complete) => Raised("Step complete has no successor")
  }

  /** How many steps are left; the main loop makes it smaller every time round. */
  function Remaining(step: Option<RunStep>): nat {
    match step
    case None => 6
    case Some(Classify) => 6
    case Some(RetrieveContext) => 5
    case Some(DecideTools) => 4
    case Some(ExecuteTools) => 3
    case Some(RequestApprovalIfNeeded) => 2
    case Some(GenerateResponse) => 1
    case Some(Complete) => 0
  }

  /** A run's statuses, oldest first, each allowed after the one before it. */
  ghost predicate LegalHistory(history: seq<RunState>) {
    forall i :: 0 <= i < |history| ==> history[i] in Allowed(if i == 0 then Pending else history[i - 1])
  }

  predicate HasGatedRecord(records: seq<ToolRecord>) {
    exists i :: 0 <= i < |records| && records[i].requiresApproval
  }

  function FreshContext(task: Task): Context {
    Context(task, Pending, None, None, [], [], [], [], None, None, None, None)
  }
}
