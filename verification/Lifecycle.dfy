/** What the engine does with one run: the context it leaves and the effects it has, in order. */
module Lifecycle {
  import opened Prelude
  import opened Domain
  import opened Tables

  datatype Episode = Episode(context: Context, effects: seq<Effect>)

  function After(effects: seq<Effect>, rest: Episode): Episode {
    Episode(rest.context, effects + rest.effects)
  }

  function Fail(c: Context, reason: string): Episode {
    if Terminal(c.state) then Episode(c.(failureReason := Some(reason)), [])
    else Episode(c.(state := Failed, failureReason := Some(reason)),
                 [SetStatus(Failed, Some(reason)), Emit(RunFailed(reason)), Purge])
  }

  function Cancel(c: Context, reason: string): Episode {
    if Terminal(c.state) then Episode(c.(failureReason := Some(reason)), [])
    else Episode(c.(state := Canceled, failureReason := Some(reason)),
                 [SetStatus(Canceled, None), Emit(RunCompleted(Canceled, Some(reason))), Purge])
  }

  /** An absent or empty classification is reported as "unclassified". */
  function Label(c: Context): string {
    if c.classification.None? || c.classification.value == "" then "unclassified" else c.classification.value
  }

  function CallEvents(planned: seq<ToolCall>): (events: seq<Event>)
    ensures |events| == |planned|
  {
    seq(|planned|, i requires 0 <= i < |planned| => ToolCalled(planned[i].name, planned[i].requiresApproval))
  }

  function ResultEvents(records: seq<ToolRecord>): (events: seq<Event>)
    ensures |events| == |records|
  {
    seq(|records|, i requires 0 <= i < |records| =>
      ToolResultReceived(records[i].toolName, records[i].invocation, records[i].status, records[i].requiresApproval))
  }

  function Emitted(events: seq<Event>): (effects: seq<Effect>)
    ensures |effects| == |events|
  {
    seq(|events|, i requires 0 <= i < |events| => Emit(events[i]))
  }

  /** Stand-in records, one per output, for an executor that reports none. */
  function DeriveRecords(planned: seq<ToolCall>, outputs: seq<Payload>): seq<ToolRecord> {
    seq(|outputs|, i requires 0 <= i < |outputs| =>
      ToolRecord(if i < |planned| then planned[i].name else "tool", "succeeded", None, Some(outputs[i]), None,
                 false, None))
  }

  function RecordsOf(c: Context, x: ToolPhaseResult): seq<ToolRecord> {
    if x.records != [] then x.records else DeriveRecords(c.planned, x.outputs)
  }

  function FirstGated(records: seq<ToolRecord>): Option<ToolRecord> {
    if records == [] then None
    else if records[0].requiresApproval then Some(records[0])
    else FirstGated(records[1..])
  }

  function RequestApproval(c: Context, reason: Option<string>, preview: Option<Payload>, id: ApprovalId): Episode {
    var gated := FirstGated(c.records);
    var invocation := if gated.Some? then gated.value.invocation else None;
    var shown := if gated.Some? && gated.value.preview.Some? then gated.value.preview else preview;
    var why := if reason.None? || reason.value == "" then "Approval required" else reason.value;
    Episode(c.(pendingInvocation := invocation, approvalId := Some(id), state := WaitingForApproval),
            [OpenApproval(id, why, shown, invocation),
             Emit(ApprovalRequested(id, invocation, shown)),
             SetStatus(WaitingForApproval, None),
             Park(id),
             Register(id)])
  }

  /** The context at the top of the loop body: the step to run is written into it first. */
  function Entering(c: Context): Context {
    c.(step := if c.step.None? then Some(Classify) else c.step)
  }

  function TakeResult(c: Context, x: ToolPhaseResult, id: ApprovalId): Episode {
    var done := c.(results := x.outputs, records := RecordsOf(c, x));
    After(Emitted(ResultEvents(done.records)),
      if x.requiresApproval
      then RequestApproval(done.(step := Some(RequestApprovalIfNeeded)), x.reason, x.preview, id)
      else Episode(done.(step := Some(GenerateResponse)), []))
  }

  function RunTools(c: Context, env: Collaborators): Episode {
    After(Emitted(CallEvents(c.planned)) + [CallTools],
      match env.executeTools(c)
      case Raised(e) => Fail(c, e)
      case Ok(x) => TakeResult(c, x, env.newApprovalId))
  }

  function RouteEvents(route: Option<Route>): seq<Event> {
    if route.None? then [] else [ModelSelected(route.value)]
  }

  function Respond(c: Context, env: Collaborators): Episode {
    match env.describeRoute(c)
    case Raised(e) => Fail(c, e)
    case Ok(route) =>
      After(Emitted(RouteEvents(route)),
        match env.generateResponse(c)
        case Raised(e) => Fail(c, e)
        case Ok(text) => Episode(c.(responseText := Some(text), step := Some(Complete)), []))
  }

  /** One pass of the main loop, on a context whose step has been entered. */
  function Pass(c: Context, env: Collaborators): (next: Episode)
    requires c.state == InProgress && c.step.Some?
    ensures next.context.task == c.task
    ensures next.context.state == InProgress ==> Remaining(next.context.step) < Remaining(c.step)
  {
    match c.step.value
    case Classify =>
      (match env.classify(c.task)
       case Raised(e) => Fail(c, e)
       case Ok(found) => Episode(c.(classification := Some(found), step := Some(RetrieveContext)), []))
    case RetrieveContext =>
      (match env.retrieve(c.task, Label(c))
       case Raised(e) => Fail(c, e)
       case Ok(found) => Episode(c.(retrieved := found, step := Some(DecideTools)),
                                 [Emit(RetrievalCompleted(Label(c), |found|))]))
    case DecideTools =>
      (match env.planTools(c)
       case Raised(e) => Fail(c, e)
       case Ok(plan) => Episode(c.(planned := plan, step := Some(ExecuteTools)), []))
    case ExecuteTools => RunTools(c, env)
    case RequestApprovalIfNeeded => RequestApproval(c, Some("Approval required"), None, env.newApprovalId)
    case GenerateResponse => Respond(c, env)
    case Complete =>
      Episode(c.(state := Completed),
              [SetStatus(Completed, None), Emit(RunCompleted(Completed, c.responseText)), Purge])
  }

  /**
   * A pass that leaves the run in progress moves on to the next step in order, except that the tools
   * lead straight to the response; no pass leads to the step that asks for approval by itself.
   */
  lemma PassFollowsTheOrder(c: Context, env: Collaborators)
    requires c.state == InProgress && c.step.Some?
    ensures var next := Pass(c, env).context;
            next.state == InProgress ==>
              && next.step != Some(RequestApprovalIfNeeded)
              && exists i, j :: 0 <= i < j < |ORDERED_STEPS| && c.step == Some(ORDERED_STEPS[i])
                   && next.step == Some(ORDERED_STEPS[j])
                   && (c.step == Some(ExecuteTools) || (j == i + 1 && NextStep(c.step) == Ok(ORDERED_STEPS[j])))
  {
    if Pass(c, env).context.state == InProgress {
      match c.step.value
      case Classify => assert c.step == Some(ORDERED_STEPS[0]) && ORDERED_STEPS[1] == RetrieveContext;
      case RetrieveContext => assert c.step == Some(ORDERED_STEPS[1]) && ORDERED_STEPS[2] == DecideTools;
      case DecideTools => assert c.step == Some(ORDERED_STEPS[2]) && ORDERED_STEPS[3] == ExecuteTools;
      case ExecuteTools => assert c.step == Some(ORDERED_STEPS[3]) && ORDERED_STEPS[5] == GenerateResponse;
      case GenerateResponse => assert c.step == Some(ORDERED_STEPS[5]) && ORDERED_STEPS[6] == Complete;
      case _ =>
    }
  }

  /** The main loop. */
  function Loop(c: Context, env: Collaborators): Episode
    decreases Remaining(c.step)
  {
    if c.state != InProgress then Episode(c, [])
    else
      var next := Pass(Entering(c), env);
      After(next.effects,
        if next.context.state == InProgress then Loop(next.context, env) else Episode(next.context, []))
  }

  function Execute(c: Context, env: Collaborators): Episode {
    if c.state == Pending
    then After([SetStatus(InProgress, None), Emit(RunStarted(c.task.workflowKey, c.task.tenantId))],
               Loop(c.(state := InProgress), env))
    else Loop(c, env)
  }

  function Lowered(decision: ApprovalStatus): string {
    match decision
    case Undecided => "pending"
    case Approved => "approved"
    case Rejected => "rejected"
    case Expired => "expired"
  }

  /** Waking an approved run: the controller lets go of it, and the loop goes on at the response. */
  function Wake(c: Context, env: Collaborators): Episode {
    After([SetStatus(InProgress, None), Unpark],
          Execute(c.(state := InProgress, step := Some(GenerateResponse)), env))
  }

  /**
   * Resuming a run that waits on `decision`, which is no longer undecided. The engine can record the
   * decision in the trace itself; the API has already done so and asks it not to.
   */
  function Resume(c: Context, decision: ApprovalStatus, record: bool, env: Collaborators): Episode
    requires c.approvalId.Some?
  {
    After(if record then [Emit(ApprovalResolved(c.approvalId.value, decision))] else [],
          if decision == Approved then Wake(c, env) else Cancel(c, "Approval " + Lowered(decision)))
  }
}
