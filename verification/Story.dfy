/**
 * What a run amounts to, told straight through without the engine's loop: which collaborator was asked
 * what, what became of its answer, and which effects followed.
 */
module Story {
  import opened Prelude
  import opened Domain
  import opened Tables
  import opened Lifecycle

  /** The run ends in FAILED with the text that was raised, and keeps all it has gathered so far. */
  ghost predicate Fails(c: Context, error: string, e: Episode) {
    && e.context == c.(state := Failed, failureReason := Some(error))
    && e.effects == [SetStatus(Failed, Some(error)), Emit(RunFailed(error)), Purge]
  }

  /** Route, then response: the run is COMPLETED with the very text that was generated. */
  ghost predicate Answers(c: Context, env: Collaborators, e: Episode) {
    match env.describeRoute(c)
    case Raised(error) => Fails(c, error, e)
    case Ok(route) =>
      var selected := if route.Some? then [Emit(ModelSelected(route.value))] else [];
      selected <= e.effects &&
      var last := Episode(e.context, e.effects[|selected|..]);
      match env.generateResponse(c)
      case Raised(error) => Fails(c, error, last)
      case Ok(text) =>
        && last.context == c.(state := Completed, step := Some(Complete), responseText := Some(text))
        && last.effects == [SetStatus(Completed, None), Emit(RunCompleted(Completed, Some(text))), Purge]
  }

  ghost predicate FirstGateAt(records: seq<ToolRecord>, k: nat) {
    k < |records| && records[k].requiresApproval && forall i :: 0 <= i < k ==> !records[i].requiresApproval
  }

  /** What a request shows: the first gated record's invocation, and its preview or else the executor's. */
  ghost predicate Shows(records: seq<ToolRecord>, fallback: Option<Payload>, invocation: Option<InvocationId>,
                        preview: Option<Payload>) {
    || (exists k: nat :: FirstGateAt(records, k) && invocation == records[k].invocation
                         && preview == if records[k].preview.Some? then records[k].preview else fallback)
    || ((forall i :: 0 <= i < |records| ==> !records[i].requiresApproval) && invocation == None && preview == fallback)
  }

  ghost predicate Pauses(c: Context, x: ToolPhaseResult, id: ApprovalId, e: Episode) {
    exists preview ::
      && Shows(c.records, x.preview, e.context.pendingInvocation, preview)
      && e.context == c.(state := WaitingForApproval, approvalId := Some(id),
                         pendingInvocation := e.context.pendingInvocation)
      && e.effects == [OpenApproval(id, if x.reason in {None, Some("")} then "Approval required" else x.reason.value,
                                    preview, e.context.pendingInvocation),
                       Emit(ApprovalRequested(id, e.context.pendingInvocation, preview)),
                       SetStatus(WaitingForApproval, None), Park(id), Register(id)]
  }

  /** The executor's records; one plain success per output when it reports none. */
  ghost predicate AreRecords(planned: seq<ToolCall>, x: ToolPhaseResult, records: seq<ToolRecord>) {
    if x.records != [] then records == x.records
    else
      && |records| == |x.outputs|
      && forall i :: 0 <= i < |records| ==>
           records[i] == ToolRecord(if i < |planned| then planned[i].name else "tool", "succeeded", None,
                                    Some(x.outputs[i]), None, false, None)
  }

  ghost predicate Reports(records: seq<ToolRecord>, effects: seq<Effect>) {
    && |records| <= |effects|
    && forall i :: 0 <= i < |records| ==>
         effects[i] == Emit(ToolResultReceived(records[i].toolName, records[i].invocation, records[i].status,
                                               records[i].requiresApproval))
  }

  ghost predicate Announces(planned: seq<ToolCall>, effects: seq<Effect>) {
    && |planned| < |effects|
    && (forall i :: 0 <= i < |planned| ==> effects[i] == Emit(ToolCalled(planned[i].name, planned[i].requiresApproval)))
    && effects[|planned|] == CallTools
  }

  /** Every planned call is announced, the executor is asked once, and its answer recorded; then gate or answer. */
  ghost predicate UsesTools(c: Context, env: Collaborators, e: Episode) {
    Announces(c.planned, e.effects) &&
    var rest := e.effects[|c.planned| + 1..];
    match env.executeTools(c)
    case Raised(error) => Fails(c, error, Episode(e.context, rest))
    case Ok(x) =>
      var records := e.context.records;
      AreRecords(c.planned, x, records) && Reports(records, rest) &&
      var done := c.(results := x.outputs, records := records);
      var last := Episode(e.context, rest[|records|..]);
      if x.requiresApproval
      then Pauses(done.(step := Some(RequestApprovalIfNeeded)), x, env.newApprovalId, last)
      else Answers(done.(step := Some(GenerateResponse)), env, last)
  }

  ghost predicate Plans(c: Context, env: Collaborators, e: Episode) {
    match env.planTools(c)
    case Raised(error) => Fails(c, error, e)
    case Ok(plan) => UsesTools(c.(planned := plan, step := Some(ExecuteTools)), env, e)
  }

  ghost predicate Retrieves(c: Context, env: Collaborators, e: Episode) {
    var named := if c.classification in {None, Some("")} then "unclassified" else c.classification.value;
    match env.retrieve(c.task, named)
    case Raised(error) => Fails(c, error, e)
    case Ok(found) =>
      && [Emit(RetrievalCompleted(named, |found|))] <= e.effects
      && Plans(c.(retrieved := found, step := Some(DecideTools)), env, Episode(e.context, e.effects[1..]))
  }

  ghost predicate Classifies(c: Context, env: Collaborators, e: Episode) {
    match env.classify(c.task)
    case Raised(error) => Fails(c, error, e)
    case Ok(found) => Retrieves(c.(classification := Some(found), step := Some(RetrieveContext)), env, e)
  }

  /** A run of the task from its beginning. */
  ghost predicate Begins(task: Task, env: Collaborators, e: Episode) {
    && [SetStatus(InProgress, None), Emit(RunStarted(task.workflowKey, task.tenantId))] <= e.effects
    && Classifies(Context(task, InProgress, Some(Classify), None, [], [], [], [], None, None, None, None), env,
                  Episode(e.context, e.effects[2..]))
  }

  /** A waiting run goes on after its decision. */
  ghost predicate GoesOn(c: Context, decision: ApprovalStatus, env: Collaborators, e: Episode) {
    match decision
    case Approved =>
      && [SetStatus(InProgress, None), Unpark] <= e.effects
      && Answers(c.(state := InProgress, step := Some(GenerateResponse)), env, Episode(e.context, e.effects[2..]))
    case Rejected => IsCanceled(c, "Approval rejected", e)
    case Expired => IsCanceled(c, "Approval expired", e)
    case Undecided => false
  }

  ghost predicate IsCanceled(c: Context, reason: string, e: Episode) {
    && e.context == c.(state := Canceled, failureReason := Some(reason))
    && e.effects == [SetStatus(Canceled, None), Emit(RunCompleted(Canceled, Some(reason))), Purge]
  }

  // ---- The engine's loop tells exactly these stories ----

  lemma AnswerTold(c: Context, env: Collaborators)
    requires c.state == InProgress && c.step == Some(GenerateResponse)
    ensures Answers(c, env, Loop(c, env))
  {
    var next := Pass(c, env);
    assert Entering(c) == c;
    if next.context.state == InProgress {
      var done := next.context;
      assert Entering(done) == done;
      assert Loop(done, env).effects == Pass(done, env).effects + [];
    }
    if env.describeRoute(c).Ok? {
      var route := env.describeRoute(c).value;
      var selected := if route.Some? then [Emit(ModelSelected(route.value))] else [];
      assert Emitted(RouteEvents(route)) == selected;
    }
  }

  lemma {:induction false} FirstGatedFound(records: seq<ToolRecord>)
    ensures match FirstGated(records)
            case None => forall i :: 0 <= i < |records| ==> !records[i].requiresApproval
            case Some(record) => exists k: nat :: FirstGateAt(records, k) && records[k] == record
  {
    if records == [] {
    } else if records[0].requiresApproval {
      assert FirstGateAt(records, 0);
    } else {
      FirstGatedFound(records[1..]);
      if FirstGated(records[1..]).Some? {
        var k: nat :| FirstGateAt(records[1..], k) && records[1..][k] == FirstGated(records[1..]).value;
        assert FirstGateAt(records, k + 1);
      }
    }
  }

  lemma PauseTold(c: Context, x: ToolPhaseResult, id: ApprovalId)
    ensures Pauses(c, x, id, RequestApproval(c, x.reason, x.preview, id))
  {
    FirstGatedFound(c.records);
    var gated := FirstGated(c.records);
    var preview := if gated.Some? && gated.value.preview.Some? then gated.value.preview else x.preview;
    var e := RequestApproval(c, x.reason, x.preview, id);
    var why := if x.reason in {None, Some("")} then "Approval required" else x.reason.value;
    assert Shows(c.records, x.preview, e.context.pendingInvocation, preview);
    assert e.effects[0] == OpenApproval(id, why, preview, e.context.pendingInvocation);
  }

  lemma LoopStopsAtOnce(c: Context, env: Collaborators)
    requires c.state == InProgress && Pass(Entering(c), env).context.state != InProgress
    ensures Loop(c, env) == Pass(Entering(c), env)
  {
    var next := Pass(Entering(c), env);
    assert next.effects + [] == next.effects;
  }

  lemma LoopGoesOn(c: Context, env: Collaborators)
    requires c.state == InProgress && Pass(Entering(c), env).context.state == InProgress
    ensures var next := Pass(Entering(c), env);
            Loop(c, env) == After(next.effects, Loop(next.context, env))
  {
  }

  /** A later step never touches the records. */
  lemma AnswerKeepsRecords(c: Context, env: Collaborators)
    requires c.state == InProgress && c.step == Some(GenerateResponse)
    ensures Loop(c, env).context.records == c.records
  {
    AnswerTold(c, env);
  }

  lemma AnnouncesFirst(planned: seq<ToolCall>, rest: seq<Effect>)
    ensures var effects := Emitted(CallEvents(planned)) + [CallTools] + rest;
            Announces(planned, effects) && effects[|planned| + 1..] == rest
  {
  }

  lemma ReportsFirst(records: seq<ToolRecord>, rest: seq<Effect>)
    ensures var effects := Emitted(ResultEvents(records)) + rest;
            Reports(records, effects) && effects[|records|..] == rest
  {
  }

  lemma ToolsTold(c: Context, env: Collaborators)
    requires c.state == InProgress && c.step == Some(ExecuteTools)
    ensures UsesTools(c, env, Loop(c, env))
  {
    hide Answers, Pauses, Announces, Reports, AreRecords, RecordsOf, CallEvents, ResultEvents;
    assert Entering(c) == c;
    var calls := Emitted(CallEvents(c.planned)) + [CallTools];
    match env.executeTools(c)
    case Raised(error) =>
      LoopStopsAtOnce(c, env);
      AnnouncesFirst(c.planned, Fail(c, error).effects);
    case Ok(x) =>
      var records := RecordsOf(c, x);
      var done := c.(results := x.outputs, records := records);
      DerivedTold(c, x);
      if x.requiresApproval {
        var paused := done.(step := Some(RequestApprovalIfNeeded));
        var last := RequestApproval(paused, x.reason, x.preview, env.newApprovalId);
        LoopStopsAtOnce(c, env);
        PauseTold(paused, x, env.newApprovalId);
        ReportsFirst(records, last.effects);
        AnnouncesFirst(c.planned, Emitted(ResultEvents(records)) + last.effects);
      } else {
        var asked := done.(step := Some(GenerateResponse));
        var last := Loop(asked, env);
        LoopGoesOn(c, env);
        AnswerTold(asked, env);
        AnswerKeepsRecords(asked, env);
        ReportsFirst(records, last.effects);
        AnnouncesFirst(c.planned, Emitted(ResultEvents(records)) + last.effects);
        assert Pass(c, env).effects == calls + (Emitted(ResultEvents(records)) + []);
        assert Loop(c, env).effects == calls + (Emitted(ResultEvents(records)) + last.effects);
      }
  }

  lemma DerivedTold(c: Context, x: ToolPhaseResult)
    ensures AreRecords(c.planned, x, RecordsOf(c, x))
  {
  }

  lemma PlanTold(c: Context, env: Collaborators)
    requires c.state == InProgress && c.step == Some(DecideTools)
    ensures Plans(c, env, Loop(c, env))
  {
    hide UsesTools;
    assert Entering(c) == c;
    match env.planTools(c)
    case Raised(error) => LoopStopsAtOnce(c, env);
    case Ok(plan) =>
      LoopGoesOn(c, env);
      var next := c.(planned := plan, step := Some(ExecuteTools));
      ToolsTold(next, env);
      assert [] + Loop(next, env).effects == Loop(next, env).effects;
  }

  lemma RetrievalTold(c: Context, env: Collaborators)
    requires c.state == InProgress && c.step == Some(RetrieveContext)
    ensures Retrieves(c, env, Loop(c, env))
  {
    hide Plans;
    assert Entering(c) == c;
    assert Label(c) == if c.classification in {None, Some("")} then "unclassified" else c.classification.value by {
      assert c.classification.Some? ==> c.classification == Some(c.classification.value);
    }
    match env.retrieve(c.task, Label(c))
    case Raised(error) => LoopStopsAtOnce(c, env);
    case Ok(found) =>
      LoopGoesOn(c, env);
      var next := c.(retrieved := found, step := Some(DecideTools));
      PlanTold(next, env);
      assert Episode(Loop(c, env).context, Loop(c, env).effects[1..]) == Loop(next, env);
  }

  /** Every start, whatever its collaborators do, is such a run from its beginning. */
  lemma StartTold(task: Task, env: Collaborators)
    ensures Begins(task, env, Execute(FreshContext(task), env))
  {
    hide Retrieves;
    var c := FreshContext(task).(state := InProgress);
    var entered := c.(step := Some(Classify));
    assert Entering(c) == entered;
    match env.classify(task)
    case Raised(error) => LoopStopsAtOnce(c, env);
    case Ok(found) =>
      LoopGoesOn(c, env);
      var next := entered.(classification := Some(found), step := Some(RetrieveContext));
      RetrievalTold(next, env);
      assert [] + Loop(next, env).effects == Loop(next, env).effects;
    assert Execute(FreshContext(task), env).effects[2..] == Loop(c, env).effects;
  }

  /** And every decision on a waiting run, such a continuation; recording it in the trace comes first, if asked for. */
  lemma ResumeTold(c: Context, decision: ApprovalStatus, record: bool, env: Collaborators)
    requires c.state == WaitingForApproval && c.approvalId.Some? && decision != Undecided
    ensures var recorded := if record then [Emit(ApprovalResolved(c.approvalId.value, decision))] else [];
            var e := Resume(c, decision, record, env);
            recorded <= e.effects && GoesOn(c, decision, env, Episode(e.context, e.effects[|recorded|..]))
  {
    var recorded := if record then [Emit(ApprovalResolved(c.approvalId.value, decision))] else [];
    var e := Resume(c, decision, record, env);
    if decision == Approved {
      var woken := c.(state := InProgress, step := Some(GenerateResponse));
      AnswerTold(woken, env);
      assert e.effects[|recorded|..] == Wake(c, env).effects;
      assert Wake(c, env).effects[2..] == Loop(woken, env).effects;
    } else {
      assert "Approval " + "rejected" == "Approval rejected" && "Approval " + "expired" == "Approval expired";
      assert e.effects[|recorded|..] == Cancel(c, "Approval " + Lowered(decision)).effects;
    }
  }

  // ---- What the stories say about where a run's fields come from ----

  /**
   * Everything a paused or completed run holds is what its collaborators returned: each was asked with
   * what the ones before it had answered.
   */
  ghost predicate Gathered(c: Context, env: Collaborators) {
    && c.classification.Some? && env.classify(c.task) == Ok(c.classification.value)
    && env.retrieve(c.task, if c.classification == Some("") then "unclassified" else c.classification.value)
       == Ok(c.retrieved)
    && env.planTools(Context(c.task, InProgress, Some(DecideTools), c.classification, c.retrieved, [], [], [],
                             None, None, None, None)) == Ok(c.planned)
    && var x := env.executeTools(AtTools(c));
    && x.Ok? && c.results == x.value.outputs && AreRecords(c.planned, x.value, c.records)
  }

  /** The context as the executor saw it. */
  function AtTools(c: Context): Context {
    Context(c.task, InProgress, Some(ExecuteTools), c.classification, c.retrieved, c.planned, [], [],
            None, None, None, None)
  }

  /** The context as route and response were asked for. */
  function AtAnswer(c: Context): Context {
    Context(c.task, InProgress, Some(GenerateResponse), c.classification, c.retrieved, c.planned, c.results, c.records,
            None, c.approvalId, c.pendingInvocation, None)
  }

  /** The response is the generator's text, and follows a route that was found. */
  ghost predicate Answered(c: Context, env: Collaborators) {
    && c.responseText.Some? && env.generateResponse(AtAnswer(c)) == Ok(c.responseText.value)
    && env.describeRoute(AtAnswer(c)).Ok?
  }

  /** A route is announced exactly when one was found, and it is that one. */
  ghost predicate Selects(c: Context, env: Collaborators, effects: seq<Effect>) {
    forall route :: Emit(ModelSelected(route)) in effects <==> env.describeRoute(AtAnswer(c)) == Ok(Some(route))
  }

  ghost predicate SelectsNothing(effects: seq<Effect>) {
    forall route :: Emit(ModelSelected(route)) !in effects
  }

  /** The reason of a failed run is the text raised by the collaborator at whose step it stopped. */
  ghost predicate Quoted(c: Context, env: Collaborators) {
    c.failureReason.Some? && c.step.Some? &&
    var error := c.failureReason.value;
    var at := c.(state := InProgress, failureReason := None);
    match c.step.value
    case Classify => env.classify(c.task) == Raised(error)
    case RetrieveContext =>
      c.classification.Some? &&
      env.retrieve(c.task, if c.classification == Some("") then "unclassified" else c.classification.value)
      == Raised(error)
    case DecideTools => env.planTools(at) == Raised(error)
    case ExecuteTools => env.executeTools(at) == Raised(error)
    case GenerateResponse =>
      env.describeRoute(at) == Raised(error) || (env.describeRoute(at).Ok? && env.generateResponse(at) == Raised(error))
    case _ => false
  }

  lemma AnswersFrom(c: Context, env: Collaborators, e: Episode)
    requires Answers(c, env, e) && c == AtAnswer(c)
    ensures e.context.state in {Completed, Failed}
    ensures e.context == c.(state := e.context.state, step := e.context.step, responseText := e.context.responseText,
                            failureReason := e.context.failureReason)
    ensures e.context.state == Completed ==> Answered(e.context, env) && Selects(e.context, env, e.effects)
    ensures e.context.state == Failed ==> Quoted(e.context, env)
    ensures forall x :: x in e.effects ==> !x.OpenApproval?
  {
    if env.describeRoute(c).Ok? {
      var route := env.describeRoute(c).value;
      var selected := if route.Some? then [Emit(ModelSelected(route.value))] else [];
      assert e.effects == selected + e.effects[|selected|..];
    }
  }

  /** What a run's approval shows. */
  ghost predicate Requested(c: Context, env: Collaborators, reason: string, preview: Option<Payload>,
                            invocation: Option<InvocationId>) {
    && env.executeTools(AtTools(c)).Ok?
    && var x := env.executeTools(AtTools(c)).value;
    && x.requiresApproval
    && reason == (if x.reason in {None, Some("")} then "Approval required" else x.reason.value)
    && Shows(c.records, x.preview, invocation, preview)
  }

  ghost predicate Opens(c: Context, env: Collaborators, effects: seq<Effect>) {
    forall x :: x in effects && x.OpenApproval? ==> Requested(c, env, x.reason, x.preview, x.invocation)
  }

  lemma ToolsFrom(c: Context, env: Collaborators, e: Episode)
    requires UsesTools(c, env, e) && c == AtTools(c)
    ensures e.context.state in {Completed, Failed, WaitingForApproval} && Opens(e.context, env, e.effects)
    ensures e.context.task == c.task && e.context.classification == c.classification
    ensures e.context.retrieved == c.retrieved && e.context.planned == c.planned
    ensures e.context.state != Failed ==>
              env.executeTools(c).Ok? && e.context.results == env.executeTools(c).value.outputs
              && AreRecords(c.planned, env.executeTools(c).value, e.context.records)
    ensures e.context.state == Completed ==> Answered(e.context, env) && Selects(e.context, env, e.effects)
    ensures e.context.state == Failed ==> Quoted(e.context, env)
    ensures e.context.state != WaitingForApproval ==> e.context.approvalId.None?
    ensures e.context.state == WaitingForApproval ==>
              && SelectsNothing(e.effects)
              && e.context.approvalId == Some(env.newApprovalId)
              && e.context.responseText.None? && e.context.failureReason.None?
  {
    assert |c.planned| < |e.effects|;
    var rest := e.effects[|c.planned| + 1..];
    AnnouncesOpenNothing(c.planned, e.effects);
    match env.executeTools(c)
    case Raised(_) =>
    case Ok(x) =>
      var records := e.context.records;
      ReportsOpenNothing(records, rest);
      var done := c.(results := x.outputs, records := records);
      var last := Episode(e.context, rest[|records|..]);
      if x.requiresApproval {
        PauseFrom(done.(step := Some(RequestApprovalIfNeeded)), env, last);
      } else {
        AnswersFrom(done.(step := Some(GenerateResponse)), env, last);
      }
  }

  lemma AnnouncesOpenNothing(planned: seq<ToolCall>, effects: seq<Effect>)
    requires Announces(planned, effects)
    ensures forall x :: x in effects && x.OpenApproval? ==> x in effects[|planned| + 1..]
    ensures forall route :: Emit(ModelSelected(route)) in effects <==>
              Emit(ModelSelected(route)) in effects[|planned| + 1..]
  {
    assert effects == effects[..|planned| + 1] + effects[|planned| + 1..];
  }

  lemma ReportsOpenNothing(records: seq<ToolRecord>, effects: seq<Effect>)
    requires Reports(records, effects)
    ensures forall x :: x in effects && x.OpenApproval? ==> x in effects[|records|..]
    ensures forall route :: Emit(ModelSelected(route)) in effects <==>
              Emit(ModelSelected(route)) in effects[|records|..]
  {
    assert effects == effects[..|records|] + effects[|records|..];
  }

  lemma PauseFrom(c: Context, env: Collaborators, e: Episode)
    requires env.executeTools(AtTools(c)).Ok? && env.executeTools(AtTools(c)).value.requiresApproval
    requires Pauses(c, env.executeTools(AtTools(c)).value, env.newApprovalId, e)
    ensures e.context == c.(state := WaitingForApproval, approvalId := Some(env.newApprovalId),
                            pendingInvocation := e.context.pendingInvocation)
    ensures Opens(e.context, env, e.effects) && SelectsNothing(e.effects)
  {
    hide Shows;
    var x := env.executeTools(AtTools(c)).value;
    var preview :| Shows(c.records, x.preview, e.context.pendingInvocation, preview)
      && e.effects == [OpenApproval(env.newApprovalId,
                                    if x.reason in {None, Some("")} then "Approval required" else x.reason.value,
                                    preview, e.context.pendingInvocation),
                       Emit(ApprovalRequested(env.newApprovalId, e.context.pendingInvocation, preview)),
                       SetStatus(WaitingForApproval, None), Park(env.newApprovalId), Register(env.newApprovalId)];
    assert AtTools(e.context) == AtTools(c);
  }

  /** Where everything in a started run comes from. */
  lemma BeginsFrom(task: Task, env: Collaborators, e: Episode)
    requires Begins(task, env, e)
    ensures e.context.task == task && e.context.state in {Completed, Failed, WaitingForApproval}
    ensures e.context.state != Failed ==> Gathered(e.context, env)
    ensures e.context.state == Completed ==> Answered(e.context, env) && Selects(e.context, env, e.effects)
    ensures e.context.state == Failed ==> Quoted(e.context, env)
    ensures e.context.state != WaitingForApproval ==> e.context.approvalId.None?
    ensures e.context.state == WaitingForApproval ==>
              && SelectsNothing(e.effects)
              && e.context.approvalId == Some(env.newApprovalId)
              && e.context.responseText.None? && e.context.failureReason.None?
    ensures Opens(e.context, env, e.effects)
  {
    hide UsesTools, Answered, Quoted, AreRecords, Requested;
    assert e.effects == e.effects[..2] + e.effects[2..];
    var rest := e.effects[2..];
    var c := Context(task, InProgress, Some(Classify), None, [], [], [], [], None, None, None, None);
    if env.classify(task).Raised? {
      EarlyFailure(c, env, env.classify(task).error, Episode(e.context, rest));
    } else {
      var c1 := c.(classification := Some(env.classify(task).value), step := Some(RetrieveContext));
      var named := if c1.classification in {None, Some("")} then "unclassified" else c1.classification.value;
      var found := env.retrieve(task, named);
      if found.Raised? {
        EarlyFailure(c1, env, found.error, Episode(e.context, rest));
      } else {
        assert rest == rest[..1] + rest[1..];
        var c2 := c1.(retrieved := found.value, step := Some(DecideTools));
        if env.planTools(c2).Raised? {
          EarlyFailure(c2, env, env.planTools(c2).error, Episode(e.context, rest[1..]));
        } else {
          var c3 := c2.(planned := env.planTools(c2).value, step := Some(ExecuteTools));
          ToolsFrom(c3, env, Episode(e.context, rest[1..]));
        }
      }
    }
  }

  lemma EarlyFailure(c: Context, env: Collaborators, error: string, e: Episode)
    requires Fails(c, error, e) && c.state == InProgress && c.failureReason.None?
    requires c.step in {Some(Classify), Some(RetrieveContext), Some(DecideTools)}
    requires c.step == Some(Classify) ==> env.classify(c.task) == Raised(error)
    requires c.step == Some(RetrieveContext) ==>
               c.classification.Some?
               && env.retrieve(c.task, if c.classification == Some("") then "unclassified" else c.classification.value)
                  == Raised(error)
    requires c.step == Some(DecideTools) ==> env.planTools(c) == Raised(error)
    ensures e.context.approvalId == c.approvalId
    ensures Quoted(e.context, env) && forall x :: x in e.effects ==> !x.OpenApproval?
  {
  }
}
