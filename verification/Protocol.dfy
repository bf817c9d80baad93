/** What holds of one run's share while the engine works on it and once it has let go of it. */
module Protocol {
  import opened Prelude
  import opened Domain
  import opened Tables
  import opened Lifecycle
  import opened Projection

  // ---- The trace a run must have, written from its context ----

  function Begun(c: Context): seq<Event> {
    [RunStarted(c.task.workflowKey, c.task.tenantId)]
  }

  function Grounded(c: Context): seq<Event> {
    Begun(c) + [RetrievalCompleted(Label(c), |c.retrieved|)]
  }

  function Called(c: Context): seq<Event> {
    Grounded(c) + CallEvents(c.planned)
  }

  function Tooled(c: Context): seq<Event> {
    Called(c) + ResultEvents(c.records)
  }

  /** The approval part of the trace: nothing, a request, or a request and its decision. */
  function Gate(l: Local): seq<Event> {
    if l.context.approvalId.None? || l.context.approvalId.value !in l.approvals then []
    else
      var id := l.context.approvalId.value;
      var row := l.approvals[id];
      [ApprovalRequested(id, row.invocation, row.preview)]
      + if row.status == Undecided then [] else [ApprovalResolved(id, row.status)]
  }

  function Answering(l: Local, route: Option<Route>): seq<Event> {
    Tooled(l.context) + Gate(l) + RouteEvents(route)
  }

  /** Where a collaborator may have raised. */
  ghost predicate CutShort(l: Local, kept: seq<Event>) {
    || (l.context.approvalId.None? && kept in {Begun(l.context), Grounded(l.context), Called(l.context)})
    || exists route :: kept == Answering(l, route)
  }

  ghost predicate TraceFits(l: Local) {
    var c := l.context;
    match c.state
    case WaitingForApproval => l.log == Tooled(c) + Gate(l)
    case Completed => exists route :: l.log == Answering(l, route) + [RunCompleted(Completed, c.responseText)]
    case Canceled => l.log == Tooled(c) + Gate(l) + [RunCompleted(Canceled, c.failureReason)]
    case Failed =>
      c.failureReason.Some?
      && exists kept :: CutShort(l, kept) && l.log == kept + [RunFailed(c.failureReason.value)]
    case _ => false
  }

  // ---- The other columns ----

  function Passed(c: Context): seq<RunState> {
    if c.approvalId.None? then [InProgress] else [InProgress, WaitingForApproval, InProgress]
  }

  function HistoryOf(c: Context): seq<RunState> {
    match c.state
    case WaitingForApproval => [InProgress, WaitingForApproval]
    case Canceled => [InProgress, WaitingForApproval, Canceled]
    case _ => Passed(c) + [c.state]
  }

  /** The run has the approval its context names and no other, and it shows the first gated record. */
  ghost predicate ApprovalFits(l: Local) {
    match l.context.approvalId
    case None => l.approvals == map[]
    case Some(id) =>
      && l.approvals.Keys == {id}
      && var row := l.approvals[id]; var gated := FirstGated(l.context.records);
      && row.invocation == l.context.pendingInvocation
      && l.context.pendingInvocation == (if gated.Some? then gated.value.invocation else None)
      && (gated.Some? && gated.value.preview.Some? ==> row.preview == gated.value.preview)
  }

  ghost predicate ClockFits(l: Local) {
    && l.row.startedAt.Some? && l.row.startedAt.value < l.now
    && (l.row.completedAt.Some? <==> Terminal(l.row.status))
    && (l.row.completedAt.Some? ==> l.row.startedAt.value <= l.row.completedAt.value < l.now)
    && forall id :: id in l.approvals ==>
      var row := l.approvals[id];
      && l.row.startedAt.value <= row.requestedAt < l.now
      && (row.resolvedAt.Some? <==> row.status != Undecided)
      && (row.resolvedAt.Some? ==> row.requestedAt <= row.resolvedAt.value < l.now)
      && (row.resolvedAt.Some? && l.row.completedAt.Some? ==> row.resolvedAt.value <= l.row.completedAt.value)
  }

  function Verdict(l: Local): ApprovalStatus {
    if l.context.approvalId.Some? && l.context.approvalId.value in l.approvals
    then l.approvals[l.context.approvalId.value].status else Undecided
  }

  ghost predicate StatesFit(l: Local) {
    var c := l.context;
    && l.row.status == c.state
    && l.row.task == c.task
    && l.row.lastError == (if c.state == Failed then c.failureReason else None)
    && (c.failureReason.Some? <==> c.state in {Failed, Canceled})
  }

  /** What the controller still holds, and which decisions the run's state allows. */
  ghost predicate GateFits(l: Local) {
    var c := l.context;
    && (c.state == WaitingForApproval ==> c.approvalId.Some?)
    && (c.state == WaitingForApproval && l.parked ==> Verdict(l) == Undecided)
    && (c.state == Canceled ==> c.approvalId.Some? && Verdict(l) in {Rejected, Expired})
    && (c.state in {Completed, Failed} && c.approvalId.Some? ==> Verdict(l) == Approved)
    && (l.parked ==> c.state == WaitingForApproval)
    && l.index == (if l.parked then {c.approvalId.value} else {})
  }

  /** A run no engine call is working on. */
  ghost predicate AtRest(l: Local) {
    && l.context.state in {WaitingForApproval, Completed, Failed, Canceled}
    && StatesFit(l) && ApprovalFits(l) && GateFits(l) && TraceFits(l) && ClockFits(l)
    && l.row.history == HistoryOf(l.context)
    && (l.context.responseText.Some? <==> l.context.state == Completed)
    && l.toolPhases <= 1
    && (l.context.state != Failed || l.context.approvalId.Some? ==> l.toolPhases == 1)
  }

  /** At rest, and if it waits then the controller knows of it. */
  ghost predicate Attended(l: Local) {
    AtRest(l) && (l.context.state == WaitingForApproval ==> l.parked)
  }

  /** A run at the top of the main loop. */
  ghost predicate Underway(l: Local) {
    var c := l.context;
    && c.state == InProgress
    && StatesFit(l) && ApprovalFits(l) && ClockFits(l)
    && l.row.history == Passed(c)
    && (c.approvalId.Some? ==> Verdict(l) == Approved)
    && !l.parked
    && l.index == (if c.approvalId.None? then {} else {c.approvalId.value})
    && (c.responseText.None? || c.step == Some(Complete))
    && match c.step
       case None => StageFits(l, Begun(c))
       case Some(Classify) => StageFits(l, Begun(c))
       case Some(RetrieveContext) => StageFits(l, Begun(c))
       case Some(DecideTools) => StageFits(l, Grounded(c))
       case Some(ExecuteTools) => c.approvalId.None? && l.log == Grounded(c) && l.toolPhases == 0
       case Some(RequestApprovalIfNeeded) => false
       case Some(GenerateResponse) => l.log == Tooled(c) + Gate(l) && l.toolPhases == 1
       case Some(Complete) => c.responseText.Some? && l.toolPhases == 1 && exists route :: l.log == Answering(l, route)
  }

  /** Before the tools have run: nothing planned, nothing recorded, no approval asked for. */
  ghost predicate StageFits(l: Local, log: seq<Event>) {
    var c := l.context;
    c.approvalId.None? && c.planned == [] && c.records == [] && l.log == log && l.toolPhases == 0
  }

  // ---- Effects of one episode on one share ----

  /** The share once the episode is over. */
  function Arrive(l: Local, r: RunId, episode: Episode): Local {
    LocalApplyAll(l, r, episode.effects).(context := episode.context)
  }

  lemma ContextKeptOne(l: Local, r: RunId, effect: Effect, c: Context)
    ensures LocalApply(l.(context := c), r, effect) == LocalApply(l, r, effect).(context := c)
  {
  }

  lemma {:induction false} ContextKept(l: Local, r: RunId, effects: seq<Effect>, c: Context)
    ensures LocalApplyAll(l.(context := c), r, effects) == LocalApplyAll(l, r, effects).(context := c)
  {
    if effects != [] {
      ContextKept(l, r, effects[..|effects| - 1], c);
      ContextKeptOne(LocalApplyAll(l, r, effects[..|effects| - 1]), r, effects[|effects| - 1], c);
    }
  }

  lemma ArriveAfter(l: Local, r: RunId, effects: seq<Effect>, rest: Episode)
    ensures Arrive(l, r, After(effects, rest)) == Arrive(LocalApplyAll(l, r, effects), r, rest)
  {
    LocalApplyInTwoParts(l, r, effects, rest.effects);
  }

  lemma {:induction false} EmitMany(l: Local, r: RunId, events: seq<Event>)
    ensures LocalApplyAll(l, r, Emitted(events)) == l.(log := l.log + events)
  {
    if events == [] {
      assert l.log + events == l.log;
    } else {
      var n := |events| - 1;
      EmitMany(l, r, events[..n]);
      assert Emitted(events)[..n] == Emitted(events[..n]);
      assert l.log + events == (l.log + events[..n]) + [events[n]];
    }
  }

  lemma OneEffect(l: Local, r: RunId, a: Effect)
    ensures LocalApplyAll(l, r, [a]) == LocalApply(l, r, a)
  {
  }

  lemma TwoEffects(l: Local, r: RunId, a: Effect, b: Effect)
    ensures LocalApplyAll(l, r, [a, b]) == LocalApply(LocalApply(l, r, a), r, b)
  {
    OneEffect(l, r, a);
    LocalApplyOneMore(l, r, [a], b);
    assert [a] + [b] == [a, b];
  }

  lemma ThreeEffects(l: Local, r: RunId, a: Effect, b: Effect, c: Effect)
    ensures LocalApplyAll(l, r, [a, b, c]) == LocalApply(LocalApply(LocalApply(l, r, a), r, b), r, c)
  {
    TwoEffects(l, r, a, b);
    LocalApplyOneMore(l, r, [a, b], c);
    assert [a, b] + [c] == [a, b, c];
  }

  // ---- One pass of the loop ----

  lemma FailLands(l: Local, r: RunId, c: Context, reason: string)
    requires c.state == InProgress
    ensures Arrive(l, r, Fail(c, reason)) ==
            l.(context := c.(state := Failed, failureReason := Some(reason)),
               row := WriteStatus(l.row, Failed, Some(reason), l.now), now := l.now + 1,
               log := l.log + [RunFailed(reason)], parked := false, index := {})
  {
    ThreeEffects(l, r, SetStatus(Failed, Some(reason)), Emit(RunFailed(reason)), Purge);
  }

  /** A collaborator raises: what was logged so far is kept and closed with RUN_FAILED. */
  lemma FailRests(l: Local, r: RunId, reason: string, kept: seq<Event>)
    requires l.context.state == InProgress && l.context.responseText.None? && !l.parked
    requires StatesFit(l) && ApprovalFits(l) && ClockFits(l) && l.row.history == Passed(l.context)
    requires l.context.approvalId.Some? ==> Verdict(l) == Approved
    requires l.toolPhases <= 1 && l.log == kept && CutShort(l, kept)
    requires l.context.approvalId.Some? ==> l.toolPhases == 1
    ensures Attended(Arrive(l, r, Fail(l.context, reason)))
  {
    FailLands(l, r, l.context, reason);
    var l' := Arrive(l, r, Fail(l.context, reason));
    if exists route :: kept == Answering(l, route) {
      var route :| kept == Answering(l, route);
      assert kept == Answering(l', route);
    }
    assert CutShort(l', kept);
  }

  lemma RequestRests(l: Local, r: RunId, reason: Option<string>, preview: Option<Payload>, id: ApprovalId)
    requires l.context.state == InProgress && l.context.responseText.None? && l.context.approvalId.None?
    requires StatesFit(l) && ApprovalFits(l) && ClockFits(l) && l.row.history == [InProgress]
    requires l.toolPhases == 1 && l.log == Tooled(l.context) && l.index == {}
    ensures Attended(Arrive(l, r, RequestApproval(l.context, reason, preview, id)))
  {
    var ep := RequestApproval(l.context, reason, preview, id);
    ThreeEffects(l, r, ep.effects[0], ep.effects[1], ep.effects[2]);
    var middle := LocalApplyAll(l, r, ep.effects[..3]);
    assert ep.effects[..3] == [ep.effects[0], ep.effects[1], ep.effects[2]];
    TwoEffects(middle, r, ep.effects[3], ep.effects[4]);
    assert ep.effects == ep.effects[..3] + [ep.effects[3], ep.effects[4]];
    LocalApplyInTwoParts(l, r, ep.effects[..3], [ep.effects[3], ep.effects[4]]);
  }

  /** The executor has answered: its records are logged, and the run pauses or goes on. */
  lemma ResultKeeps(l: Local, r: RunId, x: ToolPhaseResult, id: ApprovalId)
    requires l.context.state == InProgress && l.context.responseText.None? && l.context.approvalId.None?
    requires StatesFit(l) && ApprovalFits(l) && ClockFits(l) && l.row.history == [InProgress]
    requires l.toolPhases == 1 && l.log == Called(l.context) && l.index == {} && !l.parked
    ensures var l' := Arrive(l, r, TakeResult(l.context, x, id));
            if l'.context.state == InProgress then Underway(l') else Attended(l')
  {
    var c := l.context;
    var done := c.(results := x.outputs, records := RecordsOf(c, x));
    var rest := if x.requiresApproval
                then RequestApproval(done.(step := Some(RequestApprovalIfNeeded)), x.reason, x.preview, id)
                else Episode(done.(step := Some(GenerateResponse)), []);
    ArriveAfter(l, r, Emitted(ResultEvents(done.records)), rest);
    EmitMany(l, r, ResultEvents(done.records));
    var tooled := l.(log := Tooled(done), context := done.(step := Some(RequestApprovalIfNeeded)));
    ContextKept(LocalApplyAll(l, r, Emitted(ResultEvents(done.records))), r, rest.effects, tooled.context);
    if x.requiresApproval {
      RequestRests(tooled, r, x.reason, x.preview, id);
    } else {
      assert Tooled(done) + [] == Tooled(done);
    }
  }

  lemma ToolsKeep(l: Local, r: RunId, env: Collaborators)
    requires Underway(l) && l.context.step == Some(ExecuteTools)
    ensures var l' := Arrive(l, r, RunTools(l.context, env));
            if l'.context.state == InProgress then Underway(l') else Attended(l')
  {
    var c := l.context;
    var calls := Emitted(CallEvents(c.planned)) + [CallTools];
    EmitMany(l, r, CallEvents(c.planned));
    LocalApplyOneMore(l, r, Emitted(CallEvents(c.planned)), CallTools);
    var called := LocalApplyAll(l, r, calls);
    assert called == l.(log := Called(c), toolPhases := 1);
    match env.executeTools(c)
    case Raised(e) =>
      ArriveAfter(l, r, calls, Fail(c, e));
      FailRests(called, r, e, Called(c));
    case Ok(x) =>
      ArriveAfter(l, r, calls, TakeResult(c, x, env.newApprovalId));
      ResultKeeps(called, r, x, env.newApprovalId);
  }

  lemma RespondKeeps(l: Local, r: RunId, env: Collaborators)
    requires Underway(l) && l.context.step == Some(GenerateResponse)
    ensures var l' := Arrive(l, r, Respond(l.context, env));
            if l'.context.state == InProgress then Underway(l') else Attended(l')
  {
    var c := l.context;
    match env.describeRoute(c)
    case Raised(e) =>
      assert l.log == Answering(l, None);
      FailRests(l, r, e, l.log);
    case Ok(route) =>
      EmitMany(l, r, RouteEvents(route));
      var routed := l.(log := Answering(l, route));
      assert routed.log == Answering(routed, route);
      match env.generateResponse(c) {
        case Raised(e) =>
          ArriveAfter(l, r, Emitted(RouteEvents(route)), Fail(c, e));
          FailRests(routed, r, e, routed.log);
        case Ok(text) =>
          var answered := c.(responseText := Some(text), step := Some(Complete));
          ArriveAfter(l, r, Emitted(RouteEvents(route)), Episode(answered, []));
          assert Arrive(l, r, Respond(c, env)) == routed.(context := answered);
          assert routed.log == Answering(routed.(context := answered), route);
      }
  }

  lemma CompleteRests(l: Local, r: RunId)
    requires Underway(l) && l.context.step == Some(Complete)
    ensures var c := l.context;
            Attended(Arrive(l, r, Episode(c.(state := Completed),
              [SetStatus(Completed, None), Emit(RunCompleted(Completed, c.responseText)), Purge])))
  {
    var c := l.context;
    ThreeEffects(l, r, SetStatus(Completed, None), Emit(RunCompleted(Completed, c.responseText)), Purge);
    var l' := Arrive(l, r, Episode(c.(state := Completed),
                [SetStatus(Completed, None), Emit(RunCompleted(Completed, c.responseText)), Purge]));
    var route :| l.log == Answering(l, route);
    assert l'.log == Answering(l', route) + [RunCompleted(Completed, c.responseText)];
  }

  lemma PassKeeps(l: Local, r: RunId, env: Collaborators)
    requires Underway(l) && l.context.step.Some?
    ensures var l' := Arrive(l, r, Pass(l.context, env));
            if l'.context.state == InProgress then Underway(l') else Attended(l')
  {
    var c := l.context;
    match c.step.value
    case Classify =>
      match env.classify(c.task) {
        case Raised(e) => FailRests(l, r, e, Begun(c));
        case Ok(_) =>
      }
    case RetrieveContext =>
      match env.retrieve(c.task, Label(c)) {
        case Raised(e) => FailRests(l, r, e, Begun(c));
        case Ok(found) => OneEffect(l, r, Emit(RetrievalCompleted(Label(c), |found|)));
      }
    case DecideTools =>
      match env.planTools(c) {
        case Raised(e) => FailRests(l, r, e, Grounded(c));
        case Ok(_) =>
      }
    case ExecuteTools => ToolsKeep(l, r, env);
    case GenerateResponse => RespondKeeps(l, r, env);
    case Complete => CompleteRests(l, r);
  }

  // ---- Whole engine calls ----

  /** The main loop, entered with the run underway, never leaves it in progress. */
  lemma {:induction false} LoopRests(l: Local, r: RunId, env: Collaborators)
    requires Underway(l)
    ensures Attended(Arrive(l, r, Loop(l.context, env)))
    decreases Remaining(l.context.step)
  {
    var entered := l.(context := Entering(l.context));
    var next := Pass(entered.context, env);
    PassKeeps(entered, r, env);
    ContextKept(l, r, next.effects, entered.context);
    var l' := Arrive(l, r, next);
    ArriveAfter(l, r, next.effects,
      if next.context.state == InProgress then Loop(next.context, env) else Episode(next.context, []));
    ContextKept(LocalApplyAll(l, r, next.effects), r, Loop(next.context, env).effects, next.context);
    if next.context.state == InProgress {
      LoopRests(l', r, env);
    }
  }

  function Newborn(task: Task, now: nat): Local {
    Local(FreshContext(task), NewRow(task), [], map[], now, false, {}, 0)
  }

  lemma StartRests(task: Task, now: nat, r: RunId, env: Collaborators)
    ensures Attended(Arrive(Newborn(task, now), r, Execute(FreshContext(task), env)))
  {
    var l := Newborn(task, now);
    var c := FreshContext(task).(state := InProgress);
    var first := [SetStatus(InProgress, None), Emit(RunStarted(task.workflowKey, task.tenantId))];
    TwoEffects(l, r, first[0], first[1]);
    var begun := LocalApplyAll(l, r, first).(context := c);
    ContextKept(LocalApplyAll(l, r, first), r, Loop(c, env).effects, c);
    ArriveAfter(l, r, first, Loop(c, env));
    LoopRests(begun, r, env);
  }

  /** The share of a waiting run once its approval has been decided and the decision logged. */
  ghost predicate Decided(l: Local, decision: ApprovalStatus) {
    && l.context.state == WaitingForApproval && l.context.approvalId.Some? && l.context.responseText.None?
    && StatesFit(l) && ApprovalFits(l) && ClockFits(l)
    && Verdict(l) == decision && decision != Undecided
    && l.parked && l.index == {l.context.approvalId.value} && l.toolPhases == 1
    && l.row.history == [InProgress, WaitingForApproval]
    && l.log == Tooled(l.context) + Gate(l)
  }

  lemma SettleDecides(l: Local, r: RunId, decision: ApprovalStatus)
    requires AtRest(l) && l.context.state == WaitingForApproval && Verdict(l) == Undecided
    requires decision != Undecided
    ensures var id := l.context.approvalId.value;
            var l' := LocalApplyAll(l, r, [Settle(id, decision), Emit(ApprovalResolved(id, decision))]);
            if l.parked then Decided(l', decision) else AtRest(l')
  {
    var id := l.context.approvalId.value;
    TwoEffects(l, r, Settle(id, decision), Emit(ApprovalResolved(id, decision)));
    var l' := LocalApplyAll(l, r, [Settle(id, decision), Emit(ApprovalResolved(id, decision))]);
    assert l'.log == Tooled(l.context) + Gate(l');
  }

  lemma ApprovedRests(l: Local, r: RunId, env: Collaborators)
    requires Decided(l, Approved)
    ensures Attended(Arrive(l, r, Resume(l.context, Approved, false, env)))
  {
    var c2 := l.context.(state := InProgress, step := Some(GenerateResponse));
    var woken := [SetStatus(InProgress, None), Unpark];
    TwoEffects(l, r, woken[0], woken[1]);
    var l2 := LocalApplyAll(l, r, woken).(context := c2);
    ArriveAfter(l, r, [], After(woken, Loop(c2, env)));
    ArriveAfter(l, r, woken, Loop(c2, env));
    ContextKept(LocalApplyAll(l, r, woken), r, Loop(c2, env).effects, c2);
    assert Gate(l2) == Gate(l);
    LoopRests(l2, r, env);
  }

  lemma RefusedRests(l: Local, r: RunId, decision: ApprovalStatus, env: Collaborators)
    requires Decided(l, decision) && decision != Approved
    ensures Attended(Arrive(l, r, Resume(l.context, decision, false, env)))
  {
    var ended := Cancel(l.context, "Approval " + Lowered(decision));
    ArriveAfter(l, r, [], ended);
    ThreeEffects(l, r, ended.effects[0], ended.effects[1], ended.effects[2]);
    var l' := Arrive(l, r, ended);
    assert Gate(l') == Gate(l);
  }

  /** Resuming a parked run whose approval has just been decided brings it to rest again. */
  lemma ResumeRests(l: Local, r: RunId, decision: ApprovalStatus, env: Collaborators)
    requires Decided(l, decision)
    ensures Attended(Arrive(l, r, Resume(l.context, decision, false, env)))
  {
    if decision == Approved {
      ApprovedRests(l, r, env);
    } else {
      RefusedRests(l, r, decision, env);
    }
  }

  lemma LaterRests(l: Local, now: nat)
    requires AtRest(l) && l.now <= now
    ensures AtRest(l.(now := now))
  {
    var l' := l.(now := now);
    assert forall route :: Answering(l', route) == Answering(l, route);
    assert forall kept :: CutShort(l, kept) ==> CutShort(l', kept);
  }

  lemma RestartRests(l: Local)
    requires AtRest(l)
    ensures AtRest(l.(parked := false, index := {}))
  {
  }
}
