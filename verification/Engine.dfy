/** The orchestrator engine: it works on a context in place and calls the stores and hooks in order. */
module Engine {
  import opened Prelude
  import opened Domain
  import opened Tables
  import opened Lifecycle
  import opened System
  import opened Persistence
  import opened Runtime

  class OrchestratorEngine {
    const db: Database
    const runtime: RuntimeController
    ghost var toolPhases: multiset<RunId>

    constructor (db: Database, runtime: RuntimeController)
      ensures this.db == db && this.runtime == runtime && toolPhases == multiset{}
    {
      this.db, this.runtime, toolPhases := db, runtime, multiset{};
    }

    /** The stores and indexes, as one value. */
    ghost function State(): Shared
      reads this, db, runtime
    {
      Shared(db.runs, db.events, db.approvals, db.now, runtime.waiting.Keys, runtime.approvalToRun, toolPhases)
    }

    /** If the controller holds a context for this run, it is this object and no copy. */
    ghost predicate Holds(c: RunContext)
      reads runtime
    {
      c.task.runId in runtime.waiting ==> runtime.waiting[c.task.runId] == c
    }

    twostate predicate OthersKept(c: RunContext)
      reads runtime
    {
      forall q :: q != c.task.runId ==>
        && (q in runtime.waiting <==> q in old(runtime.waiting))
        && (q in runtime.waiting ==> runtime.waiting[q] == old(runtime.waiting)[q])
    }

    /** The call has turned the context into the episode's and has had exactly its effects. */
    twostate predicate Did(c: RunContext, episode: Episode)
      reads this, db, runtime, c
    {
      && c.Value() == episode.context
      && State() == ApplyAll(old(State()), c.task.runId, episode.effects)
      && OthersKept(c)
      && (old(Holds(c)) ==> Holds(c))
    }

    method RecordEvent(c: RunContext, e: Event)
      modifies db
      ensures State() == Apply(old(State()), c.task.runId, Emit(e))
    {
      var _ := db.AppendRunEvent(c.task.runId, e);
    }

    /** Moves the context and the stored run to `target`; refuses, and changes nothing, if the table forbids it. */
    method TransitionState(c: RunContext, target: RunState, lastError: Option<string>, event: Option<Event>)
      returns (allowed: bool)
      modifies c`state, db
      ensures allowed <==> target in Allowed(old(c.state))
      ensures allowed ==> c.Value() == old(c.Value()).(state := target)
      ensures allowed ==> State() == ApplyAll(old(State()), c.task.runId,
                [SetStatus(target, lastError)] + if event.Some? then [Emit(event.value)] else [])
      ensures !allowed ==> c.Value() == old(c.Value()) && State() == old(State())
    {
      if target !in Allowed(c.state) {
        return false;
      }
      c.state := target;
      var _ := db.UpdateRunStatus(c.task.runId, target, lastError);
      ApplyOneMore(old(State()), c.task.runId, [], SetStatus(target, lastError));
      assert State() == ApplyAll(old(State()), c.task.runId, [SetStatus(target, lastError)]);
      if event.Some? {
        RecordEvent(c, event.value);
        ApplyOneMore(old(State()), c.task.runId, [SetStatus(target, lastError)], Emit(event.value));
      } else {
        assert [SetStatus(target, lastError)] + [] == [SetStatus(target, lastError)];
      }
      return true;
    }

    /** Ends the run in `target`, tells the controller, and keeps the reason. */
    method EndRun(c: RunContext, target: RunState, lastError: Option<string>, event: Event)
      requires Terminal(target) && target in Allowed(c.state)
      modifies c`state, db, runtime
      ensures Did(c, Episode(old(c.Value()).(state := target), [SetStatus(target, lastError), Emit(event), Purge]))
    {
      var allowed := TransitionState(c, target, lastError, Some(event));
      runtime.OnRunCompleted(c.task.runId);
      ApplyOneMore(old(State()), c.task.runId, [SetStatus(target, lastError), Emit(event)], Purge);
      assert [SetStatus(target, lastError)] + [Emit(event)] == [SetStatus(target, lastError), Emit(event)];
      assert [SetStatus(target, lastError), Emit(event)] + [Purge]
          == [SetStatus(target, lastError), Emit(event), Purge];
    }

    /** A run that has not begun cannot fail: the transition is refused, and nothing changes. */
    method FailRun(c: RunContext, reason: string) returns (refused: bool)
      modifies c`state, c`failureReason, db, runtime
      ensures refused <==> old(c.state) == Pending
      ensures refused ==> c.Value() == old(c.Value()) && State() == old(State()) && OthersKept(c)
      ensures !refused ==> Did(c, Fail(old(c.Value()), reason))
    {
      if c.state == Pending {
        var allowed := TransitionState(c, Failed, Some(reason), Some(RunFailed(reason)));
        return true;
      }
      if c.state !in {Completed, Failed, Canceled} {
        EndRun(c, Failed, Some(reason), RunFailed(reason));
      }
      c.failureReason := Some(reason);
      return false;
    }

    method CancelRun(c: RunContext, reason: string)
      modifies c`state, c`failureReason, db, runtime
      ensures Did(c, Cancel(old(c.Value()), reason))
    {
      if c.state !in {Completed, Failed, Canceled} {
        EndRun(c, Canceled, None, RunCompleted(Canceled, Some(reason)));
      }
      c.failureReason := Some(reason);
    }

    /** The approval coordinator's part: the request is stored and announced in the trace. */
    method OpenRequest(c: RunContext, reason: string, preview: Option<Payload>, invocation: Option<InvocationId>,
                       id: ApprovalId)
      modifies db
      ensures State() == Apply(Apply(old(State()), c.task.runId, OpenApproval(id, reason, preview, invocation)),
                               c.task.runId, Emit(ApprovalRequested(id, invocation, preview)))
    {
      db.CreateApprovalRequest(id, c.task.runId, reason, preview, invocation);
      RecordEvent(c, ApprovalRequested(id, invocation, preview));
    }

    /** The run stops: its status says so, and the controller keeps the context and indexes the approval. */
    method Pause(c: RunContext)
      requires c.state == InProgress && c.approvalId.Some?
      modifies c`state, db, runtime
      ensures c.Value() == old(c.Value()).(state := WaitingForApproval)
      ensures State() == Apply(Apply(Apply(old(State()), c.task.runId, SetStatus(WaitingForApproval, None)),
                                     c.task.runId, Park(c.approvalId.value)),
                               c.task.runId, Register(c.approvalId.value))
      ensures OthersKept(c) && Holds(c)
    {
      var allowed := TransitionState(c, WaitingForApproval, None, None);
      ApplySingle(old(State()), c.task.runId, SetStatus(WaitingForApproval, None));
      assert [SetStatus(WaitingForApproval, None)] + [] == [SetStatus(WaitingForApproval, None)];
      runtime.StoreWaitingContext(c);
      runtime.OnWaitingForApproval(c.task.runId, c.approvalId.value);
    }

    method RequestApproval(c: RunContext, reason: Option<string>, preview: Option<Payload>, id: ApprovalId)
      requires c.state == InProgress
      modifies c, db, runtime
      ensures Did(c, Lifecycle.RequestApproval(old(c.Value()), reason, preview, id))
    {
      hide Apply, ApplyAll;
      var gated := FirstGated(c.records);
      c.pendingInvocation := if gated.Some? then gated.value.invocation else None;
      var shown := if gated.Some? && gated.value.preview.Some? then gated.value.preview else preview;
      var why := if reason.None? || reason.value == "" then "Approval required" else reason.value;
      OpenRequest(c, why, shown, c.pendingInvocation, id);
      c.approvalId := Some(id);
      Pause(c);
      ApplyFive(old(State()), c.task.runId, OpenApproval(id, why, shown, c.pendingInvocation),
                Emit(ApprovalRequested(id, c.pendingInvocation, shown)),
                SetStatus(WaitingForApproval, None), Park(id), Register(id));
    }

    /** Appends the events in order. */
    method RecordAll(c: RunContext, events: seq<Event>)
      modifies db
      ensures State() == ApplyAll(old(State()), c.task.runId, Emitted(events))
    {
      var i := 0;
      assert Emitted(events[..0]) == [];
      while i < |events|
        invariant 0 <= i <= |events|
        invariant State() == ApplyAll(old(State()), c.task.runId, Emitted(events[..i]))
      {
        RecordEvent(c, events[i]);
        ApplyOneMore(old(State()), c.task.runId, Emitted(events[..i]), Emit(events[i]));
        assert Emitted(events[..i + 1]) == Emitted(events[..i]) + [Emit(events[i])];
        i := i + 1;
      }
      assert events[..i] == events;
    }

    method TakeResult(c: RunContext, x: ToolPhaseResult, id: ApprovalId)
      requires c.state == InProgress
      modifies c, db, runtime
      ensures Did(c, Lifecycle.TakeResult(old(c.Value()), x, id))
    {
      hide ApplyAll, Lifecycle.RequestApproval;
      c.results := x.outputs;
      c.records := RecordsOf(c.Value(), x);
      ghost var reported := Emitted(ResultEvents(c.records));
      RecordAll(c, ResultEvents(c.records));
      if x.requiresApproval {
        c.step := Some(RequestApprovalIfNeeded);
        ghost var asked := Lifecycle.RequestApproval(c.Value(), x.reason, x.preview, id);
        RequestApproval(c, x.reason, x.preview, id);
        ApplyInTwoParts(old(State()), c.task.runId, reported, asked.effects);
      } else {
        c.step := Some(GenerateResponse);
        assert reported + [] == reported;
      }
    }

    method RunTools(c: RunContext, env: Collaborators)
      requires c.state == InProgress
      modifies c, db, runtime, this
      ensures Did(c, Lifecycle.RunTools(old(c.Value()), env))
    {
      hide ApplyAll, Lifecycle.TakeResult, Fail;
      ghost var r, s0, calls := c.task.runId, State(), Emitted(CallEvents(c.planned));
      RecordAll(c, CallEvents(c.planned));
      toolPhases := toolPhases + multiset{r};
      ApplyOneMore(s0, r, calls, CallTools);
      var answer := env.executeTools(c.Value());
      if answer.Raised? {
        var _ := FailRun(c, answer.error);
        ApplyInTwoParts(s0, r, calls + [CallTools], Fail(old(c.Value()), answer.error).effects);
      } else {
        TakeResult(c, answer.value, env.newApprovalId);
        ApplyInTwoParts(s0, r, calls + [CallTools],
                        Lifecycle.TakeResult(old(c.Value()), answer.value, env.newApprovalId).effects);
      }
    }

    method Respond(c: RunContext, env: Collaborators)
      requires c.state == InProgress
      modifies c, db, runtime
      ensures Did(c, Lifecycle.Respond(old(c.Value()), env))
    {
      ghost var r, s0 := c.task.runId, State();
      var route := env.describeRoute(c.Value());
      if route.Raised? {
        var _ := FailRun(c, route.error);
        return;
      }
      ghost var routed := Emitted(RouteEvents(route.value));
      RecordAll(c, RouteEvents(route.value));
      var text := env.generateResponse(c.Value());
      if text.Raised? {
        var _ := FailRun(c, text.error);
        ApplyInTwoParts(s0, r, routed, Fail(old(c.Value()), text.error).effects);
        return;
      }
      c.responseText := Some(text.value);
      c.step := Some(Complete);
      assert routed + [] == routed;
    }

    /** One pass of the main loop. */
    method Pass(c: RunContext, env: Collaborators)
      requires c.state == InProgress && c.step.Some?
      modifies c, db, runtime, this
      ensures Did(c, Lifecycle.Pass(old(c.Value()), env))
    {
      match c.step.value
      case Classify =>
        var answer := env.classify(c.task);
        if answer.Raised? {
          var _ := FailRun(c, answer.error);
          return;
        }
        c.classification := Some(answer.value);
        c.step := Some(RetrieveContext);
      case RetrieveContext =>
        var answer := env.retrieve(c.task, Label(c.Value()));
        if answer.Raised? {
          var _ := FailRun(c, answer.error);
          return;
        }
        c.retrieved := answer.value;
        RecordEvent(c, RetrievalCompleted(Label(c.Value()), |c.retrieved|));
        ApplyOneMore(old(State()), c.task.runId, [], Emit(RetrievalCompleted(Label(old(c.Value())), |c.retrieved|)));
        assert [] + [Emit(RetrievalCompleted(Label(old(c.Value())), |c.retrieved|))]
            == [Emit(RetrievalCompleted(Label(old(c.Value())), |c.retrieved|))];
        c.step := Some(DecideTools);
      case DecideTools =>
        var answer := env.planTools(c.Value());
        if answer.Raised? {
          var _ := FailRun(c, answer.error);
          return;
        }
        c.planned := answer.value;
        c.step := Some(ExecuteTools);
      case ExecuteTools => RunTools(c, env);
      case RequestApprovalIfNeeded => RequestApproval(c, Some("Approval required"), None, env.newApprovalId);
      case GenerateResponse => Respond(c, env);
      case Complete => EndRun(c, Completed, None, RunCompleted(Completed, c.responseText));
    }

    /** Drives the run until it completes, pauses or fails; no transition on the way is ever refused. */
    method Execute(c: RunContext, env: Collaborators)
      modifies c, db, runtime, this
      ensures Did(c, Lifecycle.Execute(old(c.Value()), env))
    {
      hide Lifecycle.Pass, Loop, ApplyAll;
      ghost var r, s0, whole := c.task.runId, State(), Lifecycle.Execute(c.Value(), env);
      ghost var done: seq<Effect> := [];
      ApplyNone(s0, r);
      if c.state == Pending {
        var started := RunStarted(c.task.workflowKey, c.task.tenantId);
        var allowed := TransitionState(c, InProgress, None, Some(started));
        assert allowed;
        done := [SetStatus(InProgress, None), Emit(started)];
        assert [SetStatus(InProgress, None)] + [Emit(started)] == done;
      }
      assert After(done, Loop(c.Value(), env)) == whole;
      while c.state == InProgress
        invariant State() == ApplyAll(s0, r, done)
        invariant After(done, Loop(c.Value(), env)) == whole
        invariant OthersKept(c) && (old(Holds(c)) ==> Holds(c))
        decreases if c.state == InProgress then Remaining(c.step) + 1 else 0
      {
        ghost var at := c.Value();
        if c.step.None? {
          c.step := Some(Classify);
        }
        ghost var next := Lifecycle.Pass(Entering(at), env);
        Pass(c, env);
        ApplyInTwoParts(s0, r, done, next.effects);
        LoopUnfolds(at, env, done, next);
        done := done + next.effects;
      }
      LoopStops(c.Value(), env, done);
    }

    static lemma LoopUnfolds(at: Context, env: Collaborators, done: seq<Effect>, next: Episode)
      requires at.state == InProgress && next == Lifecycle.Pass(Entering(at), env)
      ensures After(done + next.effects, Loop(next.context, env)) == After(done, Loop(at, env))
    {
      hide Lifecycle.Pass;
      var rest := if next.context.state == InProgress then Loop(next.context, env) else Episode(next.context, []);
      assert Loop(next.context, env) == rest;
      assert done + next.effects + rest.effects == done + (next.effects + rest.effects);
    }

    static lemma LoopStops(at: Context, env: Collaborators, done: seq<Effect>)
      requires at.state != InProgress
      ensures After(done, Loop(at, env)) == Episode(at, done)
    {
    }

    /** An approved run goes on: it is in progress again, and the controller lets go of it. */
    method Wake(c: RunContext, env: Collaborators)
      requires c.state == WaitingForApproval
      modifies c, db, runtime, this
      ensures Did(c, Lifecycle.Wake(old(c.Value()), env))
    {
      hide ApplyAll, Lifecycle.Execute;
      var allowed := TransitionState(c, InProgress, None, None);
      ApplySingle(old(State()), c.task.runId, SetStatus(InProgress, None));
      assert [SetStatus(InProgress, None)] + [] == [SetStatus(InProgress, None)];
      runtime.OnRunResumed(c.task.runId);
      ghost var woken := [SetStatus(InProgress, None), Unpark];
      ApplyTwo(old(State()), c.task.runId, woken[0], woken[1]);
      c.step := Some(GenerateResponse);
      ghost var rest := Lifecycle.Execute(c.Value(), env);
      Execute(c, env);
      ApplyInTwoParts(old(State()), c.task.runId, woken, rest.effects);
    }

    /** Resumes a waiting run once its approval is decided; refuses, and changes nothing, otherwise. */
    method ResumeAfterApproval(c: RunContext, record: bool, env: Collaborators) returns (refusal: Option<string>)
      modifies c, db, runtime, this
      ensures refusal == EngineRefusal(old(State()), old(c.Value()))
      ensures refusal.Some? ==> Did(c, Episode(old(c.Value()), []))
      ensures refusal.None? ==>
                Did(c, Resume(old(c.Value()), old(db.approvals)[old(c.approvalId).value].status, record, env))
    {
      hide ApplyAll, Lifecycle.Wake, Cancel;
      ghost var r, s0 := c.task.runId, State();
      ApplyNone(s0, r);
      if c.state != WaitingForApproval || c.approvalId.None? {
        return Some("Run is not waiting on an approval request");
      }
      var decision := db.GetApprovalDecision(c.approvalId.value);
      if decision.Raised? {
        return Some(decision.error);
      }
      if decision.value == Undecided {
        return Some("Approval request is still pending");
      }
      ghost var recorded := [];
      if record {
        RecordEvent(c, ApprovalResolved(c.approvalId.value, decision.value));
        recorded := [Emit(ApprovalResolved(c.approvalId.value, decision.value))];
        ApplySingle(s0, r, recorded[0]);
      }
      if decision.value != Approved {
        CancelRun(c, "Approval " + Lowered(decision.value));
        ApplyInTwoParts(s0, r, recorded, Cancel(old(c.Value()), "Approval " + Lowered(decision.value)).effects);
      } else {
        Wake(c, env);
        ApplyInTwoParts(s0, r, recorded, Lifecycle.Wake(old(c.Value()), env).effects);
      }
      return None;
    }
  }
}
