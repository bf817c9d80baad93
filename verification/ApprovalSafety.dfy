/** Which runs stop for approval, whatever the collaborators do, and exactly which executors are safe. */
module ApprovalSafety {
  import opened Prelude
  import opened Domain
  import opened Tables
  import opened Lifecycle
  import opened System

  /** The contexts in which the engine asks for tools to be run. */
  ghost predicate AtToolStage(c: Context) {
    && c.state == InProgress && c.step == Some(ExecuteTools) && c.classification.Some?
    && c.results == [] && c.records == [] && c.responseText.None?
    && c.approvalId.None? && c.pendingInvocation.None? && c.failureReason.None?
  }

  /** The executor asks for approval whenever one of its records needs it. */
  ghost predicate HonestAt(execute: Context -> Outcome<ToolPhaseResult>, c: Context) {
    execute(c).Ok? && HasGatedRecord(execute(c).value.records) ==> execute(c).value.requiresApproval
  }

  ghost predicate Honest(execute: Context -> Outcome<ToolPhaseResult>) {
    forall c :: AtToolStage(c) ==> HonestAt(execute, c)
  }

  /** A gated record is matched by an approval request. */
  ghost predicate Governed(c: Context) {
    HasGatedRecord(c.records) ==> c.approvalId.Some?
  }

  /** The run has ended well although a gated record went without an approval request. */
  ghost predicate Slipped(c: Context) {
    c.state == Completed && !Governed(c)
  }

  /** What a context can look like on the way to the tools. */
  ghost predicate Early(c: Context) {
    && c.state == InProgress && c.results == [] && c.records == [] && c.responseText.None?
    && c.approvalId.None? && c.pendingInvocation.None? && c.failureReason.None?
    && match c.step
       case None => true
       case Some(Classify) => true
       case Some(RetrieveContext) => c.classification.Some?
       case Some(DecideTools) => c.classification.Some?
       case Some(ExecuteTools) => c.classification.Some?
       case _ => false
  }

  ghost predicate Late(c: Context) {
    Governed(c) && c.step in {Some(GenerateResponse), Some(Complete)}
  }

  lemma DerivedAreNotGated(c: Context, x: ToolPhaseResult)
    ensures HasGatedRecord(RecordsOf(c, x)) == HasGatedRecord(x.records)
  {
  }

  lemma ToolsGovern(c: Context, env: Collaborators)
    requires AtToolStage(c) && HonestAt(env.executeTools, c)
    ensures var next := RunTools(c, env).context;
            Governed(next) && (next.state == InProgress ==> Late(next))
  {
    if env.executeTools(c).Ok? {
      DerivedAreNotGated(c, env.executeTools(c).value);
    }
  }

  lemma {:induction false} LoopGoverns(c: Context, env: Collaborators)
    requires Honest(env.executeTools) && (Early(c) || Late(c))
    ensures Governed(Loop(c, env).context)
    decreases Remaining(c.step)
  {
    if c.state == InProgress {
      var entered := Entering(c);
      var next := Pass(entered, env);
      if entered.step == Some(ExecuteTools) {
        ToolsGovern(entered, env);
      }
      if next.context.state == InProgress {
        LoopGoverns(next.context, env);
      }
    }
  }

  /** With an honest executor no run gets past a gated record without asking for approval. */
  lemma StartGoverns(task: Task, env: Collaborators)
    requires Honest(env.executeTools)
    ensures Governed(Execute(FreshContext(task), env).context)
  {
    LoopGoverns(FreshContext(task).(state := InProgress), env);
  }

  /** Waking a run neither runs tools nor forgets its approval, so it needs no honesty. */
  lemma ResumeGoverns(c: Context, decision: ApprovalStatus, env: Collaborators)
    requires c.approvalId.Some? && c.state == WaitingForApproval
    ensures var ended := Resume(c, decision, false, env).context;
            ended.records == c.records && ended.approvalId == c.approvalId
  {
    if decision == Approved {
      var woken := c.(state := InProgress, step := Some(GenerateResponse));
      var next := Pass(woken, env);
      if next.context.state == InProgress {
        assert Loop(next.context, env).context == Pass(next.context, env).context;
      }
    }
  }

  // ---- Which steps a run takes ----

  /** The steps the main loop enters, in order. */
  function Visited(c: Context, env: Collaborators): seq<RunStep>
    decreases Remaining(c.step)
  {
    if c.state != InProgress then []
    else
      var next := Pass(Entering(c), env);
      [Entering(c).step.value] + if next.context.state == InProgress then Visited(next.context, env) else []
  }

  /** No step is taken twice, and the loop's own approval step is never taken: tools ask for approval themselves. */
  lemma {:induction false} StepsDescend(c: Context, env: Collaborators)
    requires Early(c) || c.step in {Some(GenerateResponse), Some(Complete)}
    ensures var steps := Visited(c, env);
            && RequestApprovalIfNeeded !in steps
            && (forall i :: 0 <= i < |steps| ==> Remaining(Some(steps[i])) <= Remaining(c.step))
            && forall i, j :: 0 <= i < j < |steps| ==> Remaining(Some(steps[j])) < Remaining(Some(steps[i]))
    decreases Remaining(c.step)
  {
    if c.state == InProgress {
      var next := Pass(Entering(c), env);
      if next.context.state == InProgress {
        StepsDescend(next.context, env);
      }
    }
  }

  // ---- A dishonest executor always has a run that slips ----

  /** Collaborators that lead a new run of `c.task` to the tool stage `c`, and then let it finish. */
  function LeadingTo(c: Context, execute: Context -> Outcome<ToolPhaseResult>): Collaborators
    requires c.classification.Some?
  {
    Collaborators(
      (task: Task) => Ok(c.classification.value),
      (task: Task, label': string) => Ok(c.retrieved),
      (at: Context) => Ok(c.planned),
      execute,
      (at: Context) => Ok(None),
      (at: Context) => Ok("done"),
      0)
  }

  lemma LeadsToTools(c: Context, env: Collaborators)
    requires AtToolStage(c) && env == LeadingTo(c, env.executeTools).(newApprovalId := env.newApprovalId)
    ensures Execute(FreshContext(c.task), env).context == Loop(c, env).context
  {
    var c0 := FreshContext(c.task).(state := InProgress);
    var c1 := c0.(classification := c.classification, step := Some(RetrieveContext));
    assert Pass(Entering(c0), env).context == c1;
    assert Loop(c0, env).context == Loop(c1, env).context;
    var c2 := c1.(retrieved := c.retrieved, step := Some(DecideTools));
    assert Pass(c1, env).context == c2;
    assert Loop(c1, env).context == Loop(c2, env).context;
    assert Pass(c2, env).context == c;
    assert Loop(c2, env).context == Loop(c, env).context;
  }

  lemma DishonestySlips(c: Context, execute: Context -> Outcome<ToolPhaseResult>)
    requires AtToolStage(c) && !HonestAt(execute, c)
    ensures Slipped(Execute(FreshContext(c.task), LeadingTo(c, execute)).context)
  {
    var env := LeadingTo(c, execute);
    LeadsToTools(c, env);
    var x := execute(c).value;
    DerivedAreNotGated(c, x);
    var d := c.(results := x.outputs, records := RecordsOf(c, x), step := Some(GenerateResponse));
    assert Pass(c, env).context == d;
    assert Loop(c, env).context == Loop(d, env).context;
    var e := d.(responseText := Some("done"), step := Some(Complete));
    assert Pass(d, env).context == e;
    assert Loop(d, env).context == Loop(e, env).context;
    assert Loop(e, env).context == Pass(e, env).context;
  }

  /**
   * The engine trusts the executor's flag and does not look at the records itself. So no run slips
   * exactly when the executor is honest wherever the engine can call it.
   */
  lemma SafeExactlyWhenHonest(execute: Context -> Outcome<ToolPhaseResult>)
    ensures Honest(execute) <==>
            forall task, env: Collaborators :: env.executeTools == execute ==>
              !Slipped(Execute(FreshContext(task), env).context)
  {
    if Honest(execute) {
      forall task, env: Collaborators | env.executeTools == execute
        ensures !Slipped(Execute(FreshContext(task), env).context)
      {
        StartGoverns(task, env);
      }
    } else {
      var c :| AtToolStage(c) && !HonestAt(execute, c);
      DishonestySlips(c, execute);
      assert LeadingTo(c, execute).executeTools == execute;
    }
  }

  // ---- The same over whole runs of the platform ----

  ghost predicate HonestAction(a: Action) {
    a.Start? ==> Honest(a.env.executeTools)
  }

  ghost predicate AllGoverned(w: World) {
    forall r :: r in w.contexts ==> Governed(w.contexts[r])
  }

  lemma StepGoverns(w: World, a: Action)
    requires AllGoverned(w) && HonestAction(a)
    ensures AllGoverned(Step(w, a))
  {
    if Enabled(w, a) {
      match a
      case Start(task, env) => StartGoverns(task, env);
      case Decide(id, decision, env) =>
        if id in w.shared.approvals && w.shared.approvals[id].status == Undecided {
          var decided := w.(shared := ApplyAll(w.shared, w.shared.approvals[id].runId, ResolveEffects(id, decision)));
          ResumeRunGoverns(decided, id, env);
        }
      case TryResume(id, env) => ResumeRunGoverns(w, id, env);
      case Restart =>
    }
  }

  lemma ResumeRunGoverns(w: World, id: ApprovalId, env: Collaborators)
    requires AllGoverned(w)
    ensures AllGoverned(ResumeRun(w, id, env))
  {
    if ResumeRefusal(w, id).None? {
      var c := w.contexts[w.shared.index[id]];
      ResumeGoverns(c, w.shared.approvals[c.approvalId.value].status, env);
    }
  }

  lemma {:induction false} ReachedGoverned(actions: seq<Action>)
    requires forall i :: 0 <= i < |actions| ==> HonestAction(actions[i])
    ensures AllGoverned(Reached(actions))
  {
    if actions != [] {
      ReachedGoverned(actions[..|actions| - 1]);
      StepGoverns(Reached(actions[..|actions| - 1]), actions[|actions| - 1]);
    }
  }
}
