/** Every run of the platform, accounted for: which calls made it, and what their collaborators said. */
module Chronicle {
  import opened Prelude
  import opened Domain
  import opened Tables
  import opened Lifecycle
  import opened System
  import opened Projection
  import opened Protocol
  import opened Invariant
  import opened Guarantees
  import opened ReadModel
  import Story

  /** The events among some effects. */
  function Trace(effects: seq<Effect>): seq<Event> {
    if effects == [] then []
    else
      var last := effects[|effects| - 1];
      Trace(effects[..|effects| - 1]) + if last.Emit? then [last.event] else []
  }

  lemma {:induction false} TraceInTwoParts(first: seq<Effect>, second: seq<Effect>)
    ensures Trace(first + second) == Trace(first) + Trace(second)
  {
    if second == [] {
      assert first + second == first;
    } else {
      var n := |second| - 1;
      TraceInTwoParts(first, second[..n]);
      assert (first + second)[..|first + second| - 1] == first + second[..n];
    }
  }

  lemma LogAfterOne(s: Shared, r: RunId, effect: Effect, q: RunId)
    ensures Log(Apply(s, r, effect).events, q)
            == Log(s.events, q) + if q == r && effect.Emit? then [effect.event] else []
  {
    if effect.Emit? {
      LogAppend(s.events, r, effect.event, q);
    }
  }

  lemma {:induction false} LogAfter(s: Shared, r: RunId, effects: seq<Effect>, q: RunId)
    ensures Log(ApplyAll(s, r, effects).events, q) == Log(s.events, q) + if q == r then Trace(effects) else []
  {
    hide Apply, Log;
    if effects != [] {
      var front, last := effects[..|effects| - 1], effects[|effects| - 1];
      LogAfter(s, r, front, q);
      LogAfterOne(ApplyAll(s, r, front), r, last, q);
    }
  }

  /** The part of an approval that no decision changes. */
  ghost predicate SameRequest(a: ApprovalRow, b: ApprovalRow) {
    b == a.(status := b.status, resolvedAt := b.resolvedAt)
  }

  function Opening(id: ApprovalId, row: ApprovalRow): Effect {
    OpenApproval(id, row.reason, row.preview, row.invocation)
  }

  lemma RowAfterOne(s: Shared, r: RunId, effect: Effect, id: ApprovalId)
    requires id in Apply(s, r, effect).approvals
    ensures var row := Apply(s, r, effect).approvals[id];
            || (id in s.approvals && SameRequest(s.approvals[id], row))
            || (row.runId == r && Opening(id, row) == effect)
  {
  }

  lemma {:induction false} RowsAfter(s: Shared, r: RunId, effects: seq<Effect>, id: ApprovalId)
    requires id in ApplyAll(s, r, effects).approvals
    ensures var row := ApplyAll(s, r, effects).approvals[id];
            || (id in s.approvals && SameRequest(s.approvals[id], row))
            || (row.runId == r && Opening(id, row) in effects)
  {
    hide Apply;
    if effects != [] {
      var front, last := effects[..|effects| - 1], effects[|effects| - 1];
      assert forall x :: x in front ==> x in effects;
      RowAfterOne(ApplyAll(s, r, front), r, last, id);
      if id in ApplyAll(s, r, front).approvals {
        RowsAfter(s, r, front, id);
      }
    }
  }

  // ---- What each run goes back to ----

  /** A decision on a paused run, from the run's state and trace before it to those after it. */
  ghost predicate DecidedBy(a: Action, before: Context, logged: seq<Event>, c: Context, log: seq<Event>) {
    && a.Decide? && a.decision != Undecided
    && before.state == WaitingForApproval && before.approvalId == Some(a.approval)
    && var noted := logged + [ApprovalResolved(a.approval, a.decision)];
    || (c == before && log == noted)
    || (c == Resume(before, a.decision, false, a.env).context
        && log == noted + Trace(Resume(before, a.decision, false, a.env).effects))
  }

  ghost predicate RequestsFit(s: Shared, r: RunId, effects: seq<Effect>) {
    forall id :: id in s.approvals && s.approvals[id].runId == r ==> Opening(id, s.approvals[id]) in effects
  }

  ghost predicate Grown(actions: seq<Action>, e: Episode, c: Context, log: seq<Event>) {
    || (c == e.context && log == Trace(e.effects))
    || exists i :: 0 <= i < |actions| && DecidedBy(actions[i], e.context, Trace(e.effects), c, log)
  }

  ghost predicate ToldBy(actions: seq<Action>, w: World, r: RunId, env: Collaborators)
    requires r in w.contexts
  {
    var c := w.contexts[r];
    var e := Execute(FreshContext(c.task), env);
    && Start(c.task, env) in actions
    && RequestsFit(w.shared, r, e.effects)
    && Grown(actions, e, c, Log(w.shared.events, r))
  }

  lemma StillTold(actions: seq<Action>, a: Action, w: World, w': World, r: RunId, env: Collaborators)
    requires r in w.contexts && ToldBy(actions, w, r, env)
    requires r in w'.contexts && w'.contexts[r] == w.contexts[r] && Log(w'.shared.events, r) == Log(w.shared.events, r)
    requires forall id :: id in w'.shared.approvals && w'.shared.approvals[id].runId == r ==>
               id in w.shared.approvals && SameRequest(w.shared.approvals[id], w'.shared.approvals[id])
    ensures ToldBy(actions + [a], w', r, env)
  {
    hide Execute, DecidedBy;
    var c, e, log := w.contexts[r], Execute(FreshContext(w.contexts[r].task), env), Log(w.shared.events, r);
    assert forall x :: x in actions ==> x in actions + [a];
    if !(c == e.context && log == Trace(e.effects)) {
      var i :| 0 <= i < |actions| && DecidedBy(actions[i], e.context, Trace(e.effects), c, log);
      assert (actions + [a])[i] == actions[i];
    }
  }

  /** What one run does leaves the others' accounts alone. */
  lemma OthersStillTold(actions: seq<Action>, a: Action, w: World, r: RunId, effects: seq<Effect>, c: Context, q: RunId,
                        env: Collaborators)
    requires q != r && q in w.contexts && ToldBy(actions, w, q, env)
    ensures ToldBy(actions + [a], World(ApplyAll(w.shared, r, effects), w.contexts[r := c]), q, env)
  {
    hide ToldBy, ApplyAll, SameRequest;
    var w' := World(ApplyAll(w.shared, r, effects), w.contexts[r := c]);
    LogAfter(w.shared, r, effects, q);
    forall id | id in w'.shared.approvals && w'.shared.approvals[id].runId == q
      ensures id in w.shared.approvals && SameRequest(w.shared.approvals[id], w'.shared.approvals[id])
    {
      RowsAfter(w.shared, r, effects, id);
    }
    StillTold(actions, a, w, w', q, env);
  }

  lemma BornTold(actions: seq<Action>, w: World, task: Task, env: Collaborators)
    requires Sound(w, false) && task.runId !in w.shared.runs
    ensures ToldBy(actions + [Start(task, env)], StartRun(w, task, env), task.runId, env)
  {
    hide Execute, ApplyAll, AtRest;
    var r, e := task.runId, Execute(FreshContext(task), env);
    var born := Created(w, task);
    var s := StartRun(w, task, env).shared;
    ExecuteKeepsTask(FreshContext(task), env);
    LogAfter(born.shared, r, e.effects, r);
    NobodysLog(w.shared.events, r);
    forall id | id in s.approvals && s.approvals[id].runId == r
      ensures Opening(id, s.approvals[id]) in e.effects
    {
      RowsAfter(born.shared, r, e.effects, id);
    }
  }

  /** An approval still undecided has no decision in the trace. */
  lemma UndecidedIsUnlogged(w: World, id: ApprovalId)
    requires Sound(w, false) && id in w.shared.approvals && w.shared.approvals[id].status == Undecided
    ensures var log := Log(w.shared.events, w.shared.approvals[id].runId);
            log != [] && log[|log| - 1].ApprovalRequested?
  {
    ApprovalIsNamed(w, id, false);
    var l := Share(w, w.shared.approvals[id].runId);
    assert l.log == Tooled(l.context) + Gate(l);
  }

  lemma ResumeIsOver(c: Context, decision: ApprovalStatus, env: Collaborators)
    requires c.state == WaitingForApproval && c.approvalId.Some? && decision != Undecided
    ensures Resume(c, decision, false, env).context.state != WaitingForApproval
    ensures forall x :: x in Resume(c, decision, false, env).effects ==> !x.OpenApproval?
  {
    var e := Resume(c, decision, false, env);
    ResumeEnds(c, decision, env);
    Story.ResumeTold(c, decision, false, env);
    assert e.effects[0..] == e.effects;
    if decision == Approved {
      OpensNothing(c.(state := InProgress, step := Some(GenerateResponse)), env, Episode(e.context, e.effects[2..]));
      assert e.effects == e.effects[..2] + e.effects[2..];
    }
  }

  lemma OpensNothing(c: Context, env: Collaborators, e: Episode)
    requires Story.Answers(c, env, e)
    ensures forall x :: x in e.effects ==> !x.OpenApproval?
  {
    if env.describeRoute(c).Ok? {
      var route := env.describeRoute(c).value;
      var selected := if route.Some? then [Emit(ModelSelected(route.value))] else [];
      assert e.effects == selected + e.effects[|selected|..];
    }
  }

  /** A run whose approval is undecided has only been started. */
  lemma UndecidedIsNew(actions: seq<Action>, w: World, id: ApprovalId, env: Collaborators)
    requires Sound(w, false) && id in w.shared.approvals && w.shared.approvals[id].status == Undecided
    requires w.shared.approvals[id].runId in w.contexts && ToldBy(actions, w, w.shared.approvals[id].runId, env)
    ensures var r := w.shared.approvals[id].runId; var e := Execute(FreshContext(w.contexts[r].task), env);
            && w.contexts[r] == e.context && Log(w.shared.events, r) == Trace(e.effects)
            && e.context.state == WaitingForApproval && e.context.approvalId == Some(id)
  {
    hide Execute, Resume, AtRest;
    var r := w.shared.approvals[id].runId;
    var c, e, log := w.contexts[r], Execute(FreshContext(w.contexts[r].task), env), Log(w.shared.events, r);
    ApprovalIsNamed(w, id, false);
    UndecidedIsUnlogged(w, id);
    forall i | 0 <= i < |actions| && actions[i].Decide? && actions[i].decision != Undecided
      ensures !DecidedBy(actions[i], e.context, Trace(e.effects), c, log)
    {
      if e.context.state == WaitingForApproval && e.context.approvalId == Some(actions[i].approval) {
        ResumeIsOver(e.context, actions[i].decision, actions[i].env);
      }
    }
  }

  lemma DecisionTold(actions: seq<Action>, w: World, id: ApprovalId, decision: ApprovalStatus, later: Collaborators,
                     env: Collaborators)
    requires Sound(w, false) && Enabled(w, Decide(id, decision, later))
    requires id in w.shared.approvals && w.shared.approvals[id].status == Undecided
    requires w.shared.approvals[id].runId in w.contexts && ToldBy(actions, w, w.shared.approvals[id].runId, env)
    ensures var w' := ResolveApproval(w, id, decision, later); var r := w.shared.approvals[id].runId;
            r in w'.contexts && ToldBy(actions + [Decide(id, decision, later)], w', r, env)
  {
    hide Execute, Resume, AtRest, ApplyAll, ResolveApproval, Sound;
    var r, a := w.shared.approvals[id].runId, Decide(id, decision, later);
    var c, log := w.contexts[r], Log(w.shared.events, r);
    var e := Execute(FreshContext(c.task), env);
    UndecidedIsNew(actions, w, id, env);
    ResolutionTraced(id, decision);
    assert (actions + [a])[|actions|] == a;
    assert forall x :: x in actions ==> x in actions + [a];
    var w' := ResolveApproval(w, id, decision, later);
    if id in w.shared.index {
      IndexedIsParked(w, id, false);
      var f := Resume(c, decision, false, later);
      DecideUnfolds(w, id, decision, later, false);
      ResumeKeepsTask(c, decision, later);
      ResumeIsOver(c, decision, later);
      LogAfter(w.shared, r, ResolveEffects(id, decision) + f.effects, r);
      TraceInTwoParts(ResolveEffects(id, decision), f.effects);
      assert Log(w'.shared.events, r) == log + [ApprovalResolved(id, decision)] + Trace(f.effects);
      assert DecidedBy(a, e.context, Trace(e.effects), f.context, Log(w'.shared.events, r));
      RequestsStillFit(w.shared, r, ResolveEffects(id, decision) + f.effects, e.effects);
    } else {
      OrphanUnfolds(w, id, decision, later);
      LogAfter(w.shared, r, ResolveEffects(id, decision), r);
      assert DecidedBy(a, e.context, Trace(e.effects), c, Log(w'.shared.events, r));
      RequestsStillFit(w.shared, r, ResolveEffects(id, decision), e.effects);
    }
  }

  lemma ResolutionTraced(id: ApprovalId, decision: ApprovalStatus)
    ensures Trace(ResolveEffects(id, decision)) == [ApprovalResolved(id, decision)]
    ensures forall x :: x in ResolveEffects(id, decision) ==> !x.OpenApproval?
  {
    var effects := ResolveEffects(id, decision);
    assert effects[..1] == [Settle(id, decision)] && effects[..1][..0] == [];
    assert Trace(effects[..1]) == [];
  }

  lemma RequestsStillFit(s: Shared, r: RunId, effects: seq<Effect>, opening: seq<Effect>)
    requires RequestsFit(s, r, opening) && forall x :: x in effects ==> !x.OpenApproval?
    ensures RequestsFit(ApplyAll(s, r, effects), r, opening)
  {
    hide ApplyAll;
    var s' := ApplyAll(s, r, effects);
    forall id | id in s'.approvals && s'.approvals[id].runId == r
      ensures Opening(id, s'.approvals[id]) in opening
    {
      RowsAfter(s, r, effects, id);
    }
  }

  lemma OrphanUnfolds(w: World, id: ApprovalId, decision: ApprovalStatus, env: Collaborators)
    requires id in w.shared.approvals && w.shared.approvals[id].status == Undecided && id !in w.shared.index
    ensures var r := w.shared.approvals[id].runId;
            ResolveApproval(w, id, decision, env)
            == World(ApplyAll(w.shared, r, ResolveEffects(id, decision)), w.contexts)
  {
    hide ApplyAll;
    DecisionOnly(w.shared, w.shared.approvals[id].runId, id, decision);
  }

  ghost predicate AllTold(actions: seq<Action>, w: World) {
    forall r :: r in w.contexts ==> exists env :: ToldBy(actions, w, r, env)
  }

  lemma StartsTold(actions: seq<Action>, w: World, task: Task, env: Collaborators)
    requires Sound(w, false) && AllTold(actions, w) && task.runId !in w.shared.runs
    ensures AllTold(actions + [Start(task, env)], StartRun(w, task, env))
  {
    hide Execute, ToldBy, ApplyAll, AtRest;
    BornTold(actions, w, task, env);
    var born := w.(shared := Created(w, task).shared);
    var e := Execute(FreshContext(task), env);
    forall q | q in w.contexts
      ensures exists who :: ToldBy(actions + [Start(task, env)], StartRun(w, task, env), q, who)
    {
      var who :| ToldBy(actions, w, q, who);
      BornToldStill(actions, w, born, q, who);
      OthersStillTold(actions, Start(task, env), born, task.runId, e.effects, e.context, q, who);
    }
  }

  /** A new row in the run table changes no account. */
  lemma BornToldStill(actions: seq<Action>, w: World, born: World, q: RunId, env: Collaborators)
    requires q in w.contexts && ToldBy(actions, w, q, env)
    requires born == w.(shared := w.shared.(runs := born.shared.runs))
    ensures ToldBy(actions, born, q, env)
  {
    hide Execute, Grown;
  }

  lemma DecidesTold(actions: seq<Action>, w: World, id: ApprovalId, decision: ApprovalStatus, env: Collaborators)
    requires Sound(w, false) && AllTold(actions, w) && Enabled(w, Decide(id, decision, env))
    requires id in w.shared.approvals && w.shared.approvals[id].status == Undecided
    ensures AllTold(actions + [Decide(id, decision, env)], ResolveApproval(w, id, decision, env))
  {
    hide Resume, ToldBy, ApplyAll, AtRest, Sound, ResolveApproval;
    ApprovalIsNamed(w, id, false);
    var r, a := w.shared.approvals[id].runId, Decide(id, decision, env);
    var w' := ResolveApproval(w, id, decision, env);
    var who :| ToldBy(actions, w, r, who);
    DecisionTold(actions, w, id, decision, env, who);
    var effects, c;
    if id in w.shared.index {
      IndexedIsParked(w, id, false);
      DecideUnfolds(w, id, decision, env, false);
      var f := Resume(w.contexts[r], decision, false, env);
      effects, c := ResolveEffects(id, decision) + f.effects, f.context;
    } else {
      OrphanUnfolds(w, id, decision, env);
      effects, c := ResolveEffects(id, decision), w.contexts[r];
      assert w.contexts[r := c] == w.contexts;
    }
    forall q | q in w.contexts && q != r
      ensures exists other :: ToldBy(actions + [a], w', q, other)
    {
      var other :| ToldBy(actions, w, q, other);
      OthersStillTold(actions, a, w, r, effects, c, q, other);
    }
  }

  lemma QuietTold(actions: seq<Action>, a: Action, w: World, w': World)
    requires AllTold(actions, w) && w'.contexts == w.contexts
    requires w'.shared.events == w.shared.events && w'.shared.approvals == w.shared.approvals
    ensures AllTold(actions + [a], w')
  {
    hide ToldBy;
    forall q | q in w.contexts
      ensures exists env :: ToldBy(actions + [a], w', q, env)
    {
      var env :| ToldBy(actions, w, q, env);
      StillTold(actions, a, w, w', q, env);
    }
  }

  lemma StepTold(actions: seq<Action>, w: World, a: Action)
    requires Sound(w, false) && AllTold(actions, w)
    ensures AllTold(actions + [a], Step(w, a))
  {
    hide AllTold, AtRest, Execute, Resume;
    if !Enabled(w, a) {
      QuietTold(actions, a, w, w);
    } else {
      match a
      case Start(task, env) => StartsTold(actions, w, task, env);
      case TryResume(id, env) =>
        ResumeIsInert(w, id, env, false);
        QuietTold(actions, a, w, w);
      case Restart => QuietTold(actions, a, w, Step(w, a));
      case Decide(id, decision, env) =>
        if id in w.shared.approvals && w.shared.approvals[id].status == Undecided {
          DecidesTold(actions, w, id, decision, env);
        } else {
          QuietTold(actions, a, w, w);
        }
    }
  }

  lemma {:induction false} ReachedTold(actions: seq<Action>)
    ensures AllTold(actions, Reached(actions))
  {
    hide ToldBy, Sound;
    if actions != [] {
      var front := actions[..|actions| - 1];
      ReachedTold(front);
      ReachedSound(front);
      StepTold(front, Reached(front), actions[|actions| - 1]);
      assert front + [actions[|actions| - 1]] == actions;
    }
  }

  // ---- The accounts ----

  /** How a decision on a paused run shows in the run: it went on as told, or nobody was left to go on. */
  ghost predicate Concludes(a: Action, e: Episode, c: Context, log: seq<Event>) {
    && a.Decide? && e.context.state == WaitingForApproval && e.context.approvalId == Some(a.approval)
    && var noted := Trace(e.effects) + [ApprovalResolved(a.approval, a.decision)];
    || (c == e.context && log == noted)
    || exists f: Episode ::
         Story.GoesOn(e.context, a.decision, a.env, f) && c == f.context && log == noted + Trace(f.effects)
  }

  /**
   * Every run there is goes back to one start call, which went as told, and to at most one decision on it.
   * Its context, its trace and its approval are exactly what these calls made.
   */
  lemma EveryRunIsAccountedFor(actions: seq<Action>, r: RunId) returns (env: Collaborators, e: Episode)
    requires r in Reached(actions).shared.runs
    ensures r in Reached(actions).contexts
    ensures var w := Reached(actions); var c := w.contexts[r]; var log := Log(w.shared.events, r);
            && c.task.runId == r && Start(c.task, env) in actions && Story.Begins(c.task, env, e)
            && RequestsFit(w.shared, r, e.effects)
            && ((c == e.context && log == Trace(e.effects))
                || exists i :: 0 <= i < |actions| && Concludes(actions[i], e, c, log))
  {
    hide Execute, Resume, Story.Begins, Story.GoesOn, AtRest;
    ShareAtRest(actions, r);
    ReachedTold(actions);
    var w := Reached(actions);
    var c, log := w.contexts[r], Log(w.shared.events, r);
    env :| ToldBy(actions, w, r, env);
    e := Execute(FreshContext(c.task), env);
    Story.StartTold(c.task, env);
    if !(c == e.context && log == Trace(e.effects)) {
      var i :| 0 <= i < |actions| && DecidedBy(actions[i], e.context, Trace(e.effects), c, log);
      var a := actions[i];
      Story.ResumeTold(e.context, a.decision, false, a.env);
      var f := Resume(e.context, a.decision, false, a.env);
      assert f.effects[0..] == f.effects;
      assert Story.GoesOn(e.context, a.decision, a.env, f);
      assert Concludes(a, e, c, log);
    }
  }

  /** The run is as it was started, or has since gone on with its answer, its failure or its refusal. */
  ghost predicate GoneOn(a: Action, started: Context, c: Context) {
    && a.Decide? && started.approvalId == Some(a.approval)
    && c == started.(state := c.state, step := c.step, responseText := c.responseText, failureReason := c.failureReason)
    && c.state in {Completed, Failed, Canceled}
    && (c.state == Completed ==> a.decision == Approved && Story.Answered(c, a.env))
    && (c.state == Failed ==> a.decision == Approved && Story.Quoted(c, a.env))
    && (c.state == Canceled ==>
          || (a.decision == Rejected && c.failureReason == Some("Approval rejected"))
          || (a.decision == Expired && c.failureReason == Some("Approval expired")))
  }

  lemma GoingOnIsSo(a: Action, started: Context, f: Episode)
    requires a.Decide? && started.approvalId == Some(a.approval) && started.state == WaitingForApproval
    requires started.responseText.None? && started.failureReason.None?
    requires Story.GoesOn(started, a.decision, a.env, f)
    ensures GoneOn(a, started, f.context)
  {
    if a.decision == Approved {
      var woken := started.(state := InProgress, step := Some(GenerateResponse));
      Story.AnswersFrom(woken, a.env, Episode(f.context, f.effects[2..]));
    }
  }

  /** Where a run comes from: its start call, what that left, and the decision it may have gone on with. */
  lemma RunSources(actions: seq<Action>, r: RunId) returns (env: Collaborators, started: Context)
    requires r in Reached(actions).shared.runs
    ensures r in Reached(actions).contexts
    ensures var w := Reached(actions); var c := w.contexts[r];
            && c.task.runId == r && Start(c.task, env) in actions && started.task == c.task
            && started.state in {Completed, Failed, WaitingForApproval}
            && (started.state == WaitingForApproval || started.approvalId.None?)
            && (started.state != Failed ==> Story.Gathered(started, env))
            && (started.state == Completed ==> Story.Answered(started, env))
            && (started.state == Failed ==> Story.Quoted(started, env))
            && (forall id :: id in w.shared.approvals && w.shared.approvals[id].runId == r ==>
                  var row := w.shared.approvals[id];
                  Story.Requested(started, env, row.reason, row.preview, row.invocation))
            && (c == started || exists i :: 0 <= i < |actions| && GoneOn(actions[i], started, c))
  {
    hide Story.Begins, Story.GoesOn, Story.Gathered, Story.Answered, Story.Quoted, Story.Requested, GoneOn, AtRest;
    var e;
    env, e := EveryRunIsAccountedFor(actions, r);
    started := e.context;
    var w := Reached(actions);
    var c, log := w.contexts[r], Log(w.shared.events, r);
    Story.BeginsFrom(c.task, env, e);
    if c != started {
      var i :| 0 <= i < |actions| && Concludes(actions[i], e, c, log);
      var f: Episode :| Story.GoesOn(started, actions[i].decision, actions[i].env, f) && c == f.context;
      GoingOnIsSo(actions[i], started, f);
    }
  }

  /** Everything a run holds was returned by the collaborators of its start call; so was what its approval shows. */
  lemma RunsHoldWhatWasReturned(actions: seq<Action>, r: RunId) returns (env: Collaborators)
    requires r in Reached(actions).shared.runs
    ensures r in Reached(actions).contexts
    ensures var w := Reached(actions); var c := w.contexts[r];
            && Start(c.task, env) in actions
            && (c.state in {WaitingForApproval, Completed, Canceled} || c.approvalId.Some? ==> Story.Gathered(c, env))
            && forall id :: id in w.shared.approvals && w.shared.approvals[id].runId == r ==>
                 var row := w.shared.approvals[id];
                 Story.Requested(c, env, row.reason, row.preview, row.invocation)
  {
    hide Story.Answered, Story.Quoted, Story.AreRecords, Story.Shows, AtRest;
    ShareAtRest(actions, r);
    RunsRest(actions, r);
    var started;
    env, started := RunSources(actions, r);
    var c := Reached(actions).contexts[r];
    if c == started || c.approvalId == started.approvalId {
      assert Story.AtTools(c) == Story.AtTools(started);
    }
  }

  lemma RunsRest(actions: seq<Action>, r: RunId)
    requires r in Reached(actions).shared.runs
    ensures var w := Reached(actions);
            r in w.contexts && w.contexts[r].state in {WaitingForApproval, Completed, Failed, Canceled}
            && w.contexts[r].state == w.shared.runs[r].status
  {
    ShareAtRest(actions, r);
  }

  lemma {:induction false} TraceMembers(effects: seq<Effect>, e: Event)
    ensures e in Trace(effects) <==> Emit(e) in effects
  {
    if effects != [] {
      TraceMembers(effects[..|effects| - 1], e);
      assert effects == effects[..|effects| - 1] + [effects[|effects| - 1]];
    }
  }

  /** The response and the route came from the run's start call, or from the decision that granted its approval. */
  ghost predicate AnsweredIn(a: Action, c: Context, log: seq<Event>) {
    && (a.Start? || (a.Decide? && a.decision == Approved && c.approvalId == Some(a.approval)))
    && (a.Start? ==> a.task == c.task)
    && Story.Answered(c, a.env)
    && forall route :: ModelSelected(route) in log <==> a.env.describeRoute(Story.AtAnswer(c)) == Ok(Some(route))
  }

  lemma DecisionAnswers(a: Action, started: Context, f: Episode, before: seq<Effect>, log: seq<Event>)
    requires a.Decide? && started.approvalId == Some(a.approval) && started.state == WaitingForApproval
    requires started.responseText.None? && started.failureReason.None? && Story.SelectsNothing(before)
    requires Story.GoesOn(started, a.decision, a.env, f) && f.context.state == Completed
    requires log == Trace(before) + [ApprovalResolved(a.approval, a.decision)] + Trace(f.effects)
    ensures AnsweredIn(a, f.context, log)
  {
    GoingOnIsSo(a, started, f);
    var woken := started.(state := InProgress, step := Some(GenerateResponse));
    Story.AnswersFrom(woken, a.env, Episode(f.context, f.effects[2..]));
    assert f.effects == f.effects[..2] + f.effects[2..];
    forall route
      ensures ModelSelected(route) in log <==> Emit(ModelSelected(route)) in f.effects[2..]
    {
      TraceMembers(before, ModelSelected(route));
      TraceMembers(f.effects, ModelSelected(route));
    }
  }

  /**
   * A completed run's response is the text generated for it, on the context it then had, and its last
   * event carries that text; a route is in its trace exactly when it was the one described.
   */
  lemma CompletedRunsAreAnswered(actions: seq<Action>, r: RunId) returns (a: Action)
    requires r in Reached(actions).shared.runs && Reached(actions).shared.runs[r].status == Completed
    ensures r in Reached(actions).contexts && a in actions
    ensures var w := Reached(actions); var log := Log(w.shared.events, r);
            && AnsweredIn(a, w.contexts[r], log)
            && log != [] && log[|log| - 1] == RunCompleted(Completed, w.contexts[r].responseText)
  {
    hide Story.Begins, Story.GoesOn, Story.Gathered, Story.Quoted, Story.Requested, AnsweredIn, Story.Answered;
    ShareAtRest(actions, r);
    RunsRest(actions, r);
    TextIsLogged(Share(Reached(actions), r));
    var env, e := EveryRunIsAccountedFor(actions, r);
    var w := Reached(actions);
    var c, log := w.contexts[r], Log(w.shared.events, r);
    Story.BeginsFrom(c.task, env, e);
    if c == e.context && log == Trace(e.effects) {
      a := Start(c.task, env);
      StartAnswers(c, env, e);
    } else {
      var i :| 0 <= i < |actions| && Concludes(actions[i], e, c, log);
      a := actions[i];
      var f: Episode :| Story.GoesOn(e.context, a.decision, a.env, f) && c == f.context
                        && log == Trace(e.effects) + [ApprovalResolved(a.approval, a.decision)] + Trace(f.effects);
      DecisionAnswers(a, e.context, f, e.effects, log);
    }
  }

  lemma StartAnswers(c: Context, env: Collaborators, e: Episode)
    requires Story.Answered(c, env) && Story.Selects(c, env, e.effects)
    ensures AnsweredIn(Start(c.task, env), c, Trace(e.effects))
  {
    forall route
      ensures ModelSelected(route) in Trace(e.effects) <==> Emit(ModelSelected(route)) in e.effects
    {
      TraceMembers(e.effects, ModelSelected(route));
    }
  }

  lemma TextIsLogged(l: Local)
    requires AtRest(l) && l.context.state == Completed
    ensures l.log != [] && l.log[|l.log| - 1] == RunCompleted(Completed, l.context.responseText)
  {
  }

  /** The reason of a failed run is what a collaborator raised, at the step where the run stopped. */
  lemma FailedRunsAreQuoted(actions: seq<Action>, r: RunId) returns (a: Action)
    requires r in Reached(actions).shared.runs && Reached(actions).shared.runs[r].status == Failed
    ensures r in Reached(actions).contexts && a in actions
    ensures var c := Reached(actions).contexts[r];
            && (a.Start? || (a.Decide? && a.decision == Approved && c.approvalId == Some(a.approval)))
            && (a.Start? ==> a.task == c.task) && Story.Quoted(c, a.env)
  {
    hide Story.Gathered, Story.Answered, Story.Requested, Story.Quoted;
    RunsRest(actions, r);
    var env, started := RunSources(actions, r);
    var c := Reached(actions).contexts[r];
    if c == started {
      a := Start(c.task, env);
    } else {
      var i :| 0 <= i < |actions| && GoneOn(actions[i], started, c);
      a := actions[i];
    }
  }

  /** What the read model reports of a refused run: the words for how it was refused. */
  lemma RefusedRunsSayWhy(actions: seq<Action>, r: RunId, fromCall: bool) returns (a: Action)
    requires r in Reached(actions).shared.runs && Reached(actions).shared.runs[r].status == Canceled
    ensures r in Reached(actions).contexts && a in actions && a.Decide?
    ensures var w := Reached(actions); var c := w.contexts[r];
            && c.approvalId == Some(a.approval) && a.decision in {Rejected, Expired}
            && c.failureReason == Some(if a.decision == Rejected then "Approval rejected" else "Approval expired")
            && var answer := GetRun(w.shared, r, if fromCall then Some(c) else None);
            answer.Ok? && answer.value.responseText == c.failureReason
  {
    hide Story.Gathered, Story.Answered, Story.Requested, Story.Quoted;
    RunsRest(actions, r);
    ResponseIsFaithful(actions, r, fromCall);
    var env, started := RunSources(actions, r);
    var c := Reached(actions).contexts[r];
    var i :| 0 <= i < |actions| && GoneOn(actions[i], started, c);
    a := actions[i];
  }
}
