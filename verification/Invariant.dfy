/** The platform invariant: every run is at rest between API calls, and every action keeps it so. */
module Invariant {
  import opened Prelude
  import opened Domain
  import opened Tables
  import opened Lifecycle
  import opened System
  import opened Projection
  import opened Protocol

  /** Each row's sequence number is one more than the number of the run's earlier rows. */
  ghost predicate GapFree(events: seq<EventRow>) {
    forall i :: 0 <= i < |events| ==> events[i].sequence == |Log(events[..i], events[i].runId)| + 1
  }

  /** Nothing refers to a run that does not exist. */
  ghost predicate Tidy(s: Shared) {
    && (forall a :: a in s.approvals ==> s.approvals[a].runId in s.runs)
    && (forall a :: a in s.index ==> s.index[a] in s.runs)
    && s.waiting <= s.runs.Keys
    && (forall i :: 0 <= i < |s.events| ==> s.events[i].runId in s.runs)
    && (forall r :: r in s.toolPhases ==> r in s.runs)
    && GapFree(s.events)
  }

  function Share(w: World, r: RunId): Local
    requires r in w.shared.runs && r in w.contexts
  {
    Project(w.shared, w.contexts[r], r)
  }

  /** `kept` says that the controller has never been restarted, so that every waiting run is parked. */
  ghost predicate RunAtRest(w: World, r: RunId, kept: bool)
    requires r in w.shared.runs && r in w.contexts
  {
    w.contexts[r].task.runId == r && Rests(Share(w, r), kept)
  }

  ghost predicate Rests(l: Local, kept: bool) {
    AtRest(l) && (kept && l.context.state == WaitingForApproval ==> l.parked)
  }

  ghost predicate Sound(w: World, kept: bool) {
    && w.contexts.Keys == w.shared.runs.Keys
    && Tidy(w.shared)
    && forall r :: r in w.contexts ==> RunAtRest(w, r, kept)
  }

  // ---- Tidiness ----

  lemma {:induction false} MaxIsCount(events: seq<EventRow>, r: RunId)
    requires GapFree(events)
    ensures MaxSequence(events, r) == |Log(events, r)|
  {
    if events != [] {
      var front := events[..|events| - 1];
      assert forall i :: 0 <= i < |front| ==> events[..i] == front[..i];
      MaxIsCount(front, r);
    }
  }

  lemma TidyOne(s: Shared, r: RunId, effect: Effect)
    requires Tidy(s) && r in s.runs
    ensures Tidy(Apply(s, r, effect)) && r in Apply(s, r, effect).runs
  {
    if effect.Emit? {
      MaxIsCount(s.events, r);
      var events := AppendEvent(s.events, r, effect.event);
      assert forall i :: 0 <= i < |s.events| ==> events[..i] == s.events[..i];
      assert events[..|s.events|] == s.events;
    }
  }

  lemma {:induction false} TidyAll(s: Shared, r: RunId, effects: seq<Effect>)
    requires Tidy(s) && r in s.runs
    ensures Tidy(ApplyAll(s, r, effects)) && r in ApplyAll(s, r, effects).runs
  {
    if effects != [] {
      TidyAll(s, r, effects[..|effects| - 1]);
      TidyOne(ApplyAll(s, r, effects[..|effects| - 1]), r, effects[|effects| - 1]);
    }
  }

  lemma SameRunsOne(s: Shared, r: RunId, effect: Effect)
    requires r in s.runs
    ensures Apply(s, r, effect).runs.Keys == s.runs.Keys
  {
  }

  lemma {:induction false} SameRuns(s: Shared, r: RunId, effects: seq<Effect>)
    requires r in s.runs
    ensures ApplyAll(s, r, effects).runs.Keys == s.runs.Keys
  {
    hide Apply;
    if effects != [] {
      SameRuns(s, r, effects[..|effects| - 1]);
      SameRunsOne(ApplyAll(s, r, effects[..|effects| - 1]), r, effects[|effects| - 1]);
    }
  }

  // ---- Which approvals an episode names ----

  lemma ToolsMention(c: Context, env: Collaborators)
    ensures MentionsOnly(RunTools(c, env).effects, {env.newApprovalId})
  {
    match env.executeTools(c)
    case Raised(e) => assert MentionsOnly(Fail(c, e).effects, {});
    case Ok(x) =>
      var asked := RequestApproval(c.(results := x.outputs, records := RecordsOf(c, x),
                                      step := Some(RequestApprovalIfNeeded)), x.reason, x.preview, env.newApprovalId);
      assert MentionsOnly(asked.effects, {env.newApprovalId});
  }

  lemma ResponseMentions(c: Context, env: Collaborators)
    ensures MentionsOnly(Respond(c, env).effects, {env.newApprovalId})
  {
  }

  lemma PassMentions(c: Context, env: Collaborators)
    requires c.state == InProgress && c.step.Some?
    ensures MentionsOnly(Pass(c, env).effects, {env.newApprovalId})
  {
    if c.step == Some(ExecuteTools) {
      ToolsMention(c, env);
    } else if c.step == Some(GenerateResponse) {
      ResponseMentions(c, env);
    }
  }

  lemma {:induction false} LoopMentions(c: Context, env: Collaborators)
    ensures MentionsOnly(Loop(c, env).effects, {env.newApprovalId})
    decreases Remaining(c.step)
  {
    if c.state == InProgress {
      var next := Pass(Entering(c), env);
      PassMentions(Entering(c), env);
      if next.context.state == InProgress {
        LoopMentions(next.context, env);
      }
    }
  }

  lemma ExecuteMentions(c: Context, env: Collaborators)
    ensures MentionsOnly(Execute(c, env).effects, {env.newApprovalId})
  {
    LoopMentions(c, env);
    LoopMentions(c.(state := InProgress), env);
  }

  lemma ResumeMentions(c: Context, decision: ApprovalStatus, env: Collaborators)
    requires c.approvalId.Some?
    ensures MentionsOnly(Resume(c, decision, false, env).effects, {env.newApprovalId})
  {
    ExecuteMentions(c.(state := InProgress, step := Some(GenerateResponse)), env);
  }

  // ---- Reading the invariant ----

  /** An indexed approval belongs to a parked run, which still waits for it. */
  lemma IndexedIsParked(w: World, id: ApprovalId, kept: bool)
    requires Sound(w, kept) && id in w.shared.index
    ensures var r := w.shared.index[id];
            && r in w.contexts && r in w.shared.waiting
            && w.contexts[r].state == WaitingForApproval && w.contexts[r].approvalId == Some(id)
            && id in w.shared.approvals && w.shared.approvals[id].runId == r
            && w.shared.approvals[id].status == Undecided
  {
    var r := w.shared.index[id];
    assert RunAtRest(w, r, kept);
    assert id in Share(w, r).index;
    assert id in Share(w, r).approvals;
  }

  lemma OnlyApproval(l: Local, id: ApprovalId)
    requires AtRest(l) && id in l.approvals
    ensures l.context.approvalId == Some(id) && Verdict(l) == l.approvals[id].status
    ensures Verdict(l) == Undecided ==> l.context.state == WaitingForApproval
    ensures l.context.state == WaitingForApproval ==> l.index == if l.parked then {id} else {}
  {
  }

  /** A stored approval is the one its run's context names. */
  lemma ApprovalIsNamed(w: World, id: ApprovalId, kept: bool)
    requires Sound(w, kept) && id in w.shared.approvals
    ensures var r := w.shared.approvals[id].runId;
            && r in w.contexts && r in w.shared.runs && Rests(Share(w, r), kept) && w.contexts[r].task.runId == r
            && w.contexts[r].approvalId == Some(id)
            && Verdict(Share(w, r)) == w.shared.approvals[id].status
            && (w.shared.approvals[id].status == Undecided ==> w.contexts[r].state == WaitingForApproval)
  {
    var r := w.shared.approvals[id].runId;
    assert RunAtRest(w, r, kept);
    OnlyApproval(Share(w, r), id);
  }

  /** An undecided approval is indexed, and under its own run, exactly when that run is parked. */
  lemma ParkedExactly(w: World, id: ApprovalId, kept: bool)
    requires Sound(w, kept) && id in w.shared.approvals && w.shared.approvals[id].status == Undecided
    ensures id in w.shared.index <==> w.shared.approvals[id].runId in w.shared.waiting
    ensures id in w.shared.index ==> w.shared.index[id] == w.shared.approvals[id].runId
  {
    ApprovalIsNamed(w, id, kept);
    var l := Share(w, w.shared.approvals[id].runId);
    OnlyApproval(l, id);
    assert id in l.index <==> l.parked;
    if id in w.shared.index {
      IndexedIsParked(w, id, kept);
    }
  }

  /** A run may touch a new approval id and one of its own. */
  lemma OwnAndNew(w: World, r: RunId, ids: set<ApprovalId>, kept: bool)
    requires Sound(w, kept)
    requires forall id :: id in ids && id in w.shared.approvals ==> w.shared.approvals[id].runId == r
    ensures Owns(w.shared, r, ids)
  {
    forall id | id in ids && id in w.shared.index
      ensures w.shared.index[id] == r
    {
      IndexedIsParked(w, id, kept);
    }
  }

  // ---- Every action keeps the platform sound ----

  /** The run at hand is at rest afterwards, and nobody else noticed. */
  lemma SoundAfter(w: World, r: RunId, effects: seq<Effect>, ids: set<ApprovalId>, c: Context, kept: bool)
    requires w.contexts.Keys <= w.shared.runs.Keys <= w.contexts.Keys + {r} && Tidy(w.shared)
    requires forall q :: q in w.contexts && q != r ==> RunAtRest(w, q, kept)
    requires r in w.shared.runs && Owns(w.shared, r, ids) && MentionsOnly(effects, ids)
    requires c.task.runId == r && Rests(LocalApplyAll(Project(w.shared, c, r), r, effects), kept)
    ensures Sound(World(ApplyAll(w.shared, r, effects), w.contexts[r := c]), kept)
  {
    hide AtRest, ApplyAll, LocalApplyAll, Tidy;
    var w' := World(ApplyAll(w.shared, r, effects), w.contexts[r := c]);
    TidyAll(w.shared, r, effects);
    SameRuns(w.shared, r, effects);
    ProjectAll(w.shared, c, r, effects, ids);
    forall q | q in w'.contexts
      ensures RunAtRest(w', q, kept)
    {
      if q != r {
        FrameAll(w.shared, r, effects, ids, w.contexts[q], q);
        LaterRests(Share(w, q), w'.shared.now);
      }
    }
  }

  /** The same for a run already there. */
  lemma SoundAgain(w: World, r: RunId, effects: seq<Effect>, ids: set<ApprovalId>, c: Context, kept: bool)
    requires Sound(w, kept) && r in w.contexts && Owns(w.shared, r, ids) && MentionsOnly(effects, ids)
    requires c.task.runId == r && Rests(LocalApplyAll(Share(w, r).(context := c), r, effects), kept)
    ensures Sound(World(ApplyAll(w.shared, r, effects), w.contexts[r := c]), kept)
  {
    hide AtRest;
    assert Project(w.shared, c, r) == Share(w, r).(context := c);
    SoundAfter(w, r, effects, ids, c, kept);
  }

  /** The platform with the run's row created and nothing else done. */
  function Created(w: World, task: Task): World {
    w.(shared := w.shared.(runs := w.shared.runs[task.runId := NewRow(task)]))
  }

  lemma {:induction false} NobodysLog(events: seq<EventRow>, r: RunId)
    requires forall i :: 0 <= i < |events| ==> events[i].runId != r
    ensures Log(events, r) == []
  {
    if events != [] {
      NobodysLog(events[..|events| - 1], r);
    }
  }

  lemma CreationIsQuiet(w: World, task: Task, kept: bool)
    requires Sound(w, kept) && task.runId !in w.shared.runs
    ensures Tidy(Created(w, task).shared)
    ensures forall q :: q in w.contexts ==> RunAtRest(Created(w, task), q, kept)
    ensures Project(Created(w, task).shared, FreshContext(task), task.runId) == Newborn(task, w.shared.now)
  {
    hide AtRest;
    var born := Created(w, task);
    forall q | q in w.contexts
      ensures RunAtRest(born, q, kept)
    {
      assert RunAtRest(w, q, kept);
      assert Share(born, q) == Share(w, q);
    }
    NobodysLog(w.shared.events, task.runId);
    assert ApprovalsOf(born.shared, task.runId) == map[];
  }

  lemma StartArrives(task: Task, now: nat, env: Collaborators)
    ensures var episode := Execute(FreshContext(task), env);
            Attended(LocalApplyAll(Newborn(task, now).(context := episode.context), task.runId, episode.effects))
  {
    var episode := Execute(FreshContext(task), env);
    StartRests(task, now, task.runId, env);
    ContextKept(Newborn(task, now), task.runId, episode.effects, episode.context);
  }

  lemma StartSound(w: World, task: Task, env: Collaborators, kept: bool)
    requires Sound(w, kept) && Enabled(w, Start(task, env))
    ensures Sound(StartRun(w, task, env), kept)
  {
    hide AtRest, Execute;
    var r := task.runId;
    var born := Created(w, task);
    var episode := Execute(FreshContext(task), env);
    CreationIsQuiet(w, task, kept);
    OwnAndNew(w, r, {env.newApprovalId}, kept);
    ExecuteMentions(FreshContext(task), env);
    StartArrives(task, w.shared.now, env);
    assert Project(born.shared, episode.context, r) == Newborn(task, w.shared.now).(context := episode.context);
    ExecuteKeepsTask(FreshContext(task), env);
    SoundAfter(born, r, episode.effects, {env.newApprovalId}, episode.context, kept);
  }

  lemma {:induction false} LoopKeepsTask(c: Context, env: Collaborators)
    ensures Loop(c, env).context.task == c.task
    decreases Remaining(c.step)
  {
    if c.state == InProgress {
      var next := Pass(Entering(c), env);
      if next.context.state == InProgress {
        LoopKeepsTask(next.context, env);
      }
    }
  }

  lemma ExecuteKeepsTask(c: Context, env: Collaborators)
    ensures Execute(c, env).context.task == c.task
  {
    LoopKeepsTask(c, env);
    LoopKeepsTask(c.(state := InProgress), env);
  }

  lemma ResumeKeepsTask(c: Context, decision: ApprovalStatus, env: Collaborators)
    requires c.approvalId.Some?
    ensures Resume(c, decision, false, env).context.task == c.task
  {
    ExecuteKeepsTask(c.(state := InProgress, step := Some(GenerateResponse)), env);
  }

  /** A resume request from outside finds nothing to do: an indexed approval is still undecided. */
  lemma ResumeIsInert(w: World, id: ApprovalId, env: Collaborators, kept: bool)
    requires Sound(w, kept)
    ensures ResumeRun(w, id, env) == w
  {
    hide AtRest;
    if id in w.shared.index {
      IndexedIsParked(w, id, kept);
    }
  }

  lemma DecideArrives(l: Local, r: RunId, id: ApprovalId, decision: ApprovalStatus, env: Collaborators)
    requires AtRest(l) && l.parked && l.context.approvalId == Some(id) && Verdict(l) == Undecided
    requires decision != Undecided
    ensures var episode := Resume(l.context, decision, false, env);
            Attended(LocalApplyAll(l.(context := episode.context), r, ResolveEffects(id, decision) + episode.effects))
  {
    var effects := ResolveEffects(id, decision);
    var episode := Resume(l.context, decision, false, env);
    SettleDecides(l, r, decision);
    ContextKept(l, r, effects, l.context);
    ResumeRests(LocalApplyAll(l, r, effects), r, decision, env);
    LocalApplyInTwoParts(l, r, effects, episode.effects);
    ContextKept(l, r, effects + episode.effects, episode.context);
  }

  lemma DecisionOnly(s: Shared, r: RunId, id: ApprovalId, decision: ApprovalStatus)
    requires id in s.approvals
    ensures var s' := ApplyAll(s, r, ResolveEffects(id, decision));
            && s'.index == s.index && s'.waiting == s.waiting && s'.runs == s.runs
            && id in s'.approvals
            && s'.approvals[id] == s.approvals[id].(status := decision, resolvedAt := Some(s.now))
  {
    ApplyOneMore(s, r, [], Settle(id, decision));
    ApplyOneMore(s, r, [Settle(id, decision)], Emit(ApprovalResolved(id, decision)));
    assert [Settle(id, decision)] + [Emit(ApprovalResolved(id, decision))] == ResolveEffects(id, decision);
  }

  /** Deciding a parked run's approval is one uninterrupted series of effects on that run. */
  lemma DecideUnfolds(w: World, id: ApprovalId, decision: ApprovalStatus, env: Collaborators, kept: bool)
    requires Sound(w, kept) && id in w.shared.approvals && w.shared.approvals[id].status == Undecided
    requires decision != Undecided && id in w.shared.index
    ensures var r := w.shared.index[id];
            && r in w.contexts && w.contexts[r].approvalId.Some?
            && var episode := Resume(w.contexts[r], decision, false, env);
            ResolveApproval(w, id, decision, env) ==
            World(ApplyAll(w.shared, r, ResolveEffects(id, decision) + episode.effects),
                  w.contexts[r := episode.context])
  {
    hide AtRest, Resume;
    IndexedIsParked(w, id, kept);
    var r := w.shared.approvals[id].runId;
    var effects := ResolveEffects(id, decision);
    DecisionOnly(w.shared, r, id, decision);
    var decided := w.(shared := ApplyAll(w.shared, r, effects));
    assert ResumeRefusal(decided, id).None?;
    ApplyInTwoParts(w.shared, r, effects, Resume(w.contexts[r], decision, false, env).effects);
  }

  lemma ParkedDecideSound(w: World, id: ApprovalId, decision: ApprovalStatus, env: Collaborators, kept: bool)
    requires Sound(w, kept) && Enabled(w, Decide(id, decision, env))
    requires id in w.shared.approvals && w.shared.approvals[id].status == Undecided && id in w.shared.index
    ensures Sound(ResolveApproval(w, id, decision, env), kept)
  {
    hide AtRest, Resume, Sound;
    ApprovalIsNamed(w, id, kept);
    ParkedExactly(w, id, kept);
    var r := w.shared.index[id];
    var c := w.contexts[r];
    var episode := Resume(c, decision, false, env);
    var effects := ResolveEffects(id, decision) + episode.effects;
    OwnAndNew(w, r, {id, env.newApprovalId}, kept);
    ResumeMentions(c, decision, env);
    assert MentionsOnly(effects, {id, env.newApprovalId});
    ResumeKeepsTask(c, decision, env);
    DecideArrives(Share(w, r), r, id, decision, env);
    DecideUnfolds(w, id, decision, env, kept);
    SoundAgain(w, r, effects, {id, env.newApprovalId}, episode.context, kept);
  }

  /** The controller has forgotten the run: the decision is stored and logged, and the run stays as it is. */
  lemma OrphanDecideSound(w: World, id: ApprovalId, decision: ApprovalStatus, env: Collaborators, kept: bool)
    requires Sound(w, kept) && Enabled(w, Decide(id, decision, env))
    requires id in w.shared.approvals && w.shared.approvals[id].status == Undecided && id !in w.shared.index
    ensures Sound(ResolveApproval(w, id, decision, env), kept)
  {
    hide AtRest, Sound;
    ApprovalIsNamed(w, id, kept);
    ParkedExactly(w, id, kept);
    var r := w.shared.approvals[id].runId;
    DecisionOnly(w.shared, r, id, decision);
    OwnAndNew(w, r, {id}, kept);
    SettleDecides(Share(w, r), r, decision);
    assert Share(w, r).(context := w.contexts[r]) == Share(w, r);
    SoundAgain(w, r, ResolveEffects(id, decision), {id}, w.contexts[r], kept);
    assert w.contexts[r := w.contexts[r]] == w.contexts;
  }

  lemma DecideSound(w: World, id: ApprovalId, decision: ApprovalStatus, env: Collaborators, kept: bool)
    requires Sound(w, kept) && Enabled(w, Decide(id, decision, env))
    ensures Sound(ResolveApproval(w, id, decision, env), kept)
  {
    hide Sound;
    if id in w.shared.approvals && w.shared.approvals[id].status == Undecided {
      if id in w.shared.index {
        ParkedDecideSound(w, id, decision, env, kept);
      } else {
        OrphanDecideSound(w, id, decision, env, kept);
      }
    }
  }

  lemma RestartForgets(w: World, r: RunId, kept: bool)
    requires Sound(w, kept) && r in w.contexts
    ensures RunAtRest(Step(w, Restart), r, false)
  {
    hide AtRest;
    assert RunAtRest(w, r, kept);
    RestartRests(Share(w, r));
    assert Share(Step(w, Restart), r) == Share(w, r).(parked := false, index := {});
  }

  lemma RestartSound(w: World, kept: bool)
    requires Sound(w, kept)
    ensures Sound(Step(w, Restart), false)
  {
    hide AtRest;
    forall r | r in w.contexts
      ensures RunAtRest(Step(w, Restart), r, false)
    {
      RestartForgets(w, r, kept);
    }
  }

  lemma StepSound(w: World, a: Action, kept: bool)
    requires Sound(w, kept) && (kept ==> !a.Restart?)
    ensures Sound(Step(w, a), kept)
  {
    hide Sound;
    if Enabled(w, a) {
      match a
      case Start(task, env) => StartSound(w, task, env, kept);
      case Decide(id, decision, env) => DecideSound(w, id, decision, env, kept);
      case TryResume(id, env) => ResumeIsInert(w, id, env, kept);
      case Restart => RestartSound(w, kept);
    }
  }

  lemma {:induction false} RunSound(w: World, actions: seq<Action>, kept: bool)
    requires Sound(w, kept) && (kept ==> Restart !in actions)
    ensures Sound(Run(w, actions), kept)
  {
    if actions != [] {
      RunSound(w, actions[..|actions| - 1], kept);
      StepSound(Run(w, actions[..|actions| - 1]), actions[|actions| - 1], kept);
    }
  }

  /**
   * Whatever API calls and restarts come in whatever order, every run is at rest between them; and as
   * long as no restart has come, every waiting run is parked.
   */
  lemma ReachedSound(actions: seq<Action>)
    ensures Sound(Reached(actions), false)
    ensures Restart !in actions ==> Sound(Reached(actions), true)
  {
    RunSound(EMPTY, actions, false);
    if Restart !in actions {
      RunSound(EMPTY, actions, true);
    }
  }
}
