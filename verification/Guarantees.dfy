/** What operators can rely on, stated for every sequence of API calls and restarts. */
module Guarantees {
  import opened Prelude
  import opened Domain
  import opened Tables
  import opened Lifecycle
  import opened System
  import opened Projection
  import opened Protocol
  import opened Invariant
  import opened Traces
  import opened ApprovalSafety

  lemma ShareAtRest(actions: seq<Action>, r: RunId)
    requires r in Reached(actions).shared.runs
    ensures r in Reached(actions).contexts && AtRest(Share(Reached(actions), r))
    ensures Reached(actions).contexts[r].task.runId == r
  {
    ReachedSound(actions);
    assert RunAtRest(Reached(actions), r, false);
  }

  // ---- Traces ----

  /** Every run's trace is a word of the grammar: closed when the run is over, at the gate while it waits. */
  lemma TraceGrammar(actions: seq<Action>, r: RunId)
    requires r in Reached(actions).shared.runs
    ensures var s := Reached(actions).shared; var phase := Walk(Log(s.events, r));
            && (Terminal(s.runs[r].status) <==> phase == Closed)
            && (!Terminal(s.runs[r].status) <==> phase in {Paused, Granted, Refused})
  {
    ShareAtRest(actions, r);
    RestingWalk(Share(Reached(actions), r));
  }

  lemma AtMostOneEnd(actions: seq<Action>, r: RunId, i: nat)
    requires r in Reached(actions).shared.runs
    requires i < |Log(Reached(actions).shared.events, r)| && Ends(Log(Reached(actions).shared.events, r)[i])
    ensures i == |Log(Reached(actions).shared.events, r)| - 1 && Terminal(Reached(actions).shared.runs[r].status)
  {
    TraceGrammar(actions, r);
    OnlyTheLastEventEnds(Log(Reached(actions).shared.events, r), i);
  }

  /** Event by event, the trace says what the run's context says. */
  lemma TraceMatchesContext(actions: seq<Action>, r: RunId)
    requires r in Reached(actions).shared.runs
    ensures r in Reached(actions).contexts && TraceFits(Share(Reached(actions), r))
  {
    ShareAtRest(actions, r);
  }

  /** The stored status is the context's state, and replaying the trace gives it but for approved orphans. */
  lemma ReplayGivesStatus(actions: seq<Action>, r: RunId)
    requires r in Reached(actions).shared.runs
    ensures var w := Reached(actions); var status := w.shared.runs[r].status;
            && r in w.contexts && status == w.contexts[r].state
            && (Replay(Log(w.shared.events, r)) == status <==>
                !(status == WaitingForApproval
                  && exists id :: id in w.shared.approvals && w.shared.approvals[id].runId == r
                       && w.shared.approvals[id].status == Approved))
  {
    ShareAtRest(actions, r);
    var w := Reached(actions);
    var l := Share(w, r);
    RestingReplay(l);
    assert forall id :: id in l.approvals <==> id in w.shared.approvals && w.shared.approvals[id].runId == r;
    if l.context.approvalId.Some? {
      assert l.context.approvalId.value in l.approvals;
    }
  }

  /** Without a restart there are no orphans, and every trace replays to the stored status. */
  lemma ReplayWithoutRestart(actions: seq<Action>, r: RunId)
    requires r in Reached(actions).shared.runs && Restart !in actions
    ensures Replay(Log(Reached(actions).shared.events, r)) == Reached(actions).shared.runs[r].status
  {
    ReachedSound(actions);
    var w := Reached(actions);
    assert RunAtRest(w, r, true);
    RestingReplay(Share(w, r));
  }

  // ---- Approvals ----

  /**
   * With honest executors, a completed run that has a gated record was approved, and the approval was
   * logged before the end.
   */
  lemma NoCompletionWithoutApproval(actions: seq<Action>, r: RunId)
    requires forall i :: 0 <= i < |actions| ==> HonestAction(actions[i])
    requires r in Reached(actions).shared.runs && Reached(actions).shared.runs[r].status == Completed
    requires r in Reached(actions).contexts && HasGatedRecord(Reached(actions).contexts[r].records)
    ensures var w := Reached(actions); var log := Log(w.shared.events, r);
            exists id, i, j ::
              && id in w.shared.approvals && w.shared.approvals[id].runId == r
              && w.shared.approvals[id].status == Approved
              && 0 <= i < j < |log| && log[i] == ApprovalResolved(id, Approved) && log[j].RunCompleted?
  {
    hide AtRest, Run, HonestAction, Reached, Log;
    ShareAtRest(actions, r);
    ReachedGoverned(actions);
    var w := Reached(actions);
    FinishedStays(Share(w, r));
    assert Governed(w.contexts[r]);
    ApprovedFirst(w, r);
  }

  lemma ApprovedFirst(w: World, r: RunId)
    requires r in w.shared.runs && r in w.contexts && AtRest(Share(w, r))
    requires w.contexts[r].state == Completed && w.contexts[r].approvalId.Some?
    ensures var log := Log(w.shared.events, r);
            exists id, i, j ::
              && id in w.shared.approvals && w.shared.approvals[id].runId == r
              && w.shared.approvals[id].status == Approved
              && 0 <= i < j < |log| && log[i] == ApprovalResolved(id, Approved) && log[j].RunCompleted?
  {
    hide AtRest, Log;
    var l := Share(w, r);
    DecisionComesFirst(l);
    var id := l.context.approvalId.value;
    var i, j :| 0 <= i < j < |l.log| && l.log[j].RunCompleted? && l.log[i] == ApprovalResolved(id, Approved);
    assert l.approvals[id] == w.shared.approvals[id] && w.shared.approvals[id].runId == r;
    assert l.log == Log(w.shared.events, r);
  }

  /** A run asks for approval at most once, and runs its tools at most once: never again after it has paused. */
  lemma OncePerRun(actions: seq<Action>, a: ApprovalId, b: ApprovalId, r: RunId)
    ensures Reached(actions).shared.toolPhases[r] <= 1
    ensures var s := Reached(actions).shared;
            a in s.approvals && b in s.approvals && s.approvals[a].runId == s.approvals[b].runId ==>
              a == b && s.toolPhases[s.approvals[a].runId] == 1
  {
    var w := Reached(actions);
    ReachedSound(actions);
    if r in w.shared.runs {
      ShareAtRest(actions, r);
    }
    var approvals := w.shared.approvals;
    if a in approvals && b in approvals && approvals[a].runId == approvals[b].runId {
      ApprovalIsNamed(w, a, false);
      ApprovalIsNamed(w, b, false);
      ShareAtRest(actions, w.shared.approvals[a].runId);
    }
  }

  // ---- The controller's indexes ----

  ghost predicate Injective(m: map<ApprovalId, RunId>) {
    forall a, b :: a in m && b in m && m[a] == m[b] ==> a == b
  }

  /** The controller never holds anything but waiting runs and their undecided approvals. */
  lemma IndexesAreIncluded(actions: seq<Action>)
    ensures var w := Reached(actions); var s := w.shared;
            && (forall r :: r in s.waiting ==> r in s.runs && s.runs[r].status == WaitingForApproval)
            && (forall a :: a in s.index ==>
                 && a in s.approvals && s.approvals[a].status == Undecided && s.approvals[a].runId == s.index[a]
                 && s.index[a] in s.waiting && s.index[a] in w.contexts
                 && w.contexts[s.index[a]].approvalId == Some(a))
            && Injective(s.index)
            && (forall r :: r in s.waiting ==> r in s.index.Values)
  {
    ReachedSound(actions);
    var w := Reached(actions);
    forall r | r in w.shared.waiting
      ensures r in w.shared.runs && w.shared.runs[r].status == WaitingForApproval && r in w.shared.index.Values
    {
      assert RunAtRest(w, r, false);
      var id := w.contexts[r].approvalId.value;
      assert id in Share(w, r).index;
    }
    forall a | a in w.shared.index
      ensures a in w.shared.approvals && w.shared.approvals[a].status == Undecided
      ensures w.shared.approvals[a].runId == w.shared.index[a] && w.shared.index[a] in w.shared.waiting
      ensures w.shared.index[a] in w.contexts && w.contexts[w.shared.index[a]].approvalId == Some(a)
    {
      IndexedIsParked(w, a, false);
    }
  }

  lemma WaitingIsParked(w: World, r: RunId)
    requires Sound(w, true) && r in w.shared.runs && w.shared.runs[r].status == WaitingForApproval
    ensures r in w.shared.waiting
  {
    assert RunAtRest(w, r, true);
  }

  lemma UndecidedIsIndexed(w: World, a: ApprovalId)
    requires Sound(w, true) && a in w.shared.approvals && w.shared.approvals[a].status == Undecided
    ensures a in w.shared.index
  {
    ApprovalIsNamed(w, a, true);
    ParkedExactly(w, a, true);
  }

  /** Until the first restart the controller holds exactly the waiting runs and the undecided approvals. */
  lemma IndexesAgree(actions: seq<Action>)
    requires Restart !in actions
    ensures var s := Reached(actions).shared;
            && (forall r :: r in s.waiting <==> r in s.runs && s.runs[r].status == WaitingForApproval)
            && (forall a :: a in s.index <==> a in s.approvals && s.approvals[a].status == Undecided)
            && Injective(s.index) && s.index.Values == s.waiting
  {
    hide Sound;
    ReachedSound(actions);
    IndexesAreIncluded(actions);
    var w := Reached(actions);
    forall r | r in w.shared.runs && w.shared.runs[r].status == WaitingForApproval
      ensures r in w.shared.waiting
    {
      WaitingIsParked(w, r);
    }
    forall a | a in w.shared.approvals && w.shared.approvals[a].status == Undecided
      ensures a in w.shared.index
    {
      UndecidedIsIndexed(w, a);
    }
  }

  // ---- Columns ----

  lemma PathIsLegal(c: Context)
    requires c.state in {WaitingForApproval, Completed, Failed, Canceled}
    ensures LegalHistory(HistoryOf(c)) && 2 <= |HistoryOf(c)| <= 4
    ensures HistoryOf(c)[|HistoryOf(c)| - 1] == c.state
    ensures || HistoryOf(c) == [InProgress, WaitingForApproval]
            || HistoryOf(c) == [InProgress, WaitingForApproval, Canceled]
            || (c.state in {Completed, Failed} && HistoryOf(c) == [InProgress, c.state])
            || (c.state in {Completed, Failed} && HistoryOf(c) == [InProgress, WaitingForApproval, InProgress, c.state])
  {
    assert [InProgress] + [c.state] == [InProgress, c.state];
    assert [InProgress, WaitingForApproval, InProgress] + [c.state]
        == [InProgress, WaitingForApproval, InProgress, c.state];
    assert InProgress in Allowed(Pending) && InProgress in Allowed(WaitingForApproval);
    assert {WaitingForApproval, Completed, Failed} <= Allowed(InProgress);
    assert Canceled in Allowed(WaitingForApproval);
  }

  /** The statuses written for a run are a path of the transition table of at most four steps. */
  lemma HistoriesAreLegal(actions: seq<Action>, r: RunId)
    requires r in Reached(actions).shared.runs
    ensures var row := Reached(actions).shared.runs[r];
            && LegalHistory(row.history) && 2 <= |row.history| <= 4
            && row.history[|row.history| - 1] == row.status
            && (|| row.history == [InProgress, WaitingForApproval]
                || row.history == [InProgress, WaitingForApproval, Canceled]
                || (row.status in {Completed, Failed} && row.history == [InProgress, row.status])
                || (row.status in {Completed, Failed}
                    && row.history == [InProgress, WaitingForApproval, InProgress, row.status]))
  {
    ShareAtRest(actions, r);
    PathIsLegal(Reached(actions).contexts[r]);
  }

  /** Timestamps, the last error and the failure event follow the status. */
  lemma BookkeepingFollowsStatus(actions: seq<Action>, r: RunId)
    requires r in Reached(actions).shared.runs
    ensures var s := Reached(actions).shared; var row := s.runs[r]; var log := Log(s.events, r);
            && row.startedAt.Some?
            && (row.completedAt.Some? <==> Terminal(row.status))
            && (row.completedAt.Some? ==> row.startedAt.value <= row.completedAt.value)
            && (row.lastError.Some? <==> row.status == Failed)
            && (row.lastError.Some? ==> |log| > 0 && log[|log| - 1] == RunFailed(row.lastError.value))
            && forall id :: id in s.approvals && s.approvals[id].runId == r ==>
                 var a := s.approvals[id];
                 && row.startedAt.value <= a.requestedAt
                 && (a.resolvedAt.Some? <==> a.status != Undecided)
                 && (a.resolvedAt.Some? ==> a.requestedAt <= a.resolvedAt.value)
                 && (a.resolvedAt.Some? && row.completedAt.Some? ==> a.resolvedAt.value <= row.completedAt.value)
  {
    ShareAtRest(actions, r);
    var w := Reached(actions);
    assert forall id :: id in w.shared.approvals && w.shared.approvals[id].runId == r ==> id in Share(w, r).approvals;
  }

  // ---- Timestamps ----

  /** A stamp that is there was there before, or was taken in between. */
  predicate Stamped(before: Option<nat>, after: Option<nat>, from: nat, to: nat) {
    after == before || (after.Some? && from <= after.value < to)
  }

  predicate StampedRun(before: Option<RunRow>, row: RunRow, from: nat, to: nat) {
    && Stamped(if before.Some? then before.value.startedAt else None, row.startedAt, from, to)
    && Stamped(if before.Some? then before.value.completedAt else None, row.completedAt, from, to)
  }

  predicate StampedApproval(before: Option<ApprovalRow>, row: ApprovalRow, from: nat, to: nat) {
    && Stamped(if before.Some? then Some(before.value.requestedAt) else None, Some(row.requestedAt), from, to)
    && (row.resolvedAt.None?
        || Stamped(if before.Some? then before.value.resolvedAt else None, row.resolvedAt, from, to))
  }

  function RunIn(s: Shared, q: RunId): Option<RunRow> {
    if q in s.runs then Some(s.runs[q]) else None
  }

  function ApprovalIn(s: Shared, id: ApprovalId): Option<ApprovalRow> {
    if id in s.approvals then Some(s.approvals[id]) else None
  }

  ghost predicate StampedSince(s: Shared, s': Shared) {
    && s.now <= s'.now
    && (forall q :: q in s.runs ==> q in s'.runs)
    && (forall id :: id in s.approvals ==> id in s'.approvals)
    && (forall q :: q in s'.runs ==> StampedRun(RunIn(s, q), s'.runs[q], s.now, s'.now))
    && forall id :: id in s'.approvals ==> StampedApproval(ApprovalIn(s, id), s'.approvals[id], s.now, s'.now)
  }

  lemma StampedOne(s: Shared, r: RunId, effect: Effect)
    ensures StampedSince(s, Apply(s, r, effect))
  {
    var s' := Apply(s, r, effect);
    forall q | q in s'.runs
      ensures StampedRun(RunIn(s, q), s'.runs[q], s.now, s'.now)
    {
    }
    forall id | id in s'.approvals
      ensures StampedApproval(ApprovalIn(s, id), s'.approvals[id], s.now, s'.now)
    {
    }
  }

  lemma StampedTwice(a: Shared, b: Shared, c: Shared)
    requires StampedSince(a, b) && StampedSince(b, c)
    ensures StampedSince(a, c)
  {
    hide StampedRun, StampedApproval;
    forall q | q in c.runs
      ensures StampedRun(RunIn(a, q), c.runs[q], a.now, c.now)
    {
      StampedRunTwice(RunIn(a, q), RunIn(b, q), c.runs[q], a.now, b.now, c.now);
    }
    forall id | id in c.approvals
      ensures StampedApproval(ApprovalIn(a, id), c.approvals[id], a.now, c.now)
    {
      StampedApprovalTwice(ApprovalIn(a, id), ApprovalIn(b, id), c.approvals[id], a.now, b.now, c.now);
    }
  }

  lemma StampedRunTwice(a: Option<RunRow>, b: Option<RunRow>, c: RunRow, from: nat, middle: nat, to: nat)
    requires from <= middle <= to && (b.None? ==> a.None?)
    requires (b.Some? ==> StampedRun(a, b.value, from, middle)) && StampedRun(b, c, middle, to)
    ensures StampedRun(a, c, from, to)
  {
  }

  lemma StampedApprovalTwice(a: Option<ApprovalRow>, b: Option<ApprovalRow>, c: ApprovalRow, from: nat, middle: nat,
                             to: nat)
    requires from <= middle <= to && (b.None? ==> a.None?)
    requires (b.Some? ==> StampedApproval(a, b.value, from, middle)) && StampedApproval(b, c, middle, to)
    ensures StampedApproval(a, c, from, to)
  {
  }

  lemma {:induction false} StampedAll(s: Shared, r: RunId, effects: seq<Effect>)
    ensures StampedSince(s, ApplyAll(s, r, effects))
  {
    hide Apply, StampedSince;
    if effects == [] {
      StampedNothing(s);
    } else {
      var front := effects[..|effects| - 1];
      StampedAll(s, r, front);
      StampedOne(ApplyAll(s, r, front), r, effects[|effects| - 1]);
      StampedTwice(s, ApplyAll(s, r, front), ApplyAll(s, r, effects));
    }
  }

  lemma StampedNothing(s: Shared)
    ensures StampedSince(s, s)
  {
  }

  lemma StampedResume(w: World, id: ApprovalId, env: Collaborators)
    ensures StampedSince(w.shared, ResumeRun(w, id, env).shared)
  {
    hide ApplyAll, Resume, StampedSince;
    StampedNothing(w.shared);
    if ResumeRefusal(w, id).None? {
      var c := w.contexts[w.shared.index[id]];
      StampedAll(w.shared, w.shared.index[id],
                 Resume(c, w.shared.approvals[c.approvalId.value].status, false, env).effects);
    }
  }

  lemma StampedStart(w: World, task: Task)
    requires task.runId !in w.shared.runs
    ensures StampedSince(w.shared, Created(w, task).shared)
  {
  }

  /** Whatever a call writes into a time column, it reads from the clock during the call. */
  lemma StampsAreCurrent(w: World, a: Action)
    ensures StampedSince(w.shared, Step(w, a).shared)
  {
    hide ApplyAll, Execute, Resume, StampedSince, ResumeRun;
    StampedNothing(w.shared);
    if Enabled(w, a) {
      match a
      case Start(task, env) =>
        StampedStart(w, task);
        StampedAll(Created(w, task).shared, task.runId, Execute(FreshContext(task), env).effects);
        StampedTwice(w.shared, Created(w, task).shared, StartRun(w, task, env).shared);
      case Decide(id, decision, env) =>
        if id in w.shared.approvals && w.shared.approvals[id].status == Undecided {
          var r := w.shared.approvals[id].runId;
          var decided := w.(shared := ApplyAll(w.shared, r, ResolveEffects(id, decision)));
          StampedAll(w.shared, r, ResolveEffects(id, decision));
          StampedResume(decided, id, env);
          StampedTwice(w.shared, decided.shared, ResumeRun(decided, id, env).shared);
        }
      case TryResume(id, env) => StampedResume(w, id, env);
      case Restart => StampedForgotten(w);
    }
  }

  lemma StampedForgotten(w: World)
    ensures StampedSince(w.shared, w.shared.(waiting := {}, index := map[]))
  {
  }

  // ---- What no later action can change ----

  /** The only actions that can touch a run once started: a decision it waits for, and a restart that forgets it. */
  predicate Concerns(w: World, a: Action, r: RunId) {
    match a
    case Decide(id, _, _) =>
      id in w.shared.approvals && w.shared.approvals[id].status == Undecided && w.shared.approvals[id].runId == r
    case Restart => r in w.shared.waiting
    case _ => false
  }

  /** Every other action leaves a run's share as it was. */
  lemma StepFrames(w: World, a: Action, r: RunId)
    requires Sound(w, false) && r in w.contexts && !Concerns(w, a, r)
    ensures var w' := Step(w, a);
            && r in w'.contexts && r in w'.shared.runs && w.shared.now <= w'.shared.now
            && Share(w', r) == Share(w, r).(now := w'.shared.now)
  {
    hide AtRest, Execute, Resume;
    assert RunAtRest(w, r, false);
    if Enabled(w, a) {
      match a
      case Start(task, env) => StartFrames(w, task, env, r);
      case Decide(id, decision, env) => DecideFrames(w, id, decision, env, r);
      case TryResume(id, env) => ResumeIsInert(w, id, env, false);
      case Restart => RestingNotIndexed(Share(w, r));
    }
  }

  /** So in any reachable state. */
  lemma UnconcernedRunsStay(actions: seq<Action>, a: Action, r: RunId)
    requires r in Reached(actions).shared.runs && !Concerns(Reached(actions), a, r)
    ensures var w := Reached(actions); var w' := Step(w, a);
            && r in w.contexts && r in w'.contexts && r in w'.shared.runs
            && Share(w', r) == Share(w, r).(now := w'.shared.now)
  {
    ReachedSound(actions);
    StepFrames(Reached(actions), a, r);
  }

  lemma RestingNotIndexed(l: Local)
    requires AtRest(l) && !l.parked
    ensures l.index == {}
  {
  }

  lemma StartFrames(w: World, task: Task, env: Collaborators, r: RunId)
    requires Sound(w, false) && r in w.contexts && Enabled(w, Start(task, env))
    ensures var w' := StartRun(w, task, env);
            && r in w'.contexts && r in w'.shared.runs && w.shared.now <= w'.shared.now
            && Share(w', r) == Share(w, r).(now := w'.shared.now)
  {
    hide AtRest, Execute;
    var born := Created(w, task);
    var episode := Execute(FreshContext(task), env);
    OwnAndNew(w, task.runId, {env.newApprovalId}, false);
    ExecuteMentions(FreshContext(task), env);
    FrameAll(born.shared, task.runId, episode.effects, {env.newApprovalId}, w.contexts[r], r);
    assert Share(born, r) == Share(w, r);
  }

  lemma DecideFrames(w: World, id: ApprovalId, decision: ApprovalStatus, env: Collaborators, r: RunId)
    requires Sound(w, false) && r in w.contexts && Enabled(w, Decide(id, decision, env))
    requires !Concerns(w, Decide(id, decision, env), r)
    ensures var w' := ResolveApproval(w, id, decision, env);
            && r in w'.contexts && r in w'.shared.runs && w.shared.now <= w'.shared.now
            && Share(w', r) == Share(w, r).(now := w'.shared.now)
  {
    hide AtRest, Resume, ApplyAll, Tidy;
    if id in w.shared.approvals && w.shared.approvals[id].status == Undecided {
      ApprovalIsNamed(w, id, false);
      var q := w.shared.approvals[id].runId;
      OwnAndNew(w, q, {id, env.newApprovalId}, false);
      if id in w.shared.index {
        ParkedDecideFrames(w, id, decision, env, r);
      } else {
        DecisionOnly(w.shared, q, id, decision);
        FrameAll(w.shared, q, ResolveEffects(id, decision), {id}, w.contexts[r], r);
      }
    }
  }

  lemma ParkedDecideFrames(w: World, id: ApprovalId, decision: ApprovalStatus, env: Collaborators, r: RunId)
    requires Sound(w, false) && r in w.contexts && Enabled(w, Decide(id, decision, env))
    requires id in w.shared.approvals && w.shared.approvals[id].status == Undecided && id in w.shared.index
    requires w.shared.approvals[id].runId != r && r in w.shared.runs
    ensures var w' := ResolveApproval(w, id, decision, env);
            && r in w'.contexts && r in w'.shared.runs && w.shared.now <= w'.shared.now
            && Share(w', r) == Share(w, r).(now := w'.shared.now)
  {
    hide AtRest, Resume, Sound;
    IndexedIsParked(w, id, false);
    var q := w.shared.index[id];
    var c := w.contexts[q];
    var effects := ResolveEffects(id, decision) + Resume(c, decision, false, env).effects;
    OwnAndNew(w, q, {id, env.newApprovalId}, false);
    DecideUnfolds(w, id, decision, env, false);
    ResumeMentions(c, decision, env);
    assert MentionsOnly(effects, {id, env.newApprovalId});
    FrameAll(w.shared, q, effects, {id, env.newApprovalId}, w.contexts[r], r);
  }

  ghost predicate NothingToDecide(s: Shared, r: RunId) {
    forall id :: id in s.approvals && s.approvals[id].runId == r ==> s.approvals[id].status != Undecided
  }

  lemma NothingConcerns(w: World, a: Action, r: RunId)
    requires Sound(w, false) && r in w.contexts && NothingToDecide(w.shared, r)
    ensures !Concerns(w, a, r)
  {
    hide AtRest;
    assert RunAtRest(w, r, false);
    ParkedIsUndecided(Share(w, r));
  }

  lemma ParkedIsUndecided(l: Local)
    requires AtRest(l)
    ensures l.parked ==> exists id :: id in l.approvals && l.approvals[id].status == Undecided
  {
  }

  /**
   * When a run has no decision to wait for, nothing about it ever changes again: not its status, trace,
   * approvals, context or tool calls. That holds of finished runs, and of runs that still wait because a
   * restart came before their decision.
   */
  lemma {:induction false} SettledForGood(actions: seq<Action>, more: seq<Action>, r: RunId)
    requires r in Reached(actions).shared.runs && NothingToDecide(Reached(actions).shared, r)
    ensures var w := Reached(actions); var w' := Run(w, more);
            && r in w.contexts && r in w'.contexts && r in w'.shared.runs
            && Share(w', r) == Share(w, r).(now := w'.shared.now)
  {
    hide AtRest;
    ShareAtRest(actions, r);
    if more != [] {
      var front := more[..|more| - 1];
      SettledForGood(actions, front, r);
      ReachedSound(actions);
      RunSound(Reached(actions), front, false);
      var w := Run(Reached(actions), front);
      assert forall id :: id in Share(w, r).approvals <==>
        id in w.shared.approvals && w.shared.approvals[id].runId == r;
      assert forall id :: id in Share(Reached(actions), r).approvals ==>
        Share(Reached(actions), r).approvals[id].status != Undecided;
      NothingConcerns(w, more[|more| - 1], r);
      StepFrames(w, more[|more| - 1], r);
    }
  }

  lemma FinishedForGood(actions: seq<Action>, more: seq<Action>, r: RunId)
    requires r in Reached(actions).shared.runs && Terminal(Reached(actions).shared.runs[r].status)
    ensures var w := Reached(actions); var w' := Run(w, more);
            && r in w.contexts && r in w'.contexts && r in w'.shared.runs
            && Share(w', r) == Share(w, r).(now := w'.shared.now)
  {
    hide AtRest;
    ShareAtRest(actions, r);
    ReachedSound(actions);
    FinishedStays(Share(Reached(actions), r));
    forall id | id in Reached(actions).shared.approvals && Reached(actions).shared.approvals[id].runId == r
      ensures Reached(actions).shared.approvals[id].status != Undecided
    {
      ApprovalIsNamed(Reached(actions), id, false);
    }
    SettledForGood(actions, more, r);
  }

  lemma FinishedStays(l: Local)
    requires AtRest(l)
    ensures l.context.state == l.row.status
  {
  }

  lemma UnmentionedKeptOne(s: Shared, r: RunId, effect: Effect, id: ApprovalId)
    requires id !in Mentioned(effect) && id in s.approvals
    ensures var s' := Apply(s, r, effect); id in s'.approvals && s'.approvals[id] == s.approvals[id]
  {
  }

  lemma {:induction false} UnmentionedKept(s: Shared, r: RunId, effects: seq<Effect>, ids: set<ApprovalId>,
                                           id: ApprovalId)
    requires MentionsOnly(effects, ids) && id !in ids && id in s.approvals
    ensures var s' := ApplyAll(s, r, effects); id in s'.approvals && s'.approvals[id] == s.approvals[id]
  {
    if effects != [] {
      UnmentionedKept(s, r, effects[..|effects| - 1], ids, id);
      UnmentionedKeptOne(ApplyAll(s, r, effects[..|effects| - 1]), r, effects[|effects| - 1], id);
    }
  }

  lemma StepKeepsDecision(w: World, a: Action, id: ApprovalId)
    requires Sound(w, false) && id in w.shared.approvals && w.shared.approvals[id].status != Undecided
    ensures var s := Step(w, a).shared; id in s.approvals && s.approvals[id] == w.shared.approvals[id]
  {
    hide AtRest, Execute, Resume;
    if Enabled(w, a) {
      match a
      case Start(task, env) =>
        var episode := Execute(FreshContext(task), env);
        ExecuteMentions(FreshContext(task), env);
        UnmentionedKept(Created(w, task).shared, task.runId, episode.effects, {env.newApprovalId}, id);
      case TryResume(other, env) => ResumeIsInert(w, other, env, false);
      case Restart =>
      case Decide(other, decision, env) =>
        if other in w.shared.approvals && w.shared.approvals[other].status == Undecided {
          OtherDecisionKept(w, other, decision, env, id);
        }
    }
  }

  lemma OtherDecisionKept(w: World, other: ApprovalId, decision: ApprovalStatus, env: Collaborators, id: ApprovalId)
    requires Sound(w, false) && Enabled(w, Decide(other, decision, env))
    requires other in w.shared.approvals && w.shared.approvals[other].status == Undecided
    requires id in w.shared.approvals && id != other
    ensures var s := ResolveApproval(w, other, decision, env).shared;
            id in s.approvals && s.approvals[id] == w.shared.approvals[id]
  {
    hide AtRest, Resume, Sound;
    var q := w.shared.approvals[other].runId;
    UnmentionedKept(w.shared, q, ResolveEffects(other, decision), {other}, id);
    if other in w.shared.index {
      IndexedIsParked(w, other, false);
      var c := w.contexts[q];
      var effects := ResolveEffects(other, decision) + Resume(c, decision, false, env).effects;
      DecideUnfolds(w, other, decision, env, false);
      ResumeMentions(c, decision, env);
      assert MentionsOnly(effects, {other, env.newApprovalId});
      UnmentionedKept(w.shared, q, effects, {other, env.newApprovalId}, id);
    } else {
      DecisionOnly(w.shared, q, other, decision);
    }
  }

  /** A decision once taken stands: no later action changes the approval, least of all a second decision. */
  lemma {:induction false} DecidedForGood(actions: seq<Action>, more: seq<Action>, id: ApprovalId)
    requires id in Reached(actions).shared.approvals && Reached(actions).shared.approvals[id].status != Undecided
    ensures var s := Run(Reached(actions), more).shared;
            id in s.approvals && s.approvals[id] == Reached(actions).shared.approvals[id]
  {
    if more != [] {
      var front := more[..|more| - 1];
      DecidedForGood(actions, front, id);
      ReachedSound(actions);
      RunSound(Reached(actions), front, false);
      StepKeepsDecision(Run(Reached(actions), front), more[|more| - 1], id);
    }
  }

  /** A second decision on an approval, or a resume request, changes nothing at all. */
  lemma LateCallsAreInert(actions: seq<Action>, id: ApprovalId, decision: ApprovalStatus, env: Collaborators)
    ensures var w := Reached(actions);
            && Step(w, TryResume(id, env)) == w
            && (id !in w.shared.approvals || w.shared.approvals[id].status != Undecided ==>
                  Step(w, Decide(id, decision, env)) == w)
  {
    ReachedSound(actions);
    ResumeIsInert(Reached(actions), id, env, false);
  }

  // ---- When a decision is acted on ----

  /** A waiting run's context once its approval is granted. */
  function Woken(c: Context): Context {
    c.(state := InProgress, step := Some(GenerateResponse))
  }

  predicate Answers(env: Collaborators, c: Context) {
    env.describeRoute(c).Ok? && env.generateResponse(c).Ok?
  }

  lemma ResumeEnds(c: Context, decision: ApprovalStatus, env: Collaborators)
    requires c.state == WaitingForApproval && c.approvalId.Some?
    ensures Resume(c, decision, false, env).context.state ==
            if decision != Approved then Canceled else if Answers(env, Woken(c)) then Completed else Failed
  {
    if decision == Approved {
      var next := Pass(Woken(c), env);
      if next.context.state == InProgress {
        assert Loop(next.context, env).context == Pass(next.context, env).context;
      }
      assert Execute(Woken(c), env) == Loop(Woken(c), env);
    }
  }

  lemma HeldDecisionIsStored(w: World, id: ApprovalId, decision: ApprovalStatus, env: Collaborators)
    requires Sound(w, false) && Enabled(w, Decide(id, decision, env))
    requires id in w.shared.approvals && w.shared.approvals[id].status == Undecided && id in w.shared.index
    ensures var s := ResolveApproval(w, id, decision, env).shared;
            && id in s.approvals
            && s.approvals[id] == w.shared.approvals[id].(status := decision, resolvedAt := Some(w.shared.now))
  {
    hide AtRest, Resume, Sound, ResolveApproval, ResolveEffects, Apply, ApplyAll, MentionsOnly;
    IndexedIsParked(w, id, false);
    var r := w.shared.index[id];
    var effects := Resume(w.contexts[r], decision, false, env).effects;
    DecideUnfolds(w, id, decision, env, false);
    DecisionOnly(w.shared, r, id, decision);
    ResumeMentions(w.contexts[r], decision, env);
    ApplyInTwoParts(w.shared, r, ResolveEffects(id, decision), effects);
    UnmentionedKept(ApplyAll(w.shared, r, ResolveEffects(id, decision)), r, effects, {env.newApprovalId}, id);
  }

  lemma HeldDecisionActs(w: World, id: ApprovalId, decision: ApprovalStatus, env: Collaborators)
    requires Sound(w, false) && Enabled(w, Decide(id, decision, env))
    requires id in w.shared.approvals && w.shared.approvals[id].status == Undecided && id in w.shared.index
    ensures var w' := ResolveApproval(w, id, decision, env); var r := w.shared.approvals[id].runId;
            && r in w.contexts && r in w'.shared.runs && w.contexts[r].approvalId == Some(id)
            && w'.shared.runs[r].status == Resume(w.contexts[r], decision, false, env).context.state
  {
    hide AtRest, Resume, Sound, ResolveApproval, ApplyAll;
    IndexedIsParked(w, id, false);
    DecideUnfolds(w, id, decision, env, false);
    DecideSound(w, id, decision, env, false);
    StatusIsState(ResolveApproval(w, id, decision, env), w.shared.index[id]);
  }

  lemma StatusIsState(w: World, r: RunId)
    requires Sound(w, false) && r in w.contexts
    ensures r in w.shared.runs && w.shared.runs[r].status == w.contexts[r].state
  {
    assert RunAtRest(w, r, false);
  }

  /**
   * A decision is always stored, and it ends its run exactly when the controller still has the approval in
   * its index: COMPLETED or FAILED when granted, depending on the collaborators, and CANCELED when not.
   * Otherwise the run waits on.
   */
  lemma DecisionActsExactly(actions: seq<Action>, id: ApprovalId, decision: ApprovalStatus, env: Collaborators)
    requires id in Reached(actions).shared.approvals && Reached(actions).shared.approvals[id].status == Undecided
    requires Enabled(Reached(actions), Decide(id, decision, env))
    ensures var w := Reached(actions); var r := w.shared.approvals[id].runId;
            var w' := Step(w, Decide(id, decision, env));
            && r in w.contexts && r in w'.shared.runs && id in w'.shared.approvals
            && w'.shared.approvals[id] == w.shared.approvals[id].(status := decision, resolvedAt := Some(w.shared.now))
            && (Terminal(w'.shared.runs[r].status) <==> id in w.shared.index)
            && w'.shared.runs[r].status ==
               if id !in w.shared.index then WaitingForApproval
               else if decision != Approved then Canceled
               else if Answers(env, Woken(w.contexts[r])) then Completed else Failed
  {
    hide AtRest, Resume, Sound;
    ReachedSound(actions);
    var w := Reached(actions);
    ApprovalIsNamed(w, id, false);
    var r := w.shared.approvals[id].runId;
    if id in w.shared.index {
      HeldDecisionActs(w, id, decision, env);
      HeldDecisionIsStored(w, id, decision, env);
      ResumeEnds(w.contexts[r], decision, env);
    } else {
      DecisionOnly(w.shared, r, id, decision);
      StatusIsState(w, r);
    }
  }

  /** Collaborators whose tool stage asks for approval, so that a run of this task pauses. */
  function Pausing(task: Task, id: ApprovalId): Collaborators {
    LeadingTo(AtTools(task), (c: Context) => Ok(ToolPhaseResult([], true, None, None, []))).(newApprovalId := id)
  }

  function AtTools(task: Task): Context {
    FreshContext(task).(state := InProgress, step := Some(ExecuteTools), classification := Some("support"))
  }

  lemma PausingPauses(task: Task, id: ApprovalId)
    ensures var c := Execute(FreshContext(task), Pausing(task, id)).context;
            c.state == WaitingForApproval && c.approvalId == Some(id)
  {
    var env := Pausing(task, id);
    LeadsToTools(AtTools(task), env);
    assert Loop(AtTools(task), env).context == Pass(AtTools(task), env).context;
  }

  /**
   * Such a run is paused, the controller restarted, and the approval granted: the decision is stored, and
   * the run waits for good.
   */
  lemma ForgottenApproval(task: Task, id: ApprovalId, other: ApprovalId, more: seq<Action>)
    requires id != other
    ensures var decide := Decide(id, Approved, Pausing(task, other));
            var w := Reached([Start(task, Pausing(task, id)), Restart]);
            var w' := Run(Step(w, decide), more);
            && Enabled(w, decide) && id in w.shared.approvals && w.shared.approvals[id].status == Undecided
            && id in w'.shared.approvals && w'.shared.approvals[id].status == Approved
            && task.runId in w'.shared.runs && w'.shared.runs[task.runId].status == WaitingForApproval
  {
    hide AtRest, Execute, Sound;
    var env, r := Pausing(task, id), task.runId;
    var one, decide := [Start(task, env)], Decide(id, Approved, Pausing(task, other));
    var two := one + [Restart];
    var three := two + [decide];
    assert [] + one == one && two == [Start(task, env), Restart];
    PausingPauses(task, id);
    ReachedOneMore([], Start(task, env));
    ReachedOneMore(one, Restart);
    ReachedOneMore(two, decide);
    PausedIsUndecided(one, r, id);
    OnlyNewApproval(task, env, other);
    DecisionActsExactly(two, id, Approved, Pausing(task, other));
    NothingElseToDecide(three, r, id);
    SettledForGood(three, more, r);
    DecidedForGood(three, more, id);
  }

  lemma ReachedOneMore(actions: seq<Action>, a: Action)
    ensures Reached(actions + [a]) == Step(Reached(actions), a)
  {
    assert (actions + [a])[..|actions|] == actions;
  }

  /** A run that waits before any restart has its approval still undecided. */
  lemma PausedIsUndecided(actions: seq<Action>, r: RunId, id: ApprovalId)
    requires Restart !in actions && r in Reached(actions).contexts
    requires Reached(actions).contexts[r].state == WaitingForApproval
    requires Reached(actions).contexts[r].approvalId == Some(id)
    ensures var s := Reached(actions).shared;
            id in s.approvals && s.approvals[id].status == Undecided && s.approvals[id].runId == r && r in s.runs
  {
    ReachedSound(actions);
    assert RunAtRest(Reached(actions), r, true);
    assert id in Share(Reached(actions), r).approvals;
  }

  lemma OnlyNewApproval(task: Task, env: Collaborators, other: ApprovalId)
    requires other != env.newApprovalId
    ensures other !in StartRun(EMPTY, task, env).shared.approvals
  {
    hide Execute;
    ExecuteMentions(FreshContext(task), env);
    UnmentionedAbsent(EMPTY.(shared := EMPTY.shared.(runs := EMPTY.shared.runs[task.runId := NewRow(task)])).shared,
                      task.runId, Execute(FreshContext(task), env).effects, {env.newApprovalId}, other);
  }

  lemma {:induction false} UnmentionedAbsent(s: Shared, r: RunId, effects: seq<Effect>, ids: set<ApprovalId>,
                                             id: ApprovalId)
    requires MentionsOnly(effects, ids) && id !in ids && id !in s.approvals
    ensures id !in ApplyAll(s, r, effects).approvals
  {
    if effects != [] {
      UnmentionedAbsent(s, r, effects[..|effects| - 1], ids, id);
    }
  }

  lemma NothingElseToDecide(actions: seq<Action>, r: RunId, id: ApprovalId)
    requires id in Reached(actions).shared.approvals && Reached(actions).shared.approvals[id].runId == r
    requires Reached(actions).shared.approvals[id].status != Undecided
    ensures NothingToDecide(Reached(actions).shared, r)
  {
    forall other | other in Reached(actions).shared.approvals && Reached(actions).shared.approvals[other].runId == r
      ensures other == id
    {
      OncePerRun(actions, other, id, r);
    }
  }

  // ---- The start of a run ----

  /** The start time is written once: whatever happens to the run later, it keeps it. */
  lemma {:induction false} StartTimeKept(s: Shared, r: RunId, effects: seq<Effect>, q: RunId)
    requires q in s.runs && s.runs[q].startedAt.Some?
    ensures var s' := ApplyAll(s, r, effects); q in s'.runs && s'.runs[q].startedAt == s.runs[q].startedAt
  {
    hide Apply;
    if effects != [] {
      StartTimeKept(s, r, effects[..|effects| - 1], q);
      StartTimeKeptOnce(ApplyAll(s, r, effects[..|effects| - 1]), r, effects[|effects| - 1], q);
    }
  }

  lemma StartTimeKeptOnce(s: Shared, r: RunId, effect: Effect, q: RunId)
    requires q in s.runs && s.runs[q].startedAt.Some?
    ensures var s' := Apply(s, r, effect); q in s'.runs && s'.runs[q].startedAt == s.runs[q].startedAt
  {
  }

  lemma StepKeepsStartTime(w: World, a: Action, q: RunId)
    requires q in w.shared.runs && w.shared.runs[q].startedAt.Some?
    ensures var s := Step(w, a).shared; q in s.runs && s.runs[q].startedAt == w.shared.runs[q].startedAt
  {
    hide Execute, Resume;
    if Enabled(w, a) {
      match a
      case Start(task, env) =>
        StartTimeKept(Created(w, task).shared, task.runId, Execute(FreshContext(task), env).effects, q);
      case Decide(id, decision, env) =>
        if id in w.shared.approvals && w.shared.approvals[id].status == Undecided {
          var decided := w.(shared := ApplyAll(w.shared, w.shared.approvals[id].runId, ResolveEffects(id, decision)));
          StartTimeKept(w.shared, w.shared.approvals[id].runId, ResolveEffects(id, decision), q);
          ResumeKeepsStartTime(decided, id, env, q);
        }
      case TryResume(id, env) => ResumeKeepsStartTime(w, id, env, q);
      case Restart =>
    }
  }

  lemma ResumeKeepsStartTime(w: World, id: ApprovalId, env: Collaborators, q: RunId)
    requires q in w.shared.runs && w.shared.runs[q].startedAt.Some?
    ensures var s := ResumeRun(w, id, env).shared; q in s.runs && s.runs[q].startedAt == w.shared.runs[q].startedAt
  {
    hide Resume;
    if ResumeRefusal(w, id).None? {
      var c := w.contexts[w.shared.index[id]];
      StartTimeKept(w.shared, w.shared.index[id],
                    Resume(c, w.shared.approvals[c.approvalId.value].status, false, env).effects, q);
    }
  }

  lemma {:induction false} StartedForGood(actions: seq<Action>, more: seq<Action>, q: RunId)
    requires q in Reached(actions).shared.runs
    ensures var s := Run(Reached(actions), more).shared;
            && q in s.runs && s.runs[q].startedAt.Some?
            && s.runs[q].startedAt == Reached(actions).shared.runs[q].startedAt
  {
    if more == [] {
      ShareAtRest(actions, q);
    } else {
      var front := more[..|more| - 1];
      StartedForGood(actions, front, q);
      StepKeepsStartTime(Run(Reached(actions), front), more[|more| - 1], q);
    }
  }
}
