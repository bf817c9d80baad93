/** The whole platform as a state machine over API calls, with any number of runs in flight. */
module System {
  import opened Prelude
  import opened Domain
  import opened Tables
  import opened Lifecycle

  /** `contexts` keeps the context of every run ever started, the finished ones too. */
  datatype World = World(shared: Shared, contexts: map<RunId, Context>)

  /** `Restart` is the loss of the controller's memory; the database survives it. */
  datatype Action =
    | Start(task: Task, env: Collaborators)
    | Decide(approval: ApprovalId, decision: ApprovalStatus, env: Collaborators)
    | TryResume(approval: ApprovalId, env: Collaborators)
    | Restart

  const EMPTY := World(Shared(map[], [], map[], 0, {}, map[], multiset{}), map[])

  function StartRun(w: World, task: Task, env: Collaborators): World {
    var created := w.shared.(runs := w.shared.runs[task.runId := NewRow(task)]);
    var episode := Execute(FreshContext(task), env);
    World(ApplyAll(created, task.runId, episode.effects), w.contexts[task.runId := episode.context])
  }

  /** Why the engine refuses to resume a context, if it does. */
  function EngineRefusal(s: Shared, c: Context): Option<string> {
    if c.state != WaitingForApproval || c.approvalId.None?
    then Some("Run is not waiting on an approval request")
    else if c.approvalId.value !in s.approvals
    then Some("Approval request not found.")
    else if s.approvals[c.approvalId.value].status == Undecided
    then Some("Approval request is still pending")
    else None
  }

  /** The engine resumes exactly contexts that wait on a stored decision; the other cases it tells apart. */
  lemma RefusalsAre(s: Shared, c: Context)
    ensures EngineRefusal(s, c) == None <==>
            c.state == WaitingForApproval
            && exists id :: c.approvalId == Some(id) && id in s.approvals && s.approvals[id].status != Undecided
    ensures c.state != WaitingForApproval || c.approvalId == None ==>
              EngineRefusal(s, c) == Some("Run is not waiting on an approval request")
    ensures forall id :: c.state == WaitingForApproval && c.approvalId == Some(id) ==>
              && (id !in s.approvals ==> EngineRefusal(s, c) == Some("Approval request not found."))
              && (id in s.approvals && s.approvals[id].status == Undecided ==>
                    EngineRefusal(s, c) == Some("Approval request is still pending"))
  {
    if c.approvalId.Some? {
      assert c.approvalId == Some(c.approvalId.value);
    }
  }

  /** The waiting context the controller holds for an approval. */
  predicate HoldsContext(w: World, id: ApprovalId) {
    id in w.shared.index && w.shared.index[id] in w.shared.waiting && w.shared.index[id] in w.contexts
  }

  function ResumeRefusal(w: World, id: ApprovalId): Option<string> {
    if !HoldsContext(w, id) then Some("No waiting context")
    else EngineRefusal(w.shared, w.contexts[w.shared.index[id]])
  }

  function ResumeRun(w: World, id: ApprovalId, env: Collaborators): World {
    if ResumeRefusal(w, id).Some? then w
    else
      var r := w.shared.index[id];
      var c := w.contexts[r];
      var episode := Resume(c, w.shared.approvals[c.approvalId.value].status, false, env);
      World(ApplyAll(w.shared, r, episode.effects), w.contexts[r := episode.context])
  }

  function ResolveEffects(id: ApprovalId, decision: ApprovalStatus): seq<Effect> {
    [Settle(id, decision), Emit(ApprovalResolved(id, decision))]
  }

  function ResolveApproval(w: World, id: ApprovalId, decision: ApprovalStatus, env: Collaborators): World {
    if id !in w.shared.approvals || w.shared.approvals[id].status != Undecided then w
    else
      var r := w.shared.approvals[id].runId;
      ResumeRun(w.(shared := ApplyAll(w.shared, r, ResolveEffects(id, decision))), id, env)
  }

  /** The ids drawn are new, and the API passes no decision but a final one. */
  predicate Enabled(w: World, a: Action) {
    match a
    case Start(task, env) => task.runId !in w.shared.runs && env.newApprovalId !in w.shared.approvals
    case Decide(_, decision, env) => decision != Undecided && env.newApprovalId !in w.shared.approvals
    case TryResume(_, env) => env.newApprovalId !in w.shared.approvals
    case Restart => true
  }

  function Step(w: World, a: Action): World {
    if !Enabled(w, a) then w
    else match a
      case Start(task, env) => StartRun(w, task, env)
      case Decide(id, decision, env) => ResolveApproval(w, id, decision, env)
      case TryResume(id, env) => ResumeRun(w, id, env)
      case Restart => w.(shared := w.shared.(waiting := {}, index := map[]))
  }

  function Run(w: World, actions: seq<Action>): World {
    if actions == [] then w
    else Step(Run(w, actions[..|actions| - 1]), actions[|actions| - 1])
  }

  /** The state every sequence of API calls and restarts leads to, from an empty database. */
  function Reached(actions: seq<Action>): World {
    Run(EMPTY, actions)
  }
}
