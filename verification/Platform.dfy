/** The API-facing service: each call moves the heap exactly as the corresponding step moves the World. */
module Platform {
  import opened Prelude
  import opened Domain
  import opened Tables
  import opened Lifecycle
  import opened System
  import opened Persistence
  import opened Runtime
  import opened Engine

  datatype Answer = NotFound | Conflict | NotResumed | ResumeRefused(error: string) | Resumed

  class PlatformService {
    const engine: OrchestratorEngine
    /** Every run's context object; the code itself keeps only the waiting ones. */
    ghost var contexts: map<RunId, RunContext>

    /** The controller holds the very contexts of the runs, each under its own id. */
    ghost predicate Valid()
      reads this, engine.runtime
    {
      Valid'(contexts)
    }

    ghost predicate Valid'(all: map<RunId, RunContext>)
      reads this, engine.runtime
    {
      && (forall r :: r in all ==> all[r].task.runId == r)
      && (forall r :: r in engine.runtime.waiting ==> r in all && engine.runtime.waiting[r] == all[r])
    }

    ghost function Contexts(): map<RunId, Context>
      reads this, contexts.Values
    {
      map r | r in contexts :: contexts[r].Value()
    }

    ghost function View(): World
      reads this, engine, engine.db, engine.runtime, contexts.Values
    {
      World(engine.State(), Contexts())
    }

    constructor (db: Database, runtime: RuntimeController)
      requires db.runs == map[] && db.events == [] && db.approvals == map[] && db.now == 0
      requires runtime.waiting == map[] && runtime.approvalToRun == map[]
      ensures Valid() && View() == EMPTY && engine.db == db && engine.runtime == runtime
    {
      engine := new OrchestratorEngine(db, runtime);
      contexts := map[];
    }

    method CreateRun(task: Task) returns (c: RunContext)
      modifies engine.db
      ensures fresh(c) && c.task == task && c.Value() == FreshContext(task)
      ensures engine.State() == old(engine.State()).(runs := old(engine.State()).runs[task.runId := NewRow(task)])
    {
      engine.db.CreateRun(task);
      c := new RunContext(task);
    }

    /** Runs a new context through the engine, on behalf of nobody else. */
    method Launch(task: Task, env: Collaborators) returns (c: RunContext)
      requires Valid() && task.runId !in contexts
      modifies engine, engine.db, engine.runtime
      ensures Valid'(contexts[task.runId := c]) && fresh(c)
      ensures var w := System.StartRun(old(View()), task, env);
              engine.State() == w.shared && c.Value() == w.contexts[task.runId]
    {
      hide ApplyAll, Execute;
      c := CreateRun(task);
      engine.Execute(c, env);
    }

    method StartRun(task: Task, env: Collaborators) returns (c: RunContext)
      requires Valid() && task.runId !in contexts
      modifies this, engine, engine.db, engine.runtime
      ensures Valid() && fresh(c) && contexts == old(contexts)[task.runId := c]
      ensures View() == System.StartRun(old(View()), task, env)
    {
      hide ApplyAll, Execute, FreshContext, NewRow;
      c := Launch(task, env);
      contexts := contexts[task.runId := c];
      OneContextMore(task.runId, c);
    }

    /** Resumes the run whose context the controller holds. */
    method ResumeHeld(r: RunId, env: Collaborators) returns (refusal: Option<string>)
      requires Valid() && r in engine.runtime.waiting
      modifies engine, engine.db, engine.runtime, contexts[r]
      ensures Valid()
      ensures refusal == EngineRefusal(old(engine.State()), old(contexts[r].Value()))
      ensures refusal.Some? ==> View() == old(View())
      ensures refusal.None? ==>
                var s, c := old(engine.State()), old(contexts[r].Value());
                var episode := Resume(c, s.approvals[c.approvalId.value].status, false, env);
                View() == World(ApplyAll(s, r, episode.effects), old(Contexts())[r := episode.context])
    {
      hide ApplyAll, Resume;
      ghost var all := Contexts();
      ApplyNone(engine.State(), r);
      var c := engine.runtime.waiting[r];
      refusal := engine.ResumeAfterApproval(c, false, env);
      OneContextMoved(r);
      assert all[r := old(contexts[r].Value())] == all;
    }

    twostate lemma OneContextMore(r: RunId, new c: RunContext)
      requires contexts == old(contexts)[r := c]
      requires forall q :: q in contexts && q != r ==> q in old(contexts) && unchanged(contexts[q])
      ensures Contexts() == old(Contexts())[r := c.Value()]
    {
    }

    twostate lemma OneContextMoved(r: RunId)
      requires contexts == old(contexts) && r in contexts
      requires forall q :: q in contexts ==> contexts[q].task.runId == q
      requires forall q :: q in contexts && q != r ==> unchanged(contexts[q])
      ensures Contexts() == old(Contexts())[r := contexts[r].Value()]
    {
    }

    method ResumeAfterApproval(id: ApprovalId, env: Collaborators) returns (answer: Answer)
      requires Valid()
      modifies engine, engine.db, engine.runtime, contexts.Values
      ensures Valid()
      ensures View() == ResumeRun(old(View()), id, env)
      ensures answer == NotResumed <==> !HoldsContext(old(View()), id)
      ensures answer == Resumed <==> ResumeRefusal(old(View()), id).None?
      ensures answer.ResumeRefused? ==> ResumeRefusal(old(View()), id) == Some(answer.error)
      ensures answer.NotResumed? || answer.ResumeRefused? || answer.Resumed?
    {
      hide ApplyAll, Resume, EngineRefusal;
      var r := engine.runtime.GetRunIdForApproval(id);
      if r.None? {
        return NotResumed;
      }
      var held := engine.runtime.GetWaitingContext(r.value);
      if held.None? {
        return NotResumed;
      }
      var refusal := ResumeHeld(r.value, env);
      return if refusal.Some? then ResumeRefused(refusal.value) else Resumed;
    }

    /** Stores a decision on a pending approval and logs it; changes nothing on any other. */
    method StoreDecision(id: ApprovalId, decision: ApprovalStatus) returns (resolution: Resolution)
      modifies engine.db
      ensures var s := old(engine.State());
              && (resolution == Resolution.NotFound <==> id !in s.approvals)
              && (resolution == NotPending <==> id in s.approvals && s.approvals[id].status != Undecided)
              && engine.State() == if resolution.Resolved?
                                   then ApplyAll(s, s.approvals[id].runId, ResolveEffects(id, decision)) else s
    {
      hide ApplyAll;
      resolution := engine.db.ResolveApprovalRequest(id, decision);
      if resolution.Resolved? {
        var r := resolution.row.runId;
        var _ := engine.db.AppendRunEvent(r, ApprovalResolved(id, decision));
        ApplyTwo(old(engine.State()), r, Settle(id, decision), Emit(ApprovalResolved(id, decision)));
      }
    }

    /** The decision endpoint: store the decision, log it, then try to resume the run. */
    method ResolveApproval(id: ApprovalId, decision: ApprovalStatus, env: Collaborators) returns (answer: Answer)
      requires Valid() && decision != Undecided
      modifies engine, engine.db, engine.runtime, contexts.Values
      ensures Valid()
      ensures View() == System.ResolveApproval(old(View()), id, decision, env)
      ensures var s := old(View()).shared;
              && (answer == Answer.NotFound <==> id !in s.approvals)
              && (answer == Conflict <==> id in s.approvals && s.approvals[id].status != Undecided)
    {
      hide ApplyAll, Resume, ResumeRun, ResolveEffects;
      ghost var w := View();
      var resolution := StoreDecision(id, decision);
      assert View() == w.(shared := engine.State());
      match resolution
      case NotFound => answer := Answer.NotFound;
      case NotPending => answer := Conflict;
      case Resolved(_) => answer := ResumeAfterApproval(id, env);
    }
  }
}
