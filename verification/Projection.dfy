/** One run's share of the platform, and the proof that runs do not touch each other's share. */
module Projection {
  import opened Prelude
  import opened Domain
  import opened Tables

  datatype Local = Local(context: Context, row: RunRow, log: seq<Event>,
                         approvals: map<ApprovalId, ApprovalRow>, now: nat,
                         parked: bool, index: set<ApprovalId>, toolPhases: nat)

  /** The run's events, in the order they were appended. */
  function Log(events: seq<EventRow>, r: RunId): seq<Event> {
    if events == [] then []
    else
      var last := events[|events| - 1];
      Log(events[..|events| - 1], r) + if last.runId == r then [last.event] else []
  }

  function ApprovalsOf(s: Shared, r: RunId): map<ApprovalId, ApprovalRow> {
    map a | a in s.approvals && s.approvals[a].runId == r :: s.approvals[a]
  }

  function IndexedFor(s: Shared, r: RunId): set<ApprovalId> {
    set a | a in s.index && s.index[a] == r
  }

  function Project(s: Shared, c: Context, r: RunId): Local
    requires r in s.runs
  {
    Local(c, s.runs[r], Log(s.events, r), ApprovalsOf(s, r), s.now,
          r in s.waiting, IndexedFor(s, r), s.toolPhases[r])
  }

  function LocalApply(l: Local, r: RunId, effect: Effect): Local {
    match effect
    case SetStatus(status, lastError) => l.(row := WriteStatus(l.row, status, lastError, l.now), now := l.now + 1)
    case Emit(e) => l.(log := l.log + [e])
    case CallTools => l.(toolPhases := l.toolPhases + 1)
    case OpenApproval(id, reason, preview, invocation) =>
      l.(approvals := l.approvals[id := ApprovalRow(r, Undecided, reason, preview, invocation, l.now, None)],
         now := l.now + 1)
    case Settle(id, decision) =>
      if id in l.approvals
      then l.(approvals := l.approvals[id := l.approvals[id].(status := decision, resolvedAt := Some(l.now))],
              now := l.now + 1)
      else l
    case Park(id) => l.(parked := true, index := l.index + {id})
    case Register(id) => l.(index := l.index + {id})
    case Unpark => l.(parked := false)
    case Purge => l.(parked := false, index := {})
  }

  function LocalApplyAll(l: Local, r: RunId, effects: seq<Effect>): Local {
    if effects == [] then l
    else LocalApply(LocalApplyAll(l, r, effects[..|effects| - 1]), r, effects[|effects| - 1])
  }

  lemma LocalApplyOneMore(l: Local, r: RunId, effects: seq<Effect>, effect: Effect)
    ensures LocalApplyAll(l, r, effects + [effect]) == LocalApply(LocalApplyAll(l, r, effects), r, effect)
  {
  }

  lemma {:induction false} LocalApplyInTwoParts(l: Local, r: RunId, first: seq<Effect>, second: seq<Effect>)
    ensures LocalApplyAll(l, r, first + second) == LocalApplyAll(LocalApplyAll(l, r, first), r, second)
  {
    if second == [] {
      assert first + second == first;
    } else {
      var n := |second| - 1;
      LocalApplyInTwoParts(l, r, first, second[..n]);
      assert first + second == (first + second[..n]) + [second[n]];
      LocalApplyOneMore(l, r, first + second[..n], second[n]);
    }
  }

  function Mentioned(effect: Effect): set<ApprovalId> {
    match effect
    case OpenApproval(id, _, _, _) => {id}
    case Settle(id, _) => {id}
    case Park(id) => {id}
    case Register(id) => {id}
    case _ => {}
  }

  /** No effect names an approval outside `ids`. */
  ghost predicate MentionsOnly(effects: seq<Effect>, ids: set<ApprovalId>) {
    forall i :: 0 <= i < |effects| ==> Mentioned(effects[i]) <= ids
  }

  /** None of `ids` belongs to a run other than `r`. */
  ghost predicate Owns(s: Shared, r: RunId, ids: set<ApprovalId>) {
    forall id :: id in ids ==>
      && (id in s.approvals ==> s.approvals[id].runId == r)
      && (id in s.index ==> s.index[id] == r)
  }

  lemma LogAppend(events: seq<EventRow>, r: RunId, e: Event, q: RunId)
    ensures Log(AppendEvent(events, r, e), q) == Log(events, q) + if q == r then [e] else []
  {
  }

  lemma ProjectOneMaps(s: Shared, c: Context, r: RunId, effect: Effect)
    requires r in s.runs && Owns(s, r, Mentioned(effect))
    ensures ApprovalsOf(Apply(s, r, effect), r) == LocalApply(Project(s, c, r), r, effect).approvals
    ensures IndexedFor(Apply(s, r, effect), r) == LocalApply(Project(s, c, r), r, effect).index
  {
  }

  lemma ProjectOne(s: Shared, c: Context, r: RunId, effect: Effect)
    requires r in s.runs && Owns(s, r, Mentioned(effect))
    ensures r in Apply(s, r, effect).runs
    ensures Project(Apply(s, r, effect), c, r) == LocalApply(Project(s, c, r), r, effect)
  {
    ProjectOneMaps(s, c, r, effect);
    if effect.Emit? {
      LogAppend(s.events, r, effect.event, r);
    }
  }

  lemma FrameOneMaps(s: Shared, r: RunId, effect: Effect, q: RunId)
    requires q != r && Owns(s, r, Mentioned(effect))
    ensures ApprovalsOf(Apply(s, r, effect), q) == ApprovalsOf(s, q)
    ensures IndexedFor(Apply(s, r, effect), q) == IndexedFor(s, q)
  {
  }

  lemma FrameOne(s: Shared, r: RunId, effect: Effect, c: Context, q: RunId)
    requires q in s.runs && q != r && Owns(s, r, Mentioned(effect))
    ensures q in Apply(s, r, effect).runs && s.now <= Apply(s, r, effect).now
    ensures Project(Apply(s, r, effect), c, q) == Project(s, c, q).(now := Apply(s, r, effect).now)
  {
    FrameOneMaps(s, r, effect, q);
    if effect.Emit? {
      LogAppend(s.events, r, effect.event, q);
    }
  }

  lemma OwnsOne(s: Shared, r: RunId, effect: Effect, ids: set<ApprovalId>)
    requires Owns(s, r, ids) && Mentioned(effect) <= ids
    ensures Owns(Apply(s, r, effect), r, ids)
  {
  }

  lemma {:induction false} OwnsAfter(s: Shared, r: RunId, effects: seq<Effect>, ids: set<ApprovalId>)
    requires Owns(s, r, ids) && MentionsOnly(effects, ids)
    ensures Owns(ApplyAll(s, r, effects), r, ids)
  {
    if effects != [] {
      OwnsAfter(s, r, effects[..|effects| - 1], ids);
      OwnsOne(ApplyAll(s, r, effects[..|effects| - 1]), r, effects[|effects| - 1], ids);
    }
  }

  /** The platform's tables, seen from run `r`, change as the run's own share does. */
  lemma {:induction false} ProjectAll(s: Shared, c: Context, r: RunId, effects: seq<Effect>, ids: set<ApprovalId>)
    requires r in s.runs && Owns(s, r, ids) && MentionsOnly(effects, ids)
    ensures r in ApplyAll(s, r, effects).runs
    ensures Project(ApplyAll(s, r, effects), c, r) == LocalApplyAll(Project(s, c, r), r, effects)
  {
    if effects != [] {
      var front := effects[..|effects| - 1];
      ProjectAll(s, c, r, front, ids);
      OwnsAfter(s, r, front, ids);
      ProjectOne(ApplyAll(s, r, front), c, r, effects[|effects| - 1]);
    }
  }

  /** Whatever is done on behalf of `r` leaves every other run's share alone, but for the passing of time. */
  lemma {:induction false} FrameAll(s: Shared, r: RunId, effects: seq<Effect>, ids: set<ApprovalId>,
                                    c: Context, q: RunId)
    requires q in s.runs && q != r && Owns(s, r, ids) && MentionsOnly(effects, ids)
    ensures q in ApplyAll(s, r, effects).runs && s.now <= ApplyAll(s, r, effects).now
    ensures Project(ApplyAll(s, r, effects), c, q) == Project(s, c, q).(now := ApplyAll(s, r, effects).now)
  {
    if effects != [] {
      var front := effects[..|effects| - 1];
      FrameAll(s, r, front, ids, c, q);
      OwnsAfter(s, r, front, ids);
      FrameOne(ApplyAll(s, r, front), r, effects[|effects| - 1], c, q);
    }
  }
}
