/** The persisted tables and the runtime controller's two indexes, as values. */
module Tables {
  import opened Prelude
  import opened Domain

  /** `history` is not a column: it keeps every status written, so that whole lifecycles can be stated. */
  datatype RunRow = RunRow(task: Task, status: RunState, lastError: Option<string>,
                           startedAt: Option<nat>, completedAt: Option<nat>, history: seq<RunState>)

  datatype EventRow = EventRow(runId: RunId, sequence: nat, event: Event)

  datatype ApprovalRow = ApprovalRow(runId: RunId, status: ApprovalStatus, reason: string,
                                     preview: Option<Payload>, invocation: Option<InvocationId>,
                                     requestedAt: nat, resolvedAt: Option<nat>)

  /** `now` counts readings of the clock; a timestamp is the number of the reading that produced it. */
  datatype Shared = Shared(runs: map<RunId, RunRow>, events: seq<EventRow>,
                           approvals: map<ApprovalId, ApprovalRow>, now: nat,
                           waiting: set<RunId>, index: map<ApprovalId, RunId>,
                           toolPhases: multiset<RunId>)

  /** One call of the engine on a store or a runtime hook. */
  datatype Effect =
    | SetStatus(status: RunState, lastError: Option<string>)
    | Emit(event: Event)
    | CallTools
    | OpenApproval(id: ApprovalId, reason: string, preview: Option<Payload>, invocation: Option<InvocationId>)
    | Settle(id: ApprovalId, decision: ApprovalStatus)
    | Park(id: ApprovalId)
    | Register(id: ApprovalId)
    | Unpark
    | Purge

  function NewRow(task: Task): RunRow {
    RunRow(task, Pending, None, None, None, [])
  }

  function WriteStatus(row: RunRow, status: RunState, lastError: Option<string>, now: nat): RunRow {
    row.(status := status, lastError := lastError,
         startedAt := if status == InProgress && row.startedAt.None? then Some(now) else row.startedAt,
         completedAt := if Terminal(status) then Some(now) else row.completedAt,
         history := row.history + [status])
  }

  /** The largest sequence number in the run's rows, 0 when it has none. */
  function MaxSequence(events: seq<EventRow>, r: RunId): (m: nat)
    ensures forall i :: 0 <= i < |events| && events[i].runId == r ==> events[i].sequence <= m
    ensures m == 0 || exists i :: 0 <= i < |events| && events[i].runId == r && events[i].sequence == m
  {
    if events == [] then 0 else
      var last := events[|events| - 1];
      var rest := MaxSequence(events[..|events| - 1], r);
      if last.runId == r && last.sequence > rest then last.sequence else rest
  }

  function AppendEvent(events: seq<EventRow>, r: RunId, e: Event): seq<EventRow> {
    events + [EventRow(r, MaxSequence(events, r) + 1, e)]
  }

  function Apply(s: Shared, r: RunId, effect: Effect): Shared {
    match effect
    case SetStatus(status, lastError) =>
      if r in s.runs
      then s.(runs := s.runs[r := WriteStatus(s.runs[r], status, lastError, s.now)], now := s.now + 1)
      else s
    case Emit(e) => s.(events := AppendEvent(s.events, r, e))
    case CallTools => s.(toolPhases := s.toolPhases + multiset{r})
    case OpenApproval(id, reason, preview, invocation) =>
      s.(approvals := s.approvals[id := ApprovalRow(r, Undecided, reason, preview, invocation, s.now, None)],
         now := s.now + 1)
    case Settle(id, decision) =>
      if id in s.approvals
      then s.(approvals := s.approvals[id := s.approvals[id].(status := decision, resolvedAt := Some(s.now))],
              now := s.now + 1)
      else s
    case Park(id) => s.(waiting := s.waiting + {r}, index := s.index[id := r])
    case Register(id) => s.(index := s.index[id := r])
    case Unpark => s.(waiting := s.waiting - {r})
    case Purge => s.(waiting := s.waiting - {r}, index := WithoutRun(s.index, r))
  }

  function WithoutRun(index: map<ApprovalId, RunId>, r: RunId): map<ApprovalId, RunId> {
    map a | a in index && index[a] != r :: index[a]
  }

  function ApplyAll(s: Shared, r: RunId, effects: seq<Effect>): Shared {
    if effects == [] then s
    else Apply(ApplyAll(s, r, effects[..|effects| - 1]), r, effects[|effects| - 1])
  }

  lemma ApplyOneMore(s: Shared, r: RunId, effects: seq<Effect>, effect: Effect)
    ensures ApplyAll(s, r, effects + [effect]) == Apply(ApplyAll(s, r, effects), r, effect)
  {
  }

  lemma {:induction false} ApplyInTwoParts(s: Shared, r: RunId, first: seq<Effect>, second: seq<Effect>)
    ensures ApplyAll(s, r, first + second) == ApplyAll(ApplyAll(s, r, first), r, second)
  {
    if second == [] {
      assert first + second == first;
    } else {
      var n := |second| - 1;
      ApplyInTwoParts(s, r, first, second[..n]);
      assert first + second == (first + second[..n]) + [second[n]];
      ApplyOneMore(s, r, first + second[..n], second[n]);
    }
  }

  lemma ApplyTwo(s: Shared, r: RunId, a: Effect, b: Effect)
    ensures ApplyAll(s, r, [a, b]) == Apply(Apply(s, r, a), r, b)
  {
    ApplyOneMore(s, r, [], a);
    ApplyOneMore(s, r, [a], b);
    assert [] + [a] == [a] && [a] + [b] == [a, b];
  }

  lemma ApplyFive(s: Shared, r: RunId, a: Effect, b: Effect, c: Effect, d: Effect, e: Effect)
    ensures ApplyAll(s, r, [a, b, c, d, e]) == Apply(Apply(Apply(Apply(Apply(s, r, a), r, b), r, c), r, d), r, e)
  {
    hide Apply;
    ApplyTwo(s, r, a, b);
    ApplyOneMore(s, r, [a, b], c);
    ApplyOneMore(s, r, [a, b, c], d);
    ApplyOneMore(s, r, [a, b, c, d], e);
    assert [a, b] + [c] == [a, b, c] && [a, b, c] + [d] == [a, b, c, d] && [a, b, c, d] + [e] == [a, b, c, d, e];
  }

  lemma ApplyNone(s: Shared, r: RunId)
    ensures ApplyAll(s, r, []) == s
  {
  }

  lemma ApplySingle(s: Shared, r: RunId, effect: Effect)
    ensures ApplyAll(s, r, [effect]) == Apply(s, r, effect)
  {
  }
}
