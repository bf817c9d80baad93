/** The guarded tool executor, and the adapter that runs a plan with it. */
module ToolExecution {
  import opened Prelude
  import opened Domain
  import opened ApprovalSafety

  datatype RiskLevel = Low | Medium | High

  datatype ToolStatus = Succeeded | Failure | ApprovalRequired

  datatype ToolDefinition = ToolDefinition(name: string, risk: RiskLevel, requiresApproval: bool, retryCount: int)

  /** What one call of a handler can end in: a value, or one of the exceptions the executor tells apart. */
  datatype HandlerOutcome =
    | Returned(output: Option<Payload>, preview: Option<Payload>)
    | RetryableError(message: string)
    | TimeoutError(message: string)
    | PermissionError(message: string)
    | ExecutionError(message: string)
    | OtherError(message: string)

  datatype ToolResult = ToolResult(toolName: string, status: ToolStatus, output: Option<Payload>,
                                   error: Option<string>, requiresApproval: bool, preview: Option<Payload>,
                                   attempts: nat, retried: bool)

  /** Everything a plan's execution meets: argument validation, handlers by attempt, and the ids drawn. */
  datatype Surroundings = Surroundings(registry: map<string, ToolDefinition>,
                                       invalid: nat -> Option<string>,
                                       outcomes: (nat, nat) -> HandlerOutcome,
                                       ids: nat -> InvocationId)

  /** The outcomes of one planned position, by attempt. */
  function At(outcomes: (nat, nat) -> HandlerOutcome, position: nat): nat -> HandlerOutcome {
    (attempt: nat) => outcomes(position, attempt)
  }

  predicate CanExecuteWithoutApproval(d: ToolDefinition) {
    !d.requiresApproval && d.risk != High
  }

  predicate IsRetried(o: HandlerOutcome) {
    o.RetryableError? || o.TimeoutError?
  }

  /** An absent or empty preview falls back to the output. */
  function PreviewOf(o: HandlerOutcome): Option<Payload>
    requires o.Returned?
  {
    if o.preview.Some? && o.preview.value != map[] then o.preview else o.output
  }

  /** How a call that stops at outcome `o` on attempt `n` is reported. */
  function ResultOf(d: ToolDefinition, o: HandlerOutcome, n: nat): ToolResult {
    var base := ToolResult(d.name, Failure, None, None, false, None, n, n > 1);
    match o
    case Returned(output, _) =>
      if CanExecuteWithoutApproval(d) then base.(status := Succeeded, output := output)
      else base.(status := ApprovalRequired, requiresApproval := true, preview := PreviewOf(o))
    case OtherError(message) => base.(error := Some("Tool execution failed: " + message))
    case _ => base.(error := Some(o.message))
  }

  /** The number of tries: up to the first outcome that is not retried, or until the retries are used up. */
  function Tries(outcomes: nat -> HandlerOutcome, retries: nat, tried: nat): (n: nat)
    requires tried <= retries
    ensures tried < n <= retries + 1
    ensures forall i :: tried <= i < n - 1 ==> IsRetried(outcomes(i))
    ensures n <= retries ==> !IsRetried(outcomes(n - 1))
    decreases retries - tried
  {
    if tried == retries || !IsRetried(outcomes(tried)) then tried + 1
    else Tries(outcomes, retries, tried + 1)
  }

  lemma {:induction false} TriesUnique(outcomes: nat -> HandlerOutcome, retries: nat, tried: nat, n: nat)
    requires tried < n <= retries + 1 && (forall i :: tried <= i < n - 1 ==> IsRetried(outcomes(i)))
    requires n <= retries ==> !IsRetried(outcomes(n - 1))
    ensures n == Tries(outcomes, retries, tried)
    decreases retries - tried
  {
  }

  function Verdict(registry: map<string, ToolDefinition>, name: string, invalid: Option<string>,
                   outcomes: nat -> HandlerOutcome): Outcome<ToolResult> {
    if name !in registry then Raised("Unknown tool '" + name + "'.")
    else
      var d := registry[name];
      if invalid.Some?
      then Ok(ToolResult(name, Failure, None, Some("Invalid tool arguments: " + invalid.value), false, None, 1, false))
      else if d.retryCount < 0 then Raised("attempts must be at least 1")
      else
        var n := Tries(outcomes, d.retryCount, 0);
        Ok(ResultOf(d, outcomes(n - 1), n))
  }

  /** A tool behind the approval gate never succeeds on its own, and asks for approval whenever it returns. */
  lemma GateIsKept(registry: map<string, ToolDefinition>, name: string, invalid: Option<string>,
                   outcomes: nat -> HandlerOutcome)
    ensures var v := Verdict(registry, name, invalid, outcomes);
            v.Ok? ==>
              && (v.value.requiresApproval <==> v.value.status == ApprovalRequired)
              && (v.value.status == Succeeded ==> CanExecuteWithoutApproval(registry[name]))
              && (v.value.requiresApproval ==> !CanExecuteWithoutApproval(registry[name]) && v.value.output.None?)
              && (v.value.retried <==> v.value.attempts > 1)
              && 1 <= v.value.attempts
              && (invalid.None? ==> v.value.attempts <= registry[name].retryCount + 1)
  {
    if name in registry && invalid.None? && registry[name].retryCount >= 0 {
      var n := Tries(outcomes, registry[name].retryCount, 0);
      assert ResultOf(registry[name], outcomes(n - 1), n).attempts == n;
    }
  }

  /** The outcome the executor stops at: no earlier one is final, and it is final itself or the last allowed. */
  ghost predicate StopsAt(outcomes: nat -> HandlerOutcome, retries: int, n: nat) {
    && 1 <= n <= retries + 1
    && (forall i :: 0 <= i < n - 1 ==> outcomes(i).RetryableError? || outcomes(i).TimeoutError?)
    && (n <= retries ==> !outcomes(n - 1).RetryableError? && !outcomes(n - 1).TimeoutError?)
  }

  /**
   * Field by field, what a call of a registered tool with valid arguments reports. A tool that does not ask
   * for approval and whose risk is not high succeeds with the handler's output; any other tool asks for
   * approval and shows the handler's preview, or its output when there is none. Errors are told by their
   * text, and unexpected ones say so.
   */
  lemma VerdictFieldByField(registry: map<string, ToolDefinition>, name: string, outcomes: nat -> HandlerOutcome,
                            n: nat)
    requires name in registry && StopsAt(outcomes, registry[name].retryCount, n)
    ensures Verdict(registry, name, None, outcomes).Ok?
    ensures var v := Verdict(registry, name, None, outcomes).value; var d := registry[name];
            && v.toolName == d.name && v.attempts == n && (v.retried <==> n > 1)
            && match outcomes(n - 1)
               case Returned(output, preview) =>
                 && (v.status == Succeeded <==> !d.requiresApproval && d.risk != High)
                 && (v.status == Succeeded ==>
                       v.output == output && v.error == None && !v.requiresApproval && v.preview == None)
                 && (v.status != Succeeded ==>
                       && v.status == ApprovalRequired && v.requiresApproval && v.output == None && v.error == None
                       && v.preview == if preview in {None, Some(map[])} then output else preview)
               case OtherError(message) =>
                 v.status == Failure && v.error == Some("Tool execution failed: " + message)
                 && v.output == None && !v.requiresApproval && v.preview == None
               case failure =>
                 v.status == Failure && v.error == Some(failure.message)
                 && v.output == None && !v.requiresApproval && v.preview == None
  {
    EndedBy(registry, name, outcomes, n);
  }

  /** Every such call stops somewhere. */
  lemma EveryCallStops(outcomes: nat -> HandlerOutcome, retries: nat) returns (n: nat)
    ensures StopsAt(outcomes, retries, n)
  {
    n := Tries(outcomes, retries, 0);
  }

  /** And what the other calls come to: an unknown tool and a negative retry count raise, bad arguments fail. */
  lemma VerdictOtherwise(registry: map<string, ToolDefinition>, name: string, invalid: Option<string>,
                         outcomes: nat -> HandlerOutcome)
    ensures var v := Verdict(registry, name, invalid, outcomes);
            && (v.Raised? <==> name !in registry || (invalid.None? && registry[name].retryCount < 0))
            && (name !in registry ==> v == Raised("Unknown tool '" + name + "'."))
            && (name in registry && invalid.Some? ==>
                  v == Ok(ToolResult(name, Failure, None, Some("Invalid tool arguments: " + invalid.value), false, None,
                                     1, false)))
  {
  }

  /** How often the tool's handler is invoked. */
  function Calls(registry: map<string, ToolDefinition>, name: string, invalid: Option<string>,
                 outcomes: nat -> HandlerOutcome): nat {
    var v := Verdict(registry, name, invalid, outcomes);
    if v.Ok? && invalid.None? then v.value.attempts else 0
  }

  /**
   * The gate comes after the handler: whether or not a tool needs approval, its handler is invoked exactly
   * when the tool is registered, its arguments are valid and its retry count is not negative; and whatever
   * asks for approval has run.
   */
  lemma HandlersRunBeforeTheGate(registry: map<string, ToolDefinition>, name: string, invalid: Option<string>,
                                 outcomes: nat -> HandlerOutcome)
    ensures Calls(registry, name, invalid, outcomes) > 0 <==>
            name in registry && invalid.None? && registry[name].retryCount >= 0
    ensures var v := Verdict(registry, name, invalid, outcomes);
            v.Ok? && v.value.requiresApproval ==>
              var n := Calls(registry, name, invalid, outcomes); n > 0 && outcomes(n - 1).Returned?
  {
    if name in registry && invalid.None? && registry[name].retryCount >= 0 {
      var n := Tries(outcomes, registry[name].retryCount, 0);
      assert ResultOf(registry[name], outcomes(n - 1), n).attempts == n;
    }
  }

  /** The tools' handlers; `calls` counts how often each planned position has been invoked. */
  class Handlers {
    const outcomes: (nat, nat) -> HandlerOutcome
    var calls: multiset<nat>

    constructor (outcomes: (nat, nat) -> HandlerOutcome)
      ensures this.outcomes == outcomes && calls == multiset{}
    {
      this.outcomes, calls := outcomes, multiset{};
    }

    method Invoke(position: nat) returns (o: HandlerOutcome)
      modifies this
      ensures o == outcomes(position, old(calls)[position])
      ensures calls == old(calls)[position := old(calls)[position] + 1]
    {
      o := outcomes(position, calls[position]);
      calls := calls[position := calls[position] + 1];
    }
  }

  method Report(d: ToolDefinition, o: HandlerOutcome, attempts: nat, retried: bool) returns (r: ToolResult)
    requires retried <==> attempts > 1
    ensures r == ResultOf(d, o, attempts)
  {
    var base := ToolResult(d.name, Failure, None, None, false, None, attempts, retried);
    match o
    case Returned(output, preview) =>
      if !CanExecuteWithoutApproval(d) {
        var shown := if preview.Some? && preview.value != map[] then preview else output;
        return base.(status := ApprovalRequired, requiresApproval := true, preview := shown);
      }
      return base.(status := Succeeded, output := output);
    case RetryableError(message) => return base.(error := Some(message));
    case TimeoutError(message) => return base.(error := Some(message));
    case PermissionError(message) => return base.(error := Some(message));
    case ExecutionError(message) => return base.(error := Some(message));
    case OtherError(message) => return base.(error := Some("Tool execution failed: " + message));
  }

  lemma EndedBy(registry: map<string, ToolDefinition>, name: string, outcomes: nat -> HandlerOutcome, n: nat)
    requires name in registry && 0 < n <= registry[name].retryCount + 1
    requires forall i :: 0 <= i < n - 1 ==> IsRetried(outcomes(i))
    requires n <= registry[name].retryCount ==> !IsRetried(outcomes(n - 1))
    ensures var r := ResultOf(registry[name], outcomes(n - 1), n);
            Verdict(registry, name, None, outcomes) == Ok(r) && r.attempts == n
  {
  }

  /** Runs one tool: validation, the retry loop, and the approval gate once the handler has returned. */
  method ExecuteTool(registry: map<string, ToolDefinition>, name: string, invalid: Option<string>,
                     handlers: Handlers, position: nat)
    returns (r: Outcome<ToolResult>)
    requires handlers.calls[position] == 0
    modifies handlers
    ensures r == Verdict(registry, name, invalid, At(handlers.outcomes, position))
    ensures handlers.calls
            == old(handlers.calls)[position := Calls(registry, name, invalid, At(handlers.outcomes, position))]
  {
    hide Tries, ResultOf;
    if name !in registry {
      return Raised("Unknown tool '" + name + "'.");
    }
    var d := registry[name];
    if invalid.Some? {
      var error := "Invalid tool arguments: " + invalid.value;
      return Ok(ToolResult(name, Failure, None, Some(error), false, None, 1, false));
    }
    ghost var outcomes := At(handlers.outcomes, position);
    var attempts, retried := 0, false;
    while attempts <= d.retryCount
      invariant attempts == 0 || attempts <= d.retryCount
      invariant handlers.calls == old(handlers.calls)[position := attempts]
      invariant forall i :: 0 <= i < attempts ==> IsRetried(outcomes(i))
      invariant retried <==> attempts > 0
      decreases d.retryCount - attempts
    {
      var o := handlers.Invoke(position);
      attempts := attempts + 1;
      if IsRetried(o) && attempts <= d.retryCount {
        retried := true;
      } else {
        EndedBy(registry, name, outcomes, attempts);
        var result := Report(d, o, attempts, retried);
        return Ok(result);
      }
    }
    // Reached only when the retry count is negative: then no attempt was made, and a result without one is invalid.
    assert attempts == 0 && d.retryCount < 0;
    return Raised("attempts must be at least 1");
  }

  // ---- Running a plan ----

  function RecordOf(call: ToolCall, r: ToolResult, id: InvocationId): ToolRecord {
    ToolRecord(call.name,
               match r.status { case Succeeded => "succeeded" case Failure => "failed" case _ => "approval_required" },
               Some(id), r.output, r.error, r.requiresApproval, r.preview)
  }

  function VerdictAt(planned: seq<ToolCall>, s: Surroundings, i: nat): Outcome<ToolResult>
    requires i < |planned|
  {
    Verdict(s.registry, planned[i].name, s.invalid(i), At(s.outcomes, i))
  }

  function CallsAt(planned: seq<ToolCall>, s: Surroundings, i: nat): nat
    requires i < |planned|
  {
    Calls(s.registry, planned[i].name, s.invalid(i), At(s.outcomes, i))
  }

  function OutputOf(r: ToolResult): seq<Payload> {
    if r.output.Some? then [r.output.value] else []
  }

  /** What is left of a plan, put behind what has been done of it. */
  function Joined(outputs: seq<Payload>, records: seq<ToolRecord>, rest: Outcome<ToolPhaseResult>)
    : Outcome<ToolPhaseResult> {
    if rest.Raised? then rest
    else Ok(rest.value.(outputs := outputs + rest.value.outputs, records := records + rest.value.records))
  }

  lemma JoinedTwice(o1: seq<Payload>, r1: seq<ToolRecord>, o2: seq<Payload>, r2: seq<ToolRecord>,
                    rest: Outcome<ToolPhaseResult>)
    ensures Joined(o1, r1, Joined(o2, r2, rest)) == Joined(o1 + o2, r1 + r2, rest)
  {
    if rest.Ok? {
      assert o1 + (o2 + rest.value.outputs) == o1 + o2 + rest.value.outputs;
      assert r1 + (r2 + rest.value.records) == r1 + r2 + rest.value.records;
    }
  }

  lemma JoinedNothing(rest: Outcome<ToolPhaseResult>)
    ensures Joined([], [], rest) == rest
  {
    if rest.Ok? {
      assert [] + rest.value.outputs == rest.value.outputs && [] + rest.value.records == rest.value.records;
    }
  }

  /** The plan from position `i` on: it stops at the first tool that raises or needs approval. */
  function RunPlan(planned: seq<ToolCall>, s: Surroundings, i: nat): Outcome<ToolPhaseResult>
    requires i <= |planned|
    decreases |planned| - i
  {
    if i == |planned| then Ok(ToolPhaseResult([], false, None, None, []))
    else
      match VerdictAt(planned, s, i)
      case Raised(e) => Raised(e)
      case Ok(r) =>
        Joined(OutputOf(r), [RecordOf(planned[i], r, s.ids(i))],
          if r.requiresApproval
          then Ok(ToolPhaseResult([], true, Some("Approval required for " + planned[i].name), r.preview, []))
          else RunPlan(planned, s, i + 1))
  }

  /**
   * The plan stops at its first gated record: that one is last, the flag is raised for it and for
   * nothing else, and without it every planned tool has its record.
   */
  ghost predicate StopsAtGate(planned: seq<ToolCall>, i: nat, x: ToolPhaseResult) {
    && i + |x.records| <= |planned|
    && (x.requiresApproval <==> HasGatedRecord(x.records))
    && (forall k :: 0 <= k < |x.records| - 1 ==> !x.records[k].requiresApproval)
    && (!x.requiresApproval ==> i + |x.records| == |planned|)
    && forall k :: 0 <= k < |x.records| ==> x.records[k].toolName == planned[i + k].name
  }

  lemma NothingGated()
    ensures !HasGatedRecord([])
  {
  }

  lemma LastIsGated(record: ToolRecord)
    requires record.requiresApproval
    ensures HasGatedRecord([record])
  {
    assert [record][0] == record;
  }

  lemma {:induction false} PlanStopsAtGate(planned: seq<ToolCall>, s: Surroundings, i: nat)
    requires i <= |planned| && RunPlan(planned, s, i).Ok?
    ensures StopsAtGate(planned, i, RunPlan(planned, s, i).value)
    decreases |planned| - i
  {
    hide VerdictAt, HasGatedRecord;
    if i == |planned| {
      NothingGated();
    } else {
      var r := VerdictAt(planned, s, i).value;
      var record := RecordOf(planned[i], r, s.ids(i));
      if r.requiresApproval {
        assert RunPlan(planned, s, i).value.records == [record];
        LastIsGated(record);
      } else {
        PlanStopsAtGate(planned, s, i + 1);
        OneMoreUngated(planned, i, record, OutputOf(r), RunPlan(planned, s, i + 1).value);
      }
    }
  }

  lemma OneMoreUngated(planned: seq<ToolCall>, i: nat, record: ToolRecord, outputs: seq<Payload>, rest: ToolPhaseResult)
    requires i < |planned| && StopsAtGate(planned, i + 1, rest)
    requires !record.requiresApproval && record.toolName == planned[i].name
    ensures StopsAtGate(planned, i, Joined(outputs, [record], Ok(rest)).value)
  {
    var x := Joined(outputs, [record], Ok(rest)).value;
    assert forall k :: 1 <= k < |x.records| ==> x.records[k] == rest.records[k - 1];
    GateBehind(record, rest.records);
    forall k | 0 <= k < |x.records|
      ensures x.records[k].toolName == planned[i + k].name
    {
      if k > 0 {
        assert rest.records[k - 1].toolName == planned[i + 1 + (k - 1)].name;
      }
    }
  }

  lemma GateBehind(record: ToolRecord, rest: seq<ToolRecord>)
    requires !record.requiresApproval
    ensures HasGatedRecord([record] + rest) <==> HasGatedRecord(rest)
  {
    if HasGatedRecord(rest) {
      var k :| 0 <= k < |rest| && rest[k].requiresApproval;
      assert ([record] + rest)[k + 1].requiresApproval;
    }
  }

  /**
   * Field by field, what running a plan from position `i` reports: one record per tool that was run, with
   * its verdict; the outputs there were, in order; and for a gated last record the flag, the reason and the
   * preview.
   */
  ghost predicate PlanReports(planned: seq<ToolCall>, s: Surroundings, i: nat, x: ToolPhaseResult) {
    && i + |x.records| <= |planned|
    && (forall k :: 0 <= k < |x.records| ==> RecordReports(planned, s, i + k, x.records[k]))
    && x.outputs == OutputsIn(x.records)
    && (x.requiresApproval ==>
          && x.records != []
          && var last := x.records[|x.records| - 1];
          x.reason == Some("Approval required for " + last.toolName) && x.preview == last.preview)
    && (!x.requiresApproval ==> x.reason == None && x.preview == None)
  }

  ghost predicate RecordReports(planned: seq<ToolCall>, s: Surroundings, p: nat, record: ToolRecord) {
    && p < |planned|
    && var v := Verdict(s.registry, planned[p].name, s.invalid(p), At(s.outcomes, p));
    && v.Ok? && record.toolName == planned[p].name && record.invocation == Some(s.ids(p))
    && record.output == v.value.output && record.error == v.value.error
    && record.requiresApproval == v.value.requiresApproval && record.preview == v.value.preview
    && (v.value.status == Succeeded ==> record.status == "succeeded")
    && (v.value.status == Failure ==> record.status == "failed")
    && (v.value.status == ApprovalRequired ==> record.status == "approval_required")
  }

  /** The outputs of the records that have one. */
  function OutputsIn(records: seq<ToolRecord>): seq<Payload> {
    if records == [] then []
    else (if records[0].output.Some? then [records[0].output.value] else []) + OutputsIn(records[1..])
  }

  lemma RecordFieldByField(planned: seq<ToolCall>, s: Surroundings, p: nat)
    requires p < |planned| && VerdictAt(planned, s, p).Ok?
    ensures var r := VerdictAt(planned, s, p).value;
            RecordReports(planned, s, p, RecordOf(planned[p], r, s.ids(p)))
  {
  }

  lemma OneMoreReported(planned: seq<ToolCall>, s: Surroundings, i: nat, record: ToolRecord, rest: ToolPhaseResult)
    requires PlanReports(planned, s, i + 1, rest) && RecordReports(planned, s, i, record)
    ensures var outputs := if record.output.Some? then [record.output.value] else [];
            PlanReports(planned, s, i, rest.(outputs := outputs + rest.outputs, records := [record] + rest.records))
  {
    hide RecordReports;
    var records := [record] + rest.records;
    assert records[1..] == rest.records;
    forall k | 0 <= k < |records|
      ensures RecordReports(planned, s, i + k, records[k])
    {
      if k > 0 {
        assert RecordReports(planned, s, i + 1 + (k - 1), rest.records[k - 1]);
      }
    }
  }

  lemma LastReported(planned: seq<ToolCall>, s: Surroundings, i: nat, record: ToolRecord)
    requires i < |planned| && RecordReports(planned, s, i, record)
    ensures var outputs := if record.output.Some? then [record.output.value] else [];
            PlanReports(planned, s, i, ToolPhaseResult(outputs, true, Some("Approval required for " + record.toolName),
                                                       record.preview, [record]))
  {
    assert [record][1..] == [];
  }

  lemma {:induction false} PlanFieldByField(planned: seq<ToolCall>, s: Surroundings, i: nat)
    requires i <= |planned| && RunPlan(planned, s, i).Ok?
    ensures PlanReports(planned, s, i, RunPlan(planned, s, i).value)
    decreases |planned| - i
  {
    hide VerdictAt, RecordReports, PlanReports;
    if i == |planned| {
      NothingReported(planned, s);
    } else {
      var r := VerdictAt(planned, s, i).value;
      var record := RecordOf(planned[i], r, s.ids(i));
      RecordFieldByField(planned, s, i);
      if r.requiresApproval {
        LastReported(planned, s, i, record);
        assert OutputOf(r) + [] == OutputOf(r) && [record] + [] == [record];
      } else {
        PlanFieldByField(planned, s, i + 1);
        OneMoreReported(planned, s, i, record, RunPlan(planned, s, i + 1).value);
      }
    }
  }

  lemma NothingReported(planned: seq<ToolCall>, s: Surroundings)
    ensures PlanReports(planned, s, |planned|, ToolPhaseResult([], false, None, None, []))
  {
  }

  /** The adapter as the engine sees it. */
  function PlanExecutor(s: Surroundings): Context -> Outcome<ToolPhaseResult> {
    (c: Context) => RunPlan(c.planned, s, 0)
  }

  /** So the platform's own executor is honest, and no run of it slips past a gated record. */
  lemma PlanExecutorIsHonest(s: Surroundings)
    ensures Honest(PlanExecutor(s))
  {
    forall c | AtToolStage(c)
      ensures HonestAt(PlanExecutor(s), c)
    {
      if RunPlan(c.planned, s, 0).Ok? {
        PlanStopsAtGate(c.planned, s, 0);
      }
    }
  }

  /** The handlers of the first `n` planned tools have been invoked as often as those tools ask, and no others. */
  ghost predicate CalledUpTo(calls: multiset<nat>, planned: seq<ToolCall>, s: Surroundings, n: nat) {
    n <= |planned| && forall p: nat :: calls[p] == if p < n then CallsAt(planned, s, p) else 0
  }

  lemma CalledNone(planned: seq<ToolCall>, s: Surroundings)
    ensures CalledUpTo(multiset{}, planned, s, 0)
  {
  }

  lemma CalledOneMore(calls: multiset<nat>, planned: seq<ToolCall>, s: Surroundings, n: nat)
    requires n < |planned| && CalledUpTo(calls, planned, s, n)
    ensures var next := calls[n := CallsAt(planned, s, n)];
            CalledUpTo(next, planned, s, n + 1) && next[n + 1] == 0
  {
  }

  /** Runs the planned tools in order; no handler past the first gated one is ever invoked. */
  method ExecuteTools(planned: seq<ToolCall>, s: Surroundings, handlers: Handlers)
    returns (x: Outcome<ToolPhaseResult>)
    requires handlers.calls == multiset{} && handlers.outcomes == s.outcomes
    modifies handlers
    ensures x == RunPlan(planned, s, 0)
    ensures x.Ok? ==> CalledUpTo(handlers.calls, planned, s, |x.value.records|)
  {
    hide Verdict, Calls, CalledUpTo;
    CalledNone(planned, s);
    var outputs: seq<Payload>, records: seq<ToolRecord> := [], [];
    var i := 0;
    JoinedNothing(RunPlan(planned, s, 0));
    while i < |planned|
      invariant 0 <= i <= |planned| && |records| == i
      invariant handlers.calls[i] == 0 && CalledUpTo(handlers.calls, planned, s, i)
      invariant RunPlan(planned, s, 0) == Joined(outputs, records, RunPlan(planned, s, i))
    {
      CalledOneMore(handlers.calls, planned, s, i);
      var result := ExecuteTool(s.registry, planned[i].name, s.invalid(i), handlers, i);
      if result.Raised? {
        return Raised(result.error);
      }
      var r := result.value;
      var record := RecordOf(planned[i], r, s.ids(i));
      var stopped := Ok(ToolPhaseResult([], true, Some("Approval required for " + planned[i].name), r.preview, []));
      JoinedTwice(outputs, records, OutputOf(r), [record],
                  if r.requiresApproval then stopped else RunPlan(planned, s, i + 1));
      outputs := outputs + OutputOf(r);
      records := records + [record];
      if r.requiresApproval {
        assert outputs + [] == outputs && records + [] == records;
        return Ok(ToolPhaseResult(outputs, true, Some("Approval required for " + planned[i].name), r.preview, records));
      }
      i := i + 1;
    }
    assert outputs + [] == outputs && records + [] == records;
    return Ok(ToolPhaseResult(outputs, false, None, None, records));
  }
}
