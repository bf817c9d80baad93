# Verification of the governed agent platform

A Dafny model of the platform's run lifecycle, tool layer, retrieval layer and eval reports, with proofs
about all runs, all inputs and all interleavings. `dafny verify dfyconfig.toml` checks it.

## What is modelled

**The governed run lifecycle.** A run's state lives in five places: the context object the engine
mutates, the stored run row, the shared append-only event table, the approval table, and the two maps of
the in-memory runtime controller.

- `Engine`, `Persistence`, `Runtime` and `Platform` are the code's own objects: classes whose methods update
  fields in place. Every method's contract equates the new heap with a function of the old one.
- `Lifecycle` is that function for one call of the engine: the context it leaves and its effects on stores
  and controller, in order (an *episode*). `Tables` says what an effect does to the shared tables.
- `System` is the platform as a state machine over any number of runs: start a run, decide an approval,
  ask to resume, and lose the controller's memory (*restart*). The collaborators (classification,
  retrieval, planning, tools, routing, response) are arbitrary functions that may return anything or raise
  at every call, with different ones in every API call.
- `Projection` shows that each run can be reasoned about alone: its *share* of the world changes by its own
  effects only. `Protocol` follows one share through the engine, `Invariant` puts the shares together for
  every reachable state, and `Traces`, `ApprovalSafety`, `Guarantees` and `ReadModel` draw the conclusions.
- `Story` tells a run straight through, without the engine's loop: who is asked what, what becomes of the answer,
  which effects follow. The loop is proved to do just that, and `Chronicle` finds such a story behind every run.

**Tool execution.** `ToolExecution` has the retry loop with its exception classes, the approval gate and
the loop over a plan, refined against pure specifications.

**Chunking and retrieval.** `Chunking` has the slicing loop and when it ends, what it keeps and how many windows
it makes. `Ingestion` turns documents into stored chunks. `Retrieval` has both stores, the filter and the
ranked query; `Sorting` is the stable sort they use. `DocumentSearch` is the best-chunk-per-document tool,
`Embeddings` the hash embedding and cosine similarity.

**Evals.** `Evals` has the report sums and the regression comparison.

## What the proofs found

- **The slicing loop need not end.** When a space lies close after the start of a window, the next window starts
  where this one did (packages/retrieval/src/retrieval/chunking.py:75-81). `HaltsUnlessStuck` gives the exact
  condition for a text, `HaltsExactly` for a bound on its words: no overlap, or longest word + overlap + 2 <=
  max_chars. `SafeExactly` adds when no word is cut in two. With the default settings (180 and 30) a word of more
  than 148 characters can make ingestion run for ever. `EndlessText` exhibits the texts.
- **The engine trusts the executor's approval flag.** It never looks at the records to see whether one asks for
  approval (packages/orchestrator/src/orchestrator/engine.py:159-167). `SafeExactlyWhenHonest` shows that
  approval safety holds if and only if the executor raises the flag for every gated record it returns; the
  platform's own executor does (`PlanExecutorIsHonest`).
- **A decision can be stored and never acted on.** That happens exactly when the controller no longer has the
  approval in its index (`DecisionActsExactly`), as after a restart: `ForgottenApproval` exhibits the run, which
  stays WAITING_FOR_APPROVAL for good. `ReplayGivesStatus` shows that granted ones of this kind are the only runs
  whose trace and status disagree.
- **Gated handlers do run.** The approval gate is checked after the handler has returned
  (packages/tools/src/tools/executor.py:60-63); the output becomes the preview (`HandlersRunBeforeTheGate`). What
  the gate prevents is that the result counts as a success and that later tools of the plan run.
- **The "exhausted retries" result is never returned.** With a retry count of zero or more every path returns from
  inside the loop; with a negative one the result would report zero attempts, which its own type refuses.
- **Ranking ties.** Source id and chunk number break ties only within one source type. `OrderMattersExactly` shows
  that the order of insertion is without effect for exactly the filters that fix the type.
- **A SQL batch with a repeated key is refused** when the session does not flush on its own, as the project's sessions
  do not (packages/db/src/db/session.py): its deletes do not see its own rows, and the table's unique constraint
  stops the insertion. The list store, and a session that does flush, keep the last writer. Apart from that the
  stores agree after any series of batches (`StoresStayTogether`).
- **Re-ingesting a shorter document leaves the old tail** (`OldTailStays`).

## Reading the model

- A timestamp is the number of a clock reading; the clock never goes back.
- `RunRow.history`, the engine's `toolPhases` and the service's `contexts` are records kept by the model alone, so that
  whole lifetimes can be stated; no modelled decision reads them. `World.contexts` keeps the context of every run
  ever started, but a call reaches only those of the controller's waiting set.
- New run and approval ids have not been drawn before.
- Collaborators are functions of their arguments: they do not change the context they are given.
- Windows, comparison and hashing: whitespace is an arbitrary set of characters with the space in it, rounding an
  arbitrary monotone (or odd) function, the digest and the content hash arbitrary functions, scores and embeddings
  exact reals, the square root any function that squares back.

## Model

| member | source | states |
|---|---|---|
| `Guarantees.TraceGrammar` | packages/orchestrator/src/orchestrator/engine.py:60-210 | After any sequence of API calls and restarts, every run's event list is a word of the trace grammar: closed exactly when the run is over, otherwise stopped at the approval (asked, granted or refused) |
| `Guarantees.AtMostOneEnd` | packages/orchestrator/src/orchestrator/engine.py:195-261 | A RUN_COMPLETED or RUN_FAILED event is the last of its run, so there is at most one, and the run's stored status is terminal |
| `Guarantees.TraceMatchesContext` | packages/orchestrator/src/orchestrator/engine.py:86-287 | Event by event the stored trace is the one the run's context implies: one TOOL_CALLED per planned tool, one TOOL_RESULT_RECEIVED per record, the approval part, and the ending with its text or error, cut only where a collaborator raised |
| `Chronicle.EveryRunIsAccountedFor` | packages/orchestrator/src/orchestrator/engine.py:55-287 | Every run in every reachable state goes back to one start call that went as told step by step (see Story.StartTold), and to at most one decision; its context, its whole trace and its approval are exactly what these calls made |
| `Chronicle.CompletedRunsAreAnswered` | packages/orchestrator/src/orchestrator/engine.py:175-206 | A completed run's response text is what the generator returned, asked with the context that has all other fields of the final one, in the start call or in the decision that granted its approval; its last event is RUN_COMPLETED with that text; and MODEL_SELECTED is in its trace exactly with the route described for that context |
| `Chronicle.RunsHoldWhatWasReturned` | packages/orchestrator/src/orchestrator/engine.py:103-167 | The classification, documents, plan, outputs and records of every run that has paused or completed are what the collaborators of its start call returned, each asked with what the ones before had answered; its approval shows the executor's reason and the first gated record |
| `Chronicle.FailedRunsAreQuoted` | packages/orchestrator/src/orchestrator/engine.py:209-210 | A failed run's reason is the text raised by the collaborator at whose step it stopped, asked with the context it stopped with |
| `Chronicle.RefusedRunsSayWhy` | packages/orchestrator/src/orchestrator/engine.py:78-79 | A canceled run was decided on: its reason, and the text the API reports, is "Approval rejected" for REJECTED and "Approval expired" for EXPIRED |
| `Story.StartTold` | packages/orchestrator/src/orchestrator/engine.py:86-210 | For any collaborators the looping engine does what the straight-line account says: each asked once, in order, with the context so far; which effects follow in which order; and how a raise at each point ends the run |
| `Story.ResumeTold` | packages/orchestrator/src/orchestrator/engine.py:60-84 | The same for resuming: the optional trace record first, then the answer of a granted run, or the cancellation of a rejected or expired one with its text |
| `Story.BeginsFrom` | packages/orchestrator/src/orchestrator/engine.py:86-233 | From that account alone: where each field of a started run comes from, when it failed, paused or completed |
| `Guarantees.ReplayGivesStatus` | packages/orchestrator/src/orchestrator/engine.py:263-287 | The stored status is the context's state, and replaying the run's events yields that status if and only if the run is not one that waits although its approval was granted (which takes a restart) |
| `Guarantees.ReplayWithoutRestart` | packages/db/src/db/repositories/run_repository.py:43-81 | Without a restart the replay of every run's events is its stored status |
| `Guarantees.NoCompletionWithoutApproval` | packages/orchestrator/src/orchestrator/engine.py:129-206 | With honest executors, a COMPLETED run that has a gated record has an APPROVED approval of its own whose APPROVAL_RESOLVED event comes before RUN_COMPLETED |
| `Guarantees.OncePerRun` | packages/orchestrator/src/orchestrator/engine.py:129-173 | A run executes its tools at most once, ever, and has at most one approval request; if it has one, its tools ran exactly once |
| `Guarantees.IndexesAreIncluded` | packages/runtime/src/runtime/engine.py:10-41 | Restarts or not: what the controller holds are waiting runs, each under its one undecided approval, with the context that carries that approval id; the approval index is injective and covers the waiting runs |
| `Guarantees.IndexesAgree` | packages/runtime/src/runtime/engine.py:13-41 | Until the first restart the waiting contexts are exactly the runs stored as WAITING_FOR_APPROVAL and the approval index is a bijection from exactly the undecided approvals onto them |
| `Guarantees.HistoriesAreLegal` | packages/orchestrator/src/orchestrator/state_machine.py:9-24 | The statuses written for a run follow the transition table and are, written out: in progress, then completed or failed; or in progress, waiting, and nothing more, canceled, or in progress again and completed or failed |
| `Domain.MovesAre` | packages/orchestrator/src/orchestrator/state_machine.py:9-24 | The transition table allows exactly the nine moves listed |
| `Guarantees.BookkeepingFollowsStatus` | packages/db/src/db/repositories/run_repository.py:43-63 | started_at is set; completed_at is set if and only if the status is terminal and is not before it; last_error is set if and only if the run FAILED and is the text of its RUN_FAILED event; request and decision times lie in between, in order |
| `Guarantees.StampsAreCurrent` | packages/db/src/db/repositories/run_repository.py:58-61 | Whatever a call writes into a start, end, request or decision time it reads from the clock during that call |
| `Guarantees.StartedForGood` | packages/db/src/db/repositories/run_repository.py:58-59 | A run's start time, once written, is the same after any further calls |
| `Guarantees.SettledForGood` | packages/orchestrator/src/orchestrator/engine.py:60-84 | Once a run has no decision to wait for, no further call or restart changes its row, trace, approvals, context, index entries or tool executions; that includes runs left waiting because a restart came before their decision |
| `Guarantees.FinishedForGood` | packages/orchestrator/src/orchestrator/engine.py:235-261 | Once a run is over no further call or restart changes its row, trace, approvals, context, index entries or tool executions |
| `Guarantees.DecidedForGood` | packages/db/src/db/repositories/approval_repository.py:63-80 | A decided approval keeps its status and time whatever calls follow |
| `Guarantees.DecisionActsExactly` | apps/api/app/main.py:144-166 | In every reachable state a decision on an undecided approval is stored and stamped, and it ends its run if and only if the controller has the approval in its index; the outcome is then COMPLETED or FAILED when granted, as the response collaborators answer or raise, and CANCELED otherwise; without the index entry the run waits on |
| `Guarantees.ForgottenApproval` | apps/api/app/demo.py:260-266 | The failing case: for any task a run that pauses, a restart, then a granted approval; the approval is stored as APPROVED and the run is WAITING_FOR_APPROVAL after any further calls |
| `Guarantees.LateCallsAreInert` | apps/api/app/main.py:138-166 | A resume request outside a decision, and a decision on an unknown or already decided approval, change nothing in any table, index or context |
| `System.RefusalsAre` | packages/orchestrator/src/orchestrator/engine.py:62-70 | The engine resumes exactly a context that waits on a stored decision, and says which of the other cases it met |
| `Guarantees.UnconcernedRunsStay` | apps/api/app/demo.py:212-270 | Nothing but a decision it waits for, or a restart that forgets it, can touch a started run: every other call on any run leaves its whole share as it was |
| `Invariant.ReachedSound` | packages/orchestrator/src/orchestrator/engine.py:55-287 | The invariant behind the guarantees (every run at rest, every index entry justified, sequences gap-free) holds in every reachable state; its stronger form holds until the first restart |
| `Invariant.StepSound` | apps/api/app/main.py:130-166 | Each API call, and a restart, keeps that invariant |
| `Invariant.StartSound` | apps/api/app/demo.py:212-228 | Starting a run keeps it, whatever the collaborators return and wherever they raise |
| `Invariant.DecideSound` | apps/api/app/main.py:144-166 | Deciding an approval keeps it, both when the controller still holds the context and when a restart has lost it |
| `Protocol.PassKeeps` | packages/orchestrator/src/orchestrator/engine.py:99-206 | Whatever a collaborator returns, one pass of the main loop takes a run underway to a run underway or to one at rest, with trace, approval, clock, history and index entries all fitting its context |
| `Protocol.LoopRests` | packages/orchestrator/src/orchestrator/engine.py:99-210 | The whole loop leaves the run at rest |
| `Protocol.ResumeRests` | packages/orchestrator/src/orchestrator/engine.py:60-84 | Resuming a decided run at rest leaves it at rest: finished if approved, canceled otherwise |
| `Protocol.RestartRests` | packages/runtime/src/runtime/engine.py:13-15 | Losing the controller's memory leaves every run at rest, only no longer parked |
| `Traces.OnlyTheLastEventEnds` | packages/orchestrator/src/orchestrator/engine.py:195-261 | In any word of the trace grammar a terminal event is last |
| `Traces.RestingReplay` | packages/orchestrator/src/orchestrator/engine.py:263-287 | For one run: replaying its events gives its stored status if and only if it is not waiting with a granted approval |
| `Traces.DecisionComesFirst` | packages/orchestrator/src/orchestrator/engine.py:72-84 | A completed run that has an approval logged APPROVED for it before its end |
| `ApprovalSafety.SafeExactlyWhenHonest` | packages/orchestrator/src/orchestrator/engine.py:143-168 | No run with a gated record completes without pausing if and only if the tool executor raises its approval flag whenever it returns a gated record; the engine trusts the flag and does not look at the records |
| `ApprovalSafety.DishonestySlips` | packages/orchestrator/src/orchestrator/engine.py:143-168 | From any executor that fails to raise the flag at a reachable point, a concrete run that completes past a gated record without approval |
| `ApprovalSafety.StepsDescend` | packages/orchestrator/src/orchestrator/engine.py:99-208 | The steps visited by the loop strictly advance, so it ends, and the standalone approval step is never visited |
| `ApprovalSafety.StartGoverns` | packages/orchestrator/src/orchestrator/engine.py:55-58 | With an honest executor a started run with a gated record is never completed without an approval id |
| `ApprovalSafety.ReachedGoverned` | packages/orchestrator/src/orchestrator/engine.py:78-84 | The same for every run in every reachable state |
| `Lifecycle.PassFollowsTheOrder` | packages/orchestrator/src/orchestrator/state_machine.py:27-45 | A pass that goes on moves to the next of the ordered steps, except that the tools lead straight to the response, and never to the standalone approval step |
| `Projection.ProjectAll` | packages/db/src/db/repositories/run_repository.py:65-95 | What any sequence of effects of a run does to the shared tables, seen from that run, is what it does to the run's own share |
| `Projection.FrameAll` | packages/db/src/db/repositories/run_repository.py:65-95 | Another run's effects leave a run's share as it was but for the clock |
| `Engine.OrchestratorEngine.TransitionState` | packages/orchestrator/src/orchestrator/engine.py:263-279 | The context and the stored run move together if the table allows the move; otherwise nothing changes |
| `Engine.OrchestratorEngine.FailRun` | packages/orchestrator/src/orchestrator/engine.py:250-261 | In place: a run underway or waiting becomes FAILED with its error stored, logged and purged from the controller; one that is over only takes the reason; on one that has not begun the transition is refused and nothing changes |
| `Engine.OrchestratorEngine.CancelRun` | packages/orchestrator/src/orchestrator/engine.py:235-248 | In place: a run not yet over becomes CANCELED with the reason as its final text and is purged; one that is over only takes the reason |
| `Engine.OrchestratorEngine.RequestApproval` | packages/orchestrator/src/orchestrator/engine.py:212-233 | In place: the first gated record's invocation and preview go to the request, then status, waiting context and index are written in that order |
| `Engine.OrchestratorEngine.RunTools` | packages/orchestrator/src/orchestrator/engine.py:129-167 | In place: the tool stage has exactly the specified effects, also when the executor raises, stops at a gate or reports no records |
| `Engine.OrchestratorEngine.Respond` | packages/orchestrator/src/orchestrator/engine.py:175-193 | In place: route and response stage refine their specification, which Story.StartTold and Chronicle.CompletedRunsAreAnswered tie to what the collaborators returned |
| `Engine.OrchestratorEngine.Pass` | packages/orchestrator/src/orchestrator/engine.py:99-206 | In place: one pass of the loop body refines its specification |
| `Engine.OrchestratorEngine.Execute` | packages/orchestrator/src/orchestrator/engine.py:86-210 | In place: the loop turns the context object into the one specified (and told by Story.StartTold), has exactly the specified effects on tables and controller, and touches no other run's waiting context |
| `Engine.OrchestratorEngine.ResumeAfterApproval` | packages/orchestrator/src/orchestrator/engine.py:60-84 | In place: refuses with the stated reason and no effect, or resumes exactly as specified for the stored decision, recording it in the trace only when asked to |
| `Platform.PlatformService.StartRun` | apps/api/app/demo.py:212-228 | The heap after the call, read as a world, is the start step applied to the world before it |
| `Platform.PlatformService.ResumeAfterApproval` | apps/api/app/demo.py:260-270 | The heap moves by the resume step; the answer says not resumed exactly when the controller holds no context, and resumed exactly when nothing refused |
| `Platform.PlatformService.ResolveApproval` | apps/api/app/main.py:130-166 | The heap moves by the decision step; not found and conflict are answered exactly for unknown and for decided approvals |
| `Runtime.RuntimeController.StoreWaitingContext` | packages/runtime/src/runtime/engine.py:17-21 | The very context object is kept under its run and its approval, and nothing is kept without an approval id |
| `Runtime.RuntimeController.OnRunCompleted` | packages/runtime/src/runtime/engine.py:29-35 | Both maps lose every entry of the run and keep all others |
| `Persistence.Database.UpdateRunStatus` | packages/db/src/db/repositories/run_repository.py:43-63 | The row takes status and error, its start once and its end when terminal; an unknown run changes nothing |
| `Persistence.Database.AppendRunEvent` | packages/db/src/db/repositories/run_repository.py:65-95 | The appended row carries the run's largest sequence number plus one |
| `Persistence.Database.ResolveApprovalRequest` | packages/db/src/db/repositories/approval_repository.py:63-80 | Unknown and decided requests are told apart and change nothing; a pending one is decided and stamped |
| `Tables.MaxSequence` | packages/db/src/db/repositories/run_repository.py:91-95 | It bounds the run's sequence numbers and is one of them unless the run has none |
| `ReadModel.EventsListInOrder` | packages/db/src/db/repositories/run_repository.py:65-95 | In every reachable state listing a run's events by sequence gives exactly the numbers 1 to n with its events in the order they were appended, though all runs share one table |
| `ReadModel.ResponseIsFaithful` | apps/api/app/demo.py:230-258 | The reported status is the context's; the text is the response of a completed run, the failure reason of a failed or canceled one, the approval notice for a run waiting for a decision, and absent for one left waiting with nothing to decide; the error is shown exactly for failed runs; the reported approval is exactly the one the waiting run needs decided |
| `ReadModel.TextOfShare` | apps/api/app/demo.py:325-337 | Scanning the trace backwards finds the text its context ended with |
| `ReadModel.WaitingShowsApproval` | apps/api/app/demo.py:230-258 | Until the first restart an approval is reported exactly while the run waits |
| `ToolExecution.TriesUnique` | packages/tools/src/tools/executor.py:57-111 | The number of tries is the only number that ends at the first outcome not retried, or when the retries are used up |
| `ToolExecution.VerdictFieldByField` | packages/tools/src/tools/executor.py:57-143 | For a registered tool with valid arguments, by the outcome the retry loop stops at: a returned value succeeds with its output if and only if the definition neither requires approval nor has high risk, else it asks for approval and shows the handler's preview, or its output when there is none; every exception fails with its text, an unexpected one saying so; attempts and retried count the tries |
| `ToolExecution.EveryCallStops` | packages/tools/src/tools/executor.py:57-111 | With a retry count of zero or more there is an outcome to stop at: the first that is neither a retryable error nor a timeout, or the last one allowed |
| `ToolExecution.VerdictOtherwise` | packages/tools/src/tools/executor.py:32-55 | An unknown tool and a negative retry count raise, and nothing else does; invalid arguments fail with the validation message after one attempt |
| `ToolExecution.ExecuteTool` | packages/tools/src/tools/executor.py:29-159 | The retry loop returns the specified verdict for any outcomes and any retry count, and calls the handler exactly as often as the verdict reports; the trailing return is reached only with a negative retry count, where no valid result can be built |
| `ToolExecution.GateIsKept` | packages/tools/src/tools/executor.py:63-92 | Approval is required exactly when the status says so, and then there is no output; retried holds if and only if attempts exceed one; attempts never exceed the retries plus one |
| `ToolExecution.HandlersRunBeforeTheGate` | packages/tools/src/tools/executor.py:57-78 | A tool's handler is invoked if and only if the tool is registered, its arguments are valid and its retry count is not negative, gate or no gate; whatever asks for approval comes from a handler that has returned |
| `ToolExecution.PlanStopsAtGate` | apps/api/app/demo.py:147-180 | A plan stops at its first gated record, which is last; the flag is raised exactly for it, and an ungated plan has one record per planned tool, in order |
| `ToolExecution.PlanFieldByField` | apps/api/app/demo.py:147-180 | Each record is its tool's verdict, field by field, with its own invocation id; the outputs are the records' outputs in order; a gated last record gives the phase its flag, reason and preview |
| `ToolExecution.PlanExecutorIsHonest` | apps/api/app/demo.py:147-180 | The platform's own executor is honest, for any registry, handlers and validation |
| `ToolExecution.ExecuteTools` | apps/api/app/demo.py:147-180 | The loop over the plan returns the specified result; the handlers of the recorded tools have been called as often as each tool asks, and no handler past the first gated tool at all |
| `Chunking.NormalizeKeepsWords` | packages/retrieval/src/retrieval/chunking.py:64-65 | Normalized text has single inner spaces and none at the edges, has the same words as the original, and normalizing again changes nothing |
| `Chunking.SplitLosesNothing` | packages/retrieval/src/retrieval/chunking.py:65 | The words of a text put together are the text without its whitespace, for any notion of whitespace |
| `Chunking.StretchIsWord` | packages/retrieval/src/retrieval/chunking.py:65 | Every longest run of characters that are not whitespace is a word, between the words of what is before it and those of what is after it |
| `Chunking.WordIsStretch` | packages/retrieval/src/retrieval/chunking.py:65 | Every word is such a run, and its place among the words is its place in the text |
| `Chunking.SplitOfJoin` | packages/retrieval/src/retrieval/chunking.py:64-65 | Splitting undoes joining with spaces, for any words |
| `Chunking.SliceText` | packages/retrieval/src/retrieval/chunking.py:64-82 | The loop, if it comes to an end, gives the stripped windows of the normalized text, each window ending and the next starting where the rule says, the last at the end of the text; a short text stays whole |
| `Chunking.WindowingMeans` | packages/retrieval/src/retrieval/chunking.py:69-82 | The windows written out: from the start of the text to its end; each ends at the last space behind its start, or is full where there is none; the next begins overlap_chars before that end, or at the start of the text |
| `Chunking.SegmentsAreTrimmed` | packages/retrieval/src/retrieval/chunking.py:78 | A segment is its window's text without the whitespace at both ends, and has none left there |
| `Chunking.SlicingIsDetermined` | packages/retrieval/src/retrieval/chunking.py:69-82 | A text has only one such slicing |
| `Chunking.HaltsUnlessStuck` | packages/retrieval/src/retrieval/chunking.py:69-82 | Text by text: the loop ends if and only if no window that stops short of the end leads back to its own start |
| `Chunking.HaltsExactly` | packages/retrieval/src/retrieval/chunking.py:69-82 | The loop ends on every text whose longest word has a given length if and only if there is no overlap or word, overlap and two spaces fit into a window |
| `Chunking.EndlessText` | packages/retrieval/src/retrieval/chunking.py:75-81 | Whenever they do not fit, a text with such words on which the loop never ends |
| `Chunking.FixedPointNeverHalts` | packages/retrieval/src/retrieval/chunking.py:75-81 | A window that leads back to its own start is never passed by a run that begins before it |
| `Chunking.RoomyTextHalts` | packages/retrieval/src/retrieval/chunking.py:64-82 | Measured on the original text's longest runs without whitespace: enough room means the loop ends |
| `Chunking.EndsIncrease` | packages/retrieval/src/retrieval/chunking.py:69-82 | Room or no room: in every run that comes to an end, each window ends after the one before |
| `Chunking.WindowsAdvance` | packages/retrieval/src/retrieval/chunking.py:69-82 | With room, every window but the last ends at a space, ends strictly increase, each window advances by at least the gain, and neighbours overlap by no more than configured and leave no gap |
| `Chunking.WindowCount` | packages/retrieval/src/retrieval/chunking.py:69-82 | With room, n windows satisfy (n - 2) times the gain less than the length minus max_chars |
| `Chunking.WordInSegment` | packages/retrieval/src/retrieval/chunking.py:73-79 | When the words fit (longest word + overlap + 2 <= max_chars, or without overlap longest word + 1 <= max_chars), every stretch of the text without a space is contained in some segment |
| `Chunking.NoWordIsLost` | packages/retrieval/src/retrieval/chunking.py:64-82 | When the words fit, every longest run of non-whitespace characters of the original text can be read in some segment |
| `Chunking.SafeExactly` | packages/retrieval/src/retrieval/chunking.py:64-82 | The loop ends and loses no word, on every text with words of a given length, if and only if the words fit |
| `Chunking.SegmentSizes` | packages/retrieval/src/retrieval/chunking.py:73-79 | Room or no room, no segment of a text with words is empty or longer than max_chars |
| `Chunking.TextIsRecovered` | packages/retrieval/src/retrieval/chunking.py:69-82 | Room or no room: in every run that comes to an end, the windows without their overlaps, put together, are the normalized text |
| `Ingestion.ChunkDocument` | packages/retrieval/src/retrieval/chunking.py:29-61 | The chunks are the numbered segments of the document; it raises exactly when title and content have nothing but whitespace |
| `Ingestion.ChunksFieldByField` | packages/retrieval/src/retrieval/chunking.py:34-61 | Each chunk carries the document's tenant, type (support_doc if it names none), id, number, text, hash and labels with the title |
| `Ingestion.IngestDocuments` | packages/retrieval/src/retrieval/service.py:32-44 | All the documents' chunks, embedded, are upserted in order; it raises if and only if some document's title and content have nothing but whitespace, and then nothing is stored |
| `Ingestion.DocumentsInOrder` | packages/retrieval/src/retrieval/service.py:35-37 | The documents' chunks follow one another in the order of the documents |
| `Ingestion.IngestedKeysAreUnique` | packages/retrieval/src/retrieval/chunking.py:42-61 | The chunk keys of a batch are distinct if and only if its documents are |
| `Ingestion.EveryWordIsStored` | packages/retrieval/src/retrieval/service.py:32-44 | When the words fit, after ingesting distinct documents every longest run of non-whitespace characters of the title and of the content of each of them can be read in a stored chunk of that document, with that chunk's embedding, whatever the store held before |
| `Ingestion.OldTailStays` | packages/retrieval/src/retrieval/store.py:105-118 | A stored chunk survives a new version of its document if and only if the new version has fewer chunks than its number, or rewrites it as it was |
| `Retrieval.UpsertAllWrites` | packages/retrieval/src/retrieval/store.py:105-118 | From a store with unique keys a batch of upserts keeps keys unique and is, read as a map, a sequence of writes in which the last one wins |
| `Retrieval.UpsertRecordByRecord` | packages/retrieval/src/retrieval/store.py:105-118 | A record is in the list after a batch if and only if it is the last of the batch with its four key fields, or was there and none of the batch shares them |
| `Retrieval.InMemoryRetrievalStore.UpsertChunks` | packages/retrieval/src/retrieval/store.py:105-118 | The list is rebuilt in place accordingly |
| `Retrieval.SqlRetrievalStore.UpsertChunks` | packages/retrieval/src/retrieval/store.py:33-58 | In a table with one row per key: the call raises, and leaves the table as it was, if and only if the batch repeats a key and the session does not flush on its own; otherwise the rows, read as a map, are those before with the batch written over them, the last writer winning; keys stay unique |
| `Retrieval.SqlOutcome` | packages/db/src/db/models/document_chunk.py:27-34 | The same of the specification, with the rows in their order: when a batch is refused, and what an accepted one writes |
| `Retrieval.ReingestingIsHarmless` | packages/retrieval/src/retrieval/store.py:105-118 | Upserting the same batch again leaves the list as it is, record by record and in order, hence every answer; for any store and filter |
| `Retrieval.QueryFieldByField` | packages/retrieval/src/retrieval/store.py:120-139 | The answer written out: the stored records whose named fields are the filter's, each as often as stored, by falling similarity, then source id in dictionary order, then number; cut off after top_k; each hit has all fields of its record, and its similarity, or 0 if that is negative, as score |
| `Retrieval.HitsAreStored` | packages/retrieval/src/retrieval/filters.py:8-19 | Every hit shows a stored record that meets every field the filter names |
| `Retrieval.TopIsDetermined` | packages/retrieval/src/retrieval/store.py:120-139 | A query's answer is the only sequence that is sorted by rank, strictly, and has the records a ranking selects |
| `Retrieval.OrderDoesNotMatter` | packages/retrieval/src/retrieval/store.py:120-139 | With unique keys and a fixed source type, the answer is the same for any order of the stored list |
| `Retrieval.OrderMattersExactly` | packages/retrieval/src/retrieval/store.py:120-139 | For every similarity, query and filter: the answer is the same for every order of every store with unique keys if and only if the filter fixes the source type or asks for no results |
| `Retrieval.OrderCanMatter` | packages/retrieval/src/retrieval/store.py:120-139 | For every other filter, two orders of one store with different answers |
| `Retrieval.TopIsTop` | packages/retrieval/src/retrieval/store.py:120-139 | Scores never rise down the answer, every matching record left out ranks no better than any returned, and asking for fewer gives a prefix of asking for more |
| `Retrieval.OwnTenantOnly` | packages/retrieval/src/retrieval/filters.py:8-19 | A query answers as if the store held its own tenant's records only |
| `Retrieval.OtherTenantsDoNotInterfere` | packages/retrieval/src/retrieval/filters.py:8-19 | No upserts of other tenants into the list store change a tenant's answers, for any store and filter |
| `Retrieval.OtherTenantsDoNotInterfereInSql` | packages/retrieval/src/retrieval/filters.py:8-19 | Nor do their upserts into the SQL store, accepted or refused |
| `Retrieval.StoresAgree` | packages/retrieval/src/retrieval/store.py:148-184 | Whatever batch the table accepts, both stores then hold the same map, and give the same answers to queries that fix the source type |
| `Retrieval.StoresStayTogether` | packages/retrieval/src/retrieval/store.py:33-58 | After any series of batches the table has one row per key and holds what the list store holds after those of them that the table accepts |
| `DocumentSearch.Search` | packages/tools/src/tools/implementations/search_docs.py:37-60 | From chunks in descending score the overwriting loop gives each document with a passing chunk exactly one entry, with the rounded score and content of its first passing chunk; higher scores come first, equal ones in dictionary order of the id |
| `DocumentSearch.AnswerIsUnique` | packages/tools/src/tools/implementations/search_docs.py:45-60 | There is only one such answer |
| `DocumentSearch.ShownScoreIsBest` | packages/tools/src/tools/implementations/search_docs.py:49-59 | The score shown for a document is at least that of every passing chunk of it |
| `DocumentSearch.QueriesDescend` | packages/retrieval/src/retrieval/store.py:162-184 | Query answers come in descending score, so the search's demand is met |
| `Embeddings.CauchySchwarz` | packages/retrieval/src/retrieval/embeddings.py:29-39 | The squared dot product never exceeds the product of the squared norms, whatever the lengths of the two vectors |
| `Embeddings.DotAddsUp` | packages/retrieval/src/retrieval/embeddings.py:34 | The numerator is the sum of the pairwise products, one more pair at a time |
| `Embeddings.DotOverlap` | packages/retrieval/src/retrieval/embeddings.py:34-36 | What one vector has beyond the other's length does not count, the order of the two neither, and a vector with itself gives its squared norm |
| `Embeddings.CosineMeans` | packages/retrieval/src/retrieval/embeddings.py:29-39 | Similarity times both lengths is the dot product, and it is 0 when either vector is empty or zero |
| `Embeddings.CosineIsBounded` | packages/retrieval/src/retrieval/embeddings.py:29-39 | Cosine similarity lies between -1 and 1 |
| `Embeddings.SimilarToItself` | packages/retrieval/src/retrieval/embeddings.py:29-39 | A vector that is not zero has similarity 1 with itself and -1 with its negation |
| `Embeddings.LengthDoesNotMatter` | packages/retrieval/src/retrieval/embeddings.py:29-39 | Scaling a vector by a positive factor leaves every similarity as it is |
| `Embeddings.ScoresAreFractions` | packages/retrieval/src/retrieval/store.py:171-184 | Every score a query reports lies between 0 and 1 |
| `Embeddings.EmbedText` | packages/retrieval/src/retrieval/embeddings.py:42-55 | From the text: lower-cased and split, its tokens are accumulated in place into the specified embedding; a text without tokens embeds to zero |
| `Embeddings.EmbeddingCounts` | packages/retrieval/src/retrieval/embeddings.py:47-55 | Each component times the common length is the number of tokens whose first digest byte selects it and whose second is even, less those whose second is odd; all are 0 where the length is |
| `Embeddings.TokenOrderDoesNotMatter` | packages/retrieval/src/retrieval/embeddings.py:42-55 | The same tokens in any order embed to the same vector |
| `Embeddings.EmbeddingIsUnitOrZero` | packages/retrieval/src/retrieval/embeddings.py:42-55 | An embedding has squared length one, or zero exactly when that of the signed counts is zero |
| `Evals.AverageOfAverages` | packages/evals/src/evals/reports.py:44-63 | Eight times a report's average is the sum of its eight dimension averages, each named; an empty report averages zero |
| `Evals.AveragesAreSums` | packages/evals/src/evals/reports.py:107-123 | Each dimension average times the number of results is the sum of that dimension over the results; an empty report has none |
| `Evals.ResultsAreCounted` | packages/evals/src/evals/reports.py:47-63 | Total, passed and failed are the numbers of results, of those that passed and of those that did not |
| `Evals.LastScoreCounts` | packages/evals/src/evals/scoring.py:24-36 | Eight times the score a case is compared with is the sum of the eight dimensions of its last result |
| `Evals.GainIsImprovement` | packages/evals/src/evals/reports.py:75-80 | A case that gains in one dimension and loses in none counts as improved, and the other way round as regressed |
| `Evals.CompareReports` | packages/evals/src/evals/reports.py:66-88 | The three counts are the numbers of results whose score is above, below and equal to that of their case in the baseline |
| `Evals.CompareBothWays` | packages/evals/src/evals/reports.py:66-88 | For unique case keys, swapping the reports swaps improved and regressed, negates the deltas, and the counts add up to the number of shared cases |

## Left out

- Chunking.SliceText: asks that the loop comes to an end, because it need not (see `Chunking.HaltsUnlessStuck` for when it does).
- Chunking.SafeExactly: is stated for windows of at least 2 characters; the configuration admits no fewer than 50.
- Retrieval.SqlRetrievalStore.UpsertChunks: takes each call as its own transaction; earlier work of the same transaction that a failing flush also rolls back, and column lengths, are not modelled.
- Embeddings.EmbedText: asks for a dimension of at least one; with none the original divides by zero on any token.
- DocumentSearch.Search: the metadata filter is an arbitrary test on chunks, and an entry stands for the title, category, tags and snippet taken from its chunk.
- Embeddings.ScoresAreFractions: floating-point error is not modelled, so a reported score slightly above 1 is not excluded for the original.
- ToolExecution.ExecuteTool: a timeout is an outcome like a retryable error; threads and the time a call takes are not modelled.
- Store, recorder and hook exceptions, and a crash between the commit of a decision and the resume: the code does not keep context and database in step there.
- The decision comment, approval expiry dates, API decision strings and their parsing: they do not influence a run.
- Request and response validation, payload serialization and event titles.
- The planner's pattern matching, the demo gateway's wording and the seed data lookup: the collaborators are arbitrary instead.
- The PostgreSQL query path, pgvector, SQLAlchemy sessions and migrations; tables are sequences and maps.
- The model gateway's routing and fallback and the provider adapters.
- Eval scoring heuristics, the eval runner, and the eval and tool invocation repositories.
- HTTP routing, the web console, scripts and configuration loading.
