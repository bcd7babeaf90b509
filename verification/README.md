# Verification of the workflow engine and its durable runtime

This project models two state machines and proves what they keep over every run.

**The durable runtime** (`packages/openworkflow`). The tables `workflow_runs`, `step_attempts` and `workflow_signals` are one value,
`Store.Tables`; every statement or transaction of the SQLite backend is one operation, `Store.Op`. A worker's pass over a run is a small
program, `Replay.Pass`, that stands before one backend call at a time. `Replay.Sys` interleaves any number of passes with other callers,
heartbeats, crashes and a clock that only moves forward.

**The workflow graph** (`packages/engine`). Edit operations change a draft of a graph, a colouring search and a reachability fixpoint
check it, and a walk runs it in topological order, skipping the branches not taken; an in-memory executor does the same and can stop
at a wait and be resumed.

Smaller modules cover pagination, the token bucket, cron dispatchers and conditional writes of stored workflows.

## Main results

- Replay: of each step of a run at most one attempt other than a sleep is ever completed, and completed attempts never change
  (`ReplaySafety`). What the owner of a run sees extends what any pass saw before, for every function that a step error ends and for
  every function that keeps the names of its sleeps apart (`ReplayDeterminism.OwnersExtend`); without either an output can be lost
  (`Counterexamples.OutputIsLost`), in exactly the turns that `ReplaySafety.OutputChangesExactly` names. For functions that a step error
  ends, all passes over a run make the same calls and get the same answers as far as both get (`ReplayDeterminism.PassesAgree`).
- Results: a completed step holds what its kind promises (`StepResults.ResultsAreRight`, `SendResults.SendsListReached`,
  `FunctionResults.FunctionsStoreResults`), a failed one has a right error (`StepErrors.ErrorsAreRight`), and a completed run holds what its
  function returns on stored step outputs (`RunResults.CompletedRunsAreExplained`).
- Time: a claim or a heartbeat gives a run for exactly its lease (`Leases.ExtensionLasts`), a parked run sleeps until the first of its waits
  ends (`Parking.ParksUntilFirstWait`, `Leases.ParkLasts`), and a failed step is tried again after the delay that its own policy sets for the
  number of its failures (`Endings.FailedStepIsRetried`).
- Engine and runtime together: a completed run of the runtime's workflow holds the outputs of one walk of its blocks in which every step
  returns its stored output, over every interleaving of workers, crashes and retries (`WalkReplay.CompletedRunsAreWalks`), and no block of
  an accepted workflow calls its step before the blocks it refers to have their outputs (`WalkReplay.PassesNeverDangle`).
- Wake-up: a parked run whose signal has arrived or whose child has ended is due, or a live call is about to wake it, or that call died
  (`ReplaySafety.ReachableTables`). The death does harm exactly when the run is not due anyway (`ReplaySafety.CrashIsHarmless`), and a run
  of the system shows that it can (`Counterexamples.WakeIsLost`).
- Runs: ended runs never change; a live run always has a time at which it can be claimed; an unexpired lease ends exactly by its
  owner, a cancel or the deadline (`Lifecycle`). A step fails at most as often as its policy says, and once more for each pass lost between
  a last failure and the run's transition (`RetryBound`).
- Graph: what the validator accepted cannot dangle in a walk (`WalkProofs.ReferencesNeverDangle`); the cycle test, the sort, the
  upstream fixpoint and the branch skipping are each exactly the graph notion they compute. The outputs of a walk are explained block by
  block (`WalkMeaning.OutputsExplained`), and so is an execution in memory (`MemoryMeaning.ExecutionExplained`), an edit field by field
  (`Edit.ChangeMeans`) and each error of the validator (`References.ErrorsAreDeserved`).
- Resuming in memory, through any number of pauses and with other tools each time, ends like one uninterrupted run exactly when no block
  that a pause forgot is revived, or the first one stops the run as the uninterrupted run is stopped (`MemoryExecutor.ResumeIsExact`);
  `MemoryExecutor.RevivedExactly` says when a block is. So it ends with the outputs of a walk that succeeds exactly when none is
  (`WalkResume.ResumedIsWalkExactly`), as when no branch was cut before a wait (`WalkResume.ResumedIsWalk`);
  `ResumeDiffers.ForkedResumeDiffers` is a workflow for which one is.
- Cron: over any interleaving of dispatchers, some of which fail or die, the cutoffs a schedule is claimed for strictly increase, and each
  claim and each listed schedule is accounted for once (`Schedules.DispatchersStayApart`).

## What is taken as given

- Generated ids are new, one clock serves all processes, and the query planner may break ties of equal times in any way.
- Only workflow steps use idempotency keys that start with `__workflow:`; the child run of a step is created without a deadline, as
  `packages/openworkflow/worker/execution.ts:673-684` does.
- A workflow function calls one step at a time and does not catch the signal with which a step parks the run. Each pass has a function of
  its own, so it may read its own clock; the replay results ask that kind and base name of its next call depend on the answers only.
- Two facts of the code decide side conditions. An empty `source_handle` passes the duplicate test and is stored as absent
  (`packages/engine/src/operations/apply.ts:220`, `:232`). The walker's name table also holds slugs that the validator does not know
  (`packages/engine/src/runner/walk.ts:52-57`), so references by name may mean another block there.
- The comment at `packages/engine/src/runner/cron.ts:46-48` describes a claim by inserted rows; the model follows the persistent store,
  which moves `last_fired_at` forward (`packages/api/src/store/schedules.ts:161-194`). No schedule gets the id of an earlier one that was
  claimed, although a caller may choose it (`packages/api/src/store/schedules.ts:115-116`); `Schedules.ReusedIdFiresAgain` is the failing case.

## Model

| member | source | states |
|---|---|---|
| Dag.Colouring.Visit | packages/engine/src/executor/dag.ts:47-58 | A found gray successor is a real cycle; otherwise the node and all it leads to end up black and nothing black is undone. |
| Dag.HasCycle | packages/engine/src/executor/dag.ts:43-63 | True exactly when the graph has a cycle. |
| Dag.BuildDag | packages/engine/src/executor/dag.ts:15-41 | Succeeds exactly when the enabled graph is acyclic, and then gives the one graph of the workflow: the enabled blocks as nodes, each edge in both its ends, the last connection between two blocks. |
| Dag.BuildNodes | packages/engine/src/executor/dag.ts:18-26 | One node for each enabled id, without edges. |
| Dag.LinkedTells | packages/engine/src/executor/dag.ts:28-34 | Linking one connection adds exactly its edge, at both of its ends. |
| Dag.LinkedAllTells | packages/engine/src/executor/dag.ts:28-34 | All connections linked: the nodes tell exactly the edges among enabled blocks, each with the last connection of its pair. |
| Dag.Entrypoints | packages/engine/src/executor/dag.ts:36 | Exactly the nodes without predecessors, each once. |
| Dag.TopoSort | packages/engine/src/executor/dag.ts:66-86 | Succeeds exactly on acyclic graphs, and then lists every node once with every edge pointing forward. |
| Dag.ReleaseKeeps | packages/engine/src/executor/dag.ts:76-80 | Lowering the in-degrees of the successors of the placed node keeps each count equal to its unplaced predecessors and queues exactly those that reach none. |
| Dag.OrderIsTopological | packages/engine/src/executor/dag.ts:66-86 | The order is one function of the graph; on an acyclic graph it lists every node once with every edge pointing forward. |
| References.UpstreamClosure | packages/engine/src/operations/apply.ts:330-345 | The loop ends, and a block's upstream set is exactly the blocks that reach it through connections. |
| References.Pass | packages/engine/src/operations/apply.ts:336-344 | One sweep adds only true ancestors, and reports no change only when every connection is settled. |
| References.ValidateReferences | packages/engine/src/operations/apply.ts:319-398 | Appends, in order, the error of each reference that names no block, or one not upstream, or an undeclared output. |
| References.NothingReported | packages/engine/src/operations/apply.ts:347-397 | Nothing is reported exactly when each reference of each block is to the trigger, the environment or the variables, or its head is the id, else the name, of a block that leads here and that declares the first part of its path, is unregistered, or is meant as a whole. |
| References.ErrorsAreDeserved | packages/engine/src/operations/apply.ts:347-397 | An error is reported exactly when some reference deserves it: no block is meant, or the one meant does not lead here, or it does not declare the output. |
| References.RefErrorMeans | packages/engine/src/operations/apply.ts:347-397 | One reference passes exactly when it is fine, and otherwise gets the one error it deserves. |
| Resolver.NavigatePath | packages/engine/src/executor/resolver.ts:26-35 | The loop gives the value at the path: list items by number, fields by name, undefined past a missing or plain value. |
| Resolver.ExtractRefs | packages/engine/src/executor/resolver.ts:117-130 | Collects exactly the references in the value, in the order they stand. |
| Resolver.LooksUpExtractedRefs | packages/engine/src/executor/resolver.ts:85-130 | Resolving a value looks up exactly the references that extraction gives the validator, in the same order. |
| Resolver.OnlyExtractedRefsMatter | packages/engine/src/executor/resolver.ts:85-115 | Two contexts that agree on the extracted references resolve the value alike. |
| Resolver.StringGives | packages/engine/src/executor/resolver.ts:96-108 | A lone reference gives the value found part by part along its path; any other string the texts of its pieces, in order, nothing for what is absent. |
| Resolver.SingleGives | packages/engine/src/executor/resolver.ts:37-78 | What each kind of reference stands for: trigger, variables and outputs along the path, the environment by its dotted name, a block by its id with an output, else by its name. |
| Resolver.ItemsGive | packages/engine/src/executor/resolver.ts:87 | Lists are resolved item by item. |
| Resolver.FieldsGive | packages/engine/src/executor/resolver.ts:88-92 | Records keep their keys and are resolved field by field. |
| Resolver.NumeralFinds | packages/engine/src/executor/resolver.ts:30 | The decimal numeral of a place in a list finds that place. |
| Edit.FilterParams | packages/engine/src/operations/apply.ts:272-315 | Keeps the exposed fields in order, reports each other field, then each required field left missing. |
| Edit.KeptIsExposed | packages/engine/src/operations/apply.ts:291-303 | Every kept field is one the block or one of its tools exposes, with its given value. |
| Edit.Draft.ApplyAdd | packages/engine/src/operations/apply.ts:84-127 | The new state for each branch: existing id, unknown type, or the block appended with filtered parameters. |
| Edit.Draft.ApplyChange | packages/engine/src/operations/apply.ts:129-168 | A block that is there and of a registered kind gets the given name and, field by field, the last given value where it may be edited, keeps the other fields that may be, and loses the rest; the errors name each refused and each missing field; everything else stays. Otherwise one skip is reported. |
| Edit.Draft.ApplyDelete | packages/engine/src/operations/apply.ts:170-189 | The first block of that id goes, and every connection that touches the id. |
| Edit.Draft.ApplyConnect | packages/engine/src/operations/apply.ts:191-248 | The connection is appended unless an end is missing, it is there already, or it would close a cycle. |
| Edit.Draft.ApplyDisconnect | packages/engine/src/operations/apply.ts:250-268 | The first connection between the two blocks goes, and only it. |
| Edit.ChangeMeans | packages/engine/src/operations/apply.ts:129-168 | The same of the outcome, with the refusal that applies. |
| Edit.AddMeans | packages/engine/src/operations/apply.ts:84-127 | A new block comes last, enabled, with exactly the given fields that may be edited; the errors name the refused and the missing ones. |
| Edit.DeleteMeans | packages/engine/src/operations/apply.ts:170-189 | The first block of the id goes, and of the connections exactly those that touch it; the others keep their order. |
| Edit.ConnectMeans | packages/engine/src/operations/apply.ts:191-248 | The connection made has the given ends and what is given and not empty of handle and condition; each refusal, exactly when it applies first. |
| Edit.DisconnectMeans | packages/engine/src/operations/apply.ts:250-268 | The first connection between the two goes, or there is none. |
| Edit.ApplyOperations | packages/engine/src/operations/apply.ts:32-80 | The result is the fold of all operations, with the errors of the whole-graph checks after them; ok exactly when nothing was skipped or reported. |
| EditProofs.OpKeepsSound | packages/engine/src/operations/apply.ts:40-58 | Every operation keeps ids unique, both ends of each connection present and the enabled graph acyclic. |
| EditProofs.RunKeepsSound | packages/engine/src/operations/apply.ts:40-69 | So does every list of operations; the final cycle test never fails on a workflow that was sound. |
| EditProofs.RunKeepsEnabledAndExposed | packages/engine/src/operations/apply.ts:84-168 | On a workflow built by operations all blocks are enabled and carry only exposed parameters. |
| EditProofs.ConnectReportsCycle | packages/engine/src/operations/apply.ts:235-246 | Connecting reports a cycle exactly when both blocks are enabled and the target is or already reaches the source. |
| EditProofs.ConnectKeepsDistinct | packages/engine/src/operations/apply.ts:215-233 | An accepted connection repeats another exactly when its handle is empty and one without a handle is there. |
| EditProofs.OpKeepsDistinct | packages/engine/src/operations/apply.ts:191-268 | With handles absent or not empty, connections stay distinct in source, target and handle. |
| EditProofs.EmptyHandleDuplicates | packages/engine/src/operations/apply.ts:215-233 | Two blocks connected without a handle, when connected again with an empty one, get the same connection a second time. |
| EditProofs.BatchesCompose | packages/engine/src/operations/apply.ts:40-58 | Two lists of operations in turn do what their concatenation does. |
| EditProofs.TwoCallsAreOne | packages/engine/src/operations/apply.ts:32-80 | Two calls in turn give the workflow, skips and operation errors of one call with both lists. |
| EditProofs.EveryOpIsReported | packages/engine/src/operations/apply.ts:40-58 | Each operation is reported as skipped and changes nothing, or makes its change and reports its errors, in order. |
| EditProofs.FinalErrorsMean | packages/engine/src/operations/apply.ts:60-69 | The final checks report a cycle exactly when there is one, and exactly the errors that references deserve. |
| Branches.MarkDownstreamSkipped | packages/engine/src/runner/walk.ts:206-216 | Adds only the node and what it leads to, and leaves nothing newly marked with an unmarked successor, although it stops at marked nodes. |
| Branches.MarkedExactly | packages/engine/src/runner/walk.ts:206-216 | From a closed set the early stop loses nothing: exactly the downstream nodes are added. |
| Branches.SelectBranches | packages/engine/src/runner/walk.ts:178-204 | Of a node with several handles, drops exactly what the targets left out lead to: those whose handle is not success, not the named branch and not the word for the boolean result, nor the default while nothing speaks for another; the skipped set stays closed. |
| Branches.LeftOutExactly | packages/engine/src/executor/executor.memory.ts:280-300 | The targets cut are those left out, in terms of handles and output fields. |
| Walk.VisitBlock | packages/engine/src/runner/walk.ts:69-123 | One block: skipped, trigger, wait or tool with its refusals, durations and timeouts, its output recorded, branches cut only after tools. |
| Walk.SleepCoversDuration | packages/engine/src/runner/walk.ts:136-139 | A sleep lasts as long as asked and at least a second, and less than a second longer than either. |
| Walk.WalkWorkflow | packages/engine/src/runner/walk.ts:43-126 | A cyclic workflow is refused; otherwise the result is that of visiting the blocks one by one in the order of the sort. |
| WalkMeaning.OutputsExplained | packages/engine/src/runner/walk.ts:43-126 | A walk that succeeds: a block has an output exactly when no block that ran drops it, and the output is what its trigger, tool or wait gives for its parameters, resolved where the outputs of the blocks before it are known. |
| WalkMeaning.WalkFailsExactly | packages/engine/src/runner/walk.ts:43-126 | A walk fails exactly when the graph has a cycle or it comes to a block that is to run and gives nothing. |
| WalkMeaning.WaitMeans | packages/engine/src/runner/walk.ts:131-166 | A sleep lasts the least number of seconds that covers the duration; an event gives its data or null and whether time ran out; an approval keeps its fields beside that mark; time limits cover the hours given. |
| WalkMeaning.UnitsFit | packages/engine/src/runner/walk.ts:218-234 | A minute is sixty seconds, an hour sixty minutes, a day 24 hours, a week seven days. |
| WalkMeaning.NamesTabled | packages/engine/src/runner/walk.ts:51-57 | The name table leads each name and slug to the last block called so. |
| WalkProofs.WalkIsSorted | packages/engine/src/runner/walk.ts:43-45 | That order is topological and lists every enabled block once. |
| WalkProofs.WalkTracks | packages/engine/src/runner/walk.ts:69-123 | At every moment the skipped set is closed under successors and exactly the passed blocks outside it have outputs: a block that ran is never marked. |
| WalkProofs.CutsLater | packages/engine/src/runner/walk.ts:200-216 | What a block cuts lies strictly later in the order. |
| WalkProofs.PredecessorsRan | packages/engine/src/runner/walk.ts:69-123 | Every block about to run has all its transitive predecessors' outputs. |
| WalkProofs.ValidatedTargetRan | packages/engine/src/operations/apply.ts:347-397 | The block that a validated reference names has its output when the referring block runs. |
| WalkProofs.ReferencesNeverDangle | packages/engine/src/operations/apply.ts:319-398 | For a workflow built from empty by operations and accepted by the final checks, every block that runs finds the output of each block its parameters reference. |
| WalkProofs.ResolvesAsValidated | packages/engine/src/executor/resolver.ts:69-77 | When the walk's lookup finds the validated block: exactly when it is named by an id with an output or the name table maps to it. |
| WalkProofs.SlugHidesName | packages/engine/src/runner/walk.ts:52-57 | A slug of a later block hides an earlier block's own name from the walk, not from the validator. |
| WalkReplay.WalkerIsStraight | packages/engine/src/runner/walk.ts:69-126 | As the function of a durable run the walk calls no further step after a step error. |
| WalkReplay.WalkerKeysAreNeverSuffixed | packages/engine/src/runner/walk.ts:170-172 | Every step name of a walk is the key of its block, never suffixed by the runtime, and no two are the same. |
| WalkReplay.CompletedRunsAreWalks | packages/engine/src/runner/runtime-workflow.ts:53-73 | In every state that workers can reach, a completed run of the runtime workflow, whose passes each read their own clock, holds the outputs of one walk of its blocks in which each step returns its stored output and the clock is that of the last claim's pass. |
| WalkReplay.ListedTells | packages/engine/src/runner/walk.ts:125-126 | The result lists each output under the id of its block, and nothing else. |
| WalkReplay.PassesNeverDangle | packages/engine/src/runner/runtime-workflow.ts:53-73 | For a workflow that the final checks accepted, in every pass that workers can reach, whatever its clock, a block that calls its step finds an output for each block its parameters refer to. |
| WalkReplay.ClockKeepsKeys | packages/engine/src/runner/walk.ts:136-141 | Whatever the clock reads after a sleep, passes with the same answers that call a step call it for one block under one name. |
| WalkReplay.AsksWhatItCalls | packages/engine/src/runner/walk.ts:131-172 | A block of the walk asks its host for nothing but the answer to the step call it makes: that kind, that name and that signal. |
| WalkReplay.WalkerRunsAreStraight | packages/engine/src/runner/walk.ts:136-141 | Passes of the walk that read different clocks call the same steps under the same names as long as they get the same answers, and none after a step error. |
| MemoryExecutor.TakeBranch | packages/engine/src/executor/executor.memory.ts:182-184 | Tells whether the handle has a target and skips exactly what is downstream of the others. |
| MemoryExecutor.ExecuteBlock | packages/engine/src/executor/executor.memory.ts:94-234 | One block of the loop, with its refusals, error branch and pause; the skipped set stays closed. |
| MemoryExecutor.Execute | packages/engine/src/executor/executor.memory.ts:63-237 | Refuses a cyclic workflow; otherwise runs the sorted blocks from seed outputs, ending at the first failure or pause. |
| MemoryMeaning.ExecutionExplained | packages/engine/src/executor/executor.memory.ts:63-237 | An execution is a step at each sorted block: outputs of triggers and tools, pauses where a tool asks for one, the error branch alone after a throw, and an end at a refusal or at a throw without an error branch. |
| MemoryMeaning.TurnMeans | packages/engine/src/executor/executor.memory.ts:94-234 | What one block leaves, for each thing its tool may do. |
| MemoryExecutor.Resume | packages/engine/src/executor/executor.memory.ts:243-268 | A new run from the snapshot's outputs and the payload, with nothing skipped, under the caller's registries, tools and environment. |
| Resumption.ResumeEqualsUninterrupted | packages/engine/src/executor/executor.memory.ts:88-91 | However blocks run after each pause: executing and resuming until it no longer pauses gives what one run without pauses gives, when nothing was cut or failed before a pause. |
| Resumption.RevivedBlockShows | packages/engine/src/executor/executor.memory.ts:243-268 | After the first pause that revives a block it forgot, cut or failed: if the block returns or pauses, it has an output in the end and none without the pauses; if it stops the run, the resumed run ends there. |
| MemoryExecutor.ResumeIsExact | packages/engine/src/executor/executor.memory.ts:243-268 | For any pauses, tools and payloads: execute and resume ends like the uninterrupted run exactly when no forgotten block is revived, or each revived first stops the run as the uninterrupted run is stopped. |
| MemoryExecutor.RevivedExactly | packages/engine/src/executor/executor.memory.ts:174-216 | A forgotten block is revived exactly when the resumed run gets to it and its tool does not throw it onto an error branch. |
| MemoryExecutor.ExecuteThenResume | packages/engine/src/executor/executor.memory.ts:63-268 | With other registries, tools and environment at each resume, a run whose pauses are all clean ends as the uninterrupted one does. |
| ResumeDiffers.ForkedResumeDiffers | packages/engine/src/executor/executor.memory.ts:243-268 | A workflow whose check takes one of two branches: executed and resumed with any payload, the branch not taken runs too. |
| WalkResume.ResumedIsWalk | packages/engine/src/runner/walk.ts:43-126 | With the walk's tools and payloads at each resume, and no cut before a wait, execute and resume ends with exactly the outputs of a walk that succeeds. |
| WalkResume.ResumedIsWalkExactly | packages/engine/src/runner/walk.ts:43-126 | With the walk's tools and payloads at each resume, it ends with the outputs of a walk that succeeds exactly when no block that a pause forgot is revived. |
| Retry.BackoffIsMonotoneAndCapped | packages/openworkflow/core/backoff.ts:19-31 | With a coefficient of at least 1 the delay grows with the attempt and never passes the maximum interval. |
| Retry.NeverShrinksExactly | packages/openworkflow/core/backoff.ts:19-31 | For every policy: delays never shrink exactly when the first interval is zero, the coefficient is at least 1, or the cap is zero and the coefficient not negative. |
| Retry.GivesUpExactly | packages/openworkflow/core/workflow-definition.ts:162-209 | A failed run is not retried exactly when its tries are used up or the next one would not start before the deadline. |
| Retry.RetryWindow | packages/openworkflow/core/workflow-definition.ts:196-208 | A retry lies between now and now plus the maximum interval, before the deadline, and within the number of tries. |
| Endings.FailedStepIsRetried | packages/openworkflow/worker/execution.ts:1114-1147 | From the failure of a step to the row: the run waits as long as the call's own policy says for that many failures, initial interval times the coefficient to the power of one less, capped, from the decision on; or it has failed for good when these are all tries or the deadline comes first. |
| Endings.StepErrorIsRetried | packages/openworkflow/worker/execution.ts:1114-1147 | So for every step error that a function lets out. |
| Endings.ThrownErrorIsRetried | packages/openworkflow/worker/execution.ts:1155-1156 | An error thrown by the function: the run's policy decides by the number of its claims. |
| Endings.RuntimeErrorIsRetried | packages/openworkflow/worker/execution.ts:1155-1156 | So does an error that the runtime raised in a call. |
| Endings.LimitFailsForGood | packages/openworkflow/worker/execution.ts:1106-1112 | A run with too many steps fails for good. |
| Endings.ResultCompletes | packages/openworkflow/worker/execution.ts:1075-1090 | The run is completed with the result, null for none, and its error is gone. |
| Endings.UnregisteredIsRetried | packages/openworkflow/worker/worker.ts:170-190 | A run without a registered function is tried again, however often it was claimed. |
| Endings.ErrorsCarryTheirPolicy | packages/openworkflow/worker/execution.ts:431-460 | In every reachable state each step error carries the policy of its call; other steps than functions are tried once. |
| Endings.FailureIsCounted | packages/openworkflow/worker/execution.ts:708-737 | A stored failure is told as the n-th, where n counts the failed attempts in the table. |
| Endings.CountsItsAttempts | packages/openworkflow/worker/execution.ts:390-413 | A pass counts the attempts it loads and each it inserts, and inserts none beyond a thousand. |
| Endings.AllOpenOnlyNew | packages/openworkflow/worker/execution.ts:490-560 | No pass opens a second attempt of a child, wait or send while it knows of one that is running. |
| Store.ChildKeyIsOneToOne | packages/openworkflow/worker/execution.ts:321-323 | The key of a child run tells its step attempt. |
| SqliteBackend.BackendSqlite.CreateWorkflowRun | packages/openworkflow/sqlite/backend.ts:143-177 | Refines the create operation; the returned run matches the key within the period or is the new one. |
| SqliteBackend.BackendSqlite.ClaimWorkflowRun | packages/openworkflow/sqlite/backend.ts:407-497 | Fails runs past their deadline, then claims a run that is first in the queue order, or none exactly when none is due. |
| SqliteBackend.BackendSqlite.ExtendWorkflowRunLease | packages/openworkflow/sqlite/backend.ts:499-522 | Guarded by ownership: moves the lease. |
| SqliteBackend.BackendSqlite.SleepWorkflowRun | packages/openworkflow/sqlite/backend.ts:524-582 | Parks the owner's run until the given time, or now if a running wait has its answer. |
| SqliteBackend.BackendSqlite.CompleteWorkflowRun | packages/openworkflow/sqlite/backend.ts:584-615 | The guarded completion followed by the separate statement that wakes the parent. |
| SqliteBackend.BackendSqlite.FailWorkflowRun | packages/openworkflow/sqlite/backend.ts:617-668 | The guarded failure as the retry decision says; only a final one wakes the parent. |
| SqliteBackend.BackendSqlite.RescheduleWorkflowRunAfterFailedStepAttempt | packages/openworkflow/sqlite/backend.ts:670-704 | Guarded by ownership: back to the queue. |
| SqliteBackend.BackendSqlite.CancelWorkflowRun | packages/openworkflow/sqlite/backend.ts:706-747 | Ends a live run and wakes its parent; accepted again for a canceled run, refused for other ended or unknown runs. |
| SqliteBackend.BackendSqlite.WakeParentWorkflowRun | packages/openworkflow/sqlite/backend.ts:784-829 | Makes the parked run due whose running step names this child, and changes no other row. |
| SqliteBackend.BackendSqlite.SendSignal | packages/openworkflow/sqlite/backend.ts:283-385 | A key that was delivered returns the same runs and changes nothing; otherwise each waiter without a row gets one and its unclaimed run is made due. |
| SqliteBackend.BackendSqlite.InsertSignals | packages/openworkflow/sqlite/backend.ts:324-347 | Inserts a row exactly for the waiters that have none, keeps the others, and returns exactly the runs that got one. |
| SqliteBackend.BackendSqlite.CreateStepAttempt | packages/openworkflow/sqlite/backend.ts:928-967 | Not guarded: a running attempt is inserted. |
| SqliteBackend.BackendSqlite.SetStepAttemptChildWorkflowRun | packages/openworkflow/sqlite/backend.ts:969-993 | Guarded by ownership: links a child. |
| SqliteBackend.BackendSqlite.CompleteStepAttempt | packages/openworkflow/sqlite/backend.ts:1010-1036 | Guarded by ownership: completes. |
| SqliteBackend.BackendSqlite.FailStepAttempt | packages/openworkflow/sqlite/backend.ts:1038-1062 | Guarded by ownership: fails. |
| Lifecycle.OpMovesRuns | packages/openworkflow/sqlite/backend.ts:407-747 | Every operation keeps: ended exactly when without available time, exactly when with finish time; no row disappears, changes identity or leaves an ended status. |
| Lifecycle.LeaseIsHeld | packages/openworkflow/sqlite/backend.ts:407-582 | While its lease has not run out, a run leaves its owner exactly by the owner's own transition, a cancel or a claim after the deadline. |
| Lifecycle.OwnershipIsClaimed | packages/openworkflow/sqlite/backend.ts:467-489 | Ownership comes only from a claim, of a run that was due. |
| Leases.ExtensionLasts | packages/openworkflow/sqlite/backend.ts:499-520 | An accepted heartbeat with lease L at time n: until n + L the run stays its owner's, unless it is taken or the owner cuts it short; before then nobody claims it, and from then on it can be claimed. |
| Leases.ClaimLasts | packages/openworkflow/sqlite/backend.ts:407-490 | So does a claim with lease L. |
| Leases.ParkLasts | packages/openworkflow/sqlite/backend.ts:524-580 | A parked run is held by nobody and sleeps until its time, or until now when a wait has its answer: not handed out before, and due from then on. |
| Leases.CreatedIsDue | packages/openworkflow/sqlite/backend.ts:143-180 | A new run keeps what it was created with, and is due from its start time, or from now, on. |
| Leases.TimeIsKept | packages/openworkflow/sqlite/backend.ts:436-465 | Any run that is left alone stays as it is and is handed out no earlier than its time. |
| Leases.QueueIsFair | packages/openworkflow/sqlite/backend.ts:436-465 | No due run goes before the one handed out: pending before resumed, then due earlier, then created earlier. |
| Leases.EndIsExplained | packages/openworkflow/sqlite/backend.ts:583-735 | Every ended run was ended by one operation, by its owner with that result or error, by a cancel, or by its deadline, and has stayed so. |
| Lifecycle.EmptyClaim | packages/openworkflow/sqlite/backend.ts:441-465 | A claim returns nothing only if every live run is not yet due or past its deadline, and the latter it fails. |
| Lifecycle.NothingIsStranded | packages/openworkflow/sqlite/backend.ts:407-497 | Once the clock reaches a live run's time, a claim ends that run or hands out some run. |
| Lifecycle.SomeClaimIsAllowed | packages/openworkflow/sqlite/backend.ts:441-465 | The queue order always has a first due run or there is none. |
| Lifecycle.OpKeepsKeysApart | packages/openworkflow/sqlite/backend.ts:143-266 | Two runs with one name and key are more than 24 hours apart, after every operation. |
| Lifecycle.MatchIsUnique | packages/openworkflow/sqlite/backend.ts:243-266 | So the lookup by key finds at most one run, in whatever order. |
| Lifecycle.CreateTwice | packages/openworkflow/sqlite/backend.ts:143-177 | Within the period a second create with the key finds the first run, whatever happened in between. |
| Lifecycle.Reachable | packages/openworkflow/sqlite/backend.ts:143-747 | All of this holds after every sequence of operations. |
| WakeUp.KeyTellsParent | packages/openworkflow/worker/execution.ts:673-693 | A run found under a step's key was created by that step. |
| WakeUp.OpMovesAttempts | packages/openworkflow/sqlite/backend.ts:969-1062 | Attempts are never removed and never change once completed or failed. |
| WakeUp.ClaimKeepsWake | packages/openworkflow/sqlite/backend.ts:418-439 | Expiry inside a claim wakes nobody, and need not, because children have no deadline. |
| WakeUp.ParkKeepsWake | packages/openworkflow/sqlite/backend.ts:524-582 | A run whose answer came before it parked is due at once. |
| WakeUp.EndingKeepsWake | packages/openworkflow/sqlite/backend.ts:784-829 | A run that ends owes a wake to every attempt linked to it. |
| WakeUp.SendKeepsWake | packages/openworkflow/sqlite/backend.ts:354-377 | Whoever gets a signal while parked is made due. |
| WakeUp.OpKeepsWake | packages/openworkflow/sqlite/backend.ts:143-1062 | Every operation keeps: an answered wait of a parked run means that the run is due, or that its wake is owed by a call or was lost with one. |
| WakeUp.NoWakeIsEverLost | packages/openworkflow/sqlite/backend.ts:143-1062 | The same after every sequence of operations; a wake is lost only with the call that owed it. |
| WakeUp.AnsweredRunIsDue | packages/openworkflow/sqlite/backend.ts:441-465 | When its child's wake is neither owed nor lost, such a run can be claimed now or is past its deadline. |
| WakeUp.ForgettingIsHarmless | packages/openworkflow/sqlite/backend.ts:609-614 | The call that owes a wake can be lost without harm exactly when every run parked on the child is due anyway. |
| Signals.KeyDeliversOnce | packages/openworkflow/sqlite/backend.ts:288-305 | Once a key has reached somebody, sending it again at any later time changes nothing and its recipients are the same. |
| Signals.SendReaches | packages/openworkflow/sqlite/backend.ts:288-305 | What a keyed send returns is what sending it again returns. |
| Signals.OpKeepsDeliveries | packages/openworkflow/sqlite/backend.ts:324-347 | A delivered row stays, so each wait receives at most one signal. |
| Signals.UnheardSendLeavesNoTrace | packages/openworkflow/sqlite/backend.ts:319-322 | A send that reaches nobody changes nothing, so its key may still deliver later. |
| Signals.SendDelivers | packages/openworkflow/sqlite/backend.ts:288-365 | A send that no earlier one anticipates gives its data to exactly the running unanswered waits on the signal, makes their unclaimed runs due, and changes nothing else. |
| StepNames.NamesAreDistinct | packages/openworkflow/worker/step-history.ts:210-228 | No two steps of a pass share a name. |
| StepNames.NamesAreStable | packages/openworkflow/worker/step-history.ts:210-228 | Later steps do not change the names given before. |
| StepNames.DistinctNamesStay | packages/openworkflow/worker/step-history.ts:210-214 | Steps whose own names differ are never suffixed. |
| StepNames.RepeatedNames | packages/openworkflow/worker/step-history.ts:210-228 | A name used again and again is suffixed with 1, 2, 3 and so on. |
| StepHistory.StepHistory.ResolveStepName | packages/openworkflow/worker/step-history.ts:210-228 | The loop ends and gives the base name when free, else the first free suffix, although it starts at a remembered index. |
| StepHistory.CreateStepExecutionStateFromAttempts | packages/openworkflow/worker/step-history.ts:46-76 | The loop's maps are those of the rows taken in order, later ones replacing earlier ones. |
| StepHistory.StepHistory.FindConflictingSignalWait | packages/openworkflow/worker/step-history.ts:265-280 | Finds another running wait on the signal exactly when there is one. |
| StepHistory.StepHistory.EarliestRunningWaitResumeAt | packages/openworkflow/worker/step-history.ts:147-164 | The earliest end of a running wait, or none when none runs. |
| StepHistory.StepHistory.ResolveEarliestRunningWaitResumeAt | packages/openworkflow/worker/step-history.ts:310-318 | The earlier of the fallback and the earliest running wait. |
| StepHistory.ParkUntilIsEarly | packages/openworkflow/worker/step-history.ts:310-318 | No later than the fallback and than every running wait. |
| StepHistory.StepHistory.RecordCompletion | packages/openworkflow/worker/step-history.ts:354-357 | The step leaves the running map and its attempt is its cached one; the failures stay. |
| StepHistory.StepHistory.RecordFailedAttempt | packages/openworkflow/worker/step-history.ts:365-372 | The step leaves the running map, and its count grows by one and is returned. |
| LedgerProofs.CompletionAgreesExactly | packages/openworkflow/worker/step-history.ts:336-372 | Recording a completion agrees with rebuilding from the table exactly unless a later attempt of the step is completed with another output. |
| LedgerAgreement.KeptLedgerIsRebuilt | packages/openworkflow/worker/step-history.ts:336-372 | In every reachable state the outputs and failure counts that the owner of a run of a steady function keeps are those it would rebuild from the table; without orphans so are its running attempts. |
| LedgerProofs.RebuiltTells | packages/openworkflow/worker/step-history.ts:46-76 | A rebuilt ledger has exactly the completed steps with their outputs, the failure counts and the running rows. |
| ReplayProofs.TurnIsOk | packages/openworkflow/worker/execution.ts:431-928 | Each turn makes only an allowed backend call, and completes only an attempt of the owner's, of a step without an output or a sleep. |
| ReplayProofs.TurnKeepsPass | packages/openworkflow/worker/execution.ts:1035-1159 | Every cached output comes from a completed attempt, and a step in progress has no output yet. |
| ReplaySafety.OthersKeepKnowing | packages/openworkflow/sqlite/backend.ts:80-92 | While a worker owns its run, nobody else completes a step of it. |
| ReplaySafety.StepKeepsSafe | packages/openworkflow/worker/worker.ts:100-118 | Over each step of any worker, caller, crash or clock: at most one completed attempt per step besides sleeps, and the owner's cache misses no completed step. |
| ReplaySafety.StaysSafe | packages/openworkflow/worker/execution.ts:1035-1159 | The same over every interleaving. |
| ReplaySafety.SystemIsBackend | packages/openworkflow/worker/execution.ts:390-428 | Whatever workers do, the tables change by allowed backend operations only. |
| ReplaySafety.ReachableTables | packages/openworkflow/worker/execution.ts:990-1159 | In every state that workers reach, runs are consistent, keys are apart, and a parked run whose answer has arrived is due, or a live call will wake it, or its wake was lost with a call that died. |
| ReplaySafety.StepKeepsWakers | packages/openworkflow/sqlite/backend.ts:609-614 | Each owed wake has a live pass at its wake, or a canceller about to wake; the death of that call moves the child to the lost ones. |
| ReplaySafety.CrashIsHarmless | packages/openworkflow/sqlite/backend.ts:609-614 | A pass that dies between ending a child and waking its parent does harm exactly when a run parked on the child is not due anyway. |
| Counterexamples.WakeIsLost | packages/openworkflow/sqlite/backend.ts:609-614 | From empty tables: a parent stays parked until its timeout although its child is done and nobody is left to wake it. |
| ReplaySafety.OneOutputExactly | packages/openworkflow/worker/execution.ts:259-282 | Completed attempts of a step share one output exactly unless one is a sleep and another one returned something. |
| ReplaySafety.ApartHaveOneOutput | packages/openworkflow/worker/execution.ts:249-285 | They do when no name is used both for a sleep and for something else. |
| ReplaySafety.OutputChangesExactly | packages/openworkflow/worker/execution.ts:259-282 | A cached output changes within a turn exactly when the pre-pass stands at an elapsed sleep of that name, its completion is accepted, and the output was not null. |
| Counterexamples.OutputIsLost | packages/openworkflow/worker/execution.ts:249-285 | From empty tables, with a function that catches a step error and reuses a sleep's name: one worker sees 5, the later owner null. |
| ReplaySafety.EveryParkIsInTime | packages/openworkflow/worker/execution.ts:475-486 | Every pass that parks does so until no later than any wait running in its history. |
| Parking.ParksUntilFirstWait | packages/openworkflow/worker/execution.ts:475-486 | In every reachable state a pass that parks does so until exactly the earliest end of the waits running in its history. |
| ReplayTraces.TurnFollows | packages/openworkflow/worker/execution.ts:431-460 | The names and answers of a pass are those of its function's calls, and each returned answer is the cached output of its step. |
| ReplayDeterminism.BackedAgree | packages/openworkflow/worker/execution.ts:431-460 | Of two sequences of answers backed by completed attempts, one continues the other. |
| ReplayDeterminism.SteadyRunsKeepOutputs | packages/openworkflow/worker/execution.ts:1035-1159 | For functions that a step error ends, or that keep the names of their sleeps apart, and whose passes name their calls alike, outputs of a run never change and no name is used both for a sleep and for something else. |
| ReplayDeterminism.PassesShareOutputs | packages/openworkflow/worker/execution.ts:438-441 | Any two passes over a run of such a function, at any times, that get an output for one step get the same. |
| ReplayDeterminism.PassesAgree | packages/openworkflow/worker/execution.ts:431-460 | For functions that a step error ends and whose passes name their calls alike, any two passes over a run, at any times, make the same calls and get the same answers as far as both get; only a last error may differ. |
| ReplayDeterminism.OwnersExtend | packages/openworkflow/worker/execution.ts:438-441 | The owner of a run of a function that a step error ends, or that keeps its sleeps apart, has all outputs that any earlier pass saw. |
| StepResults.ResultsAreRight | packages/openworkflow/worker/execution.ts:596-649 | In every reachable state a completed workflow step has the output of its own completed child; a completed wait has what its call's schema makes of the data delivered to it, or nothing once its time ran out; a completed send lists all runs that its signal reached, each once, or none; and a completed sleep has nothing and its time has come. |
| SendResults.SendsListReached | packages/openworkflow/worker/execution.ts:794-812 | In every reachable state a completed send lists each run that its signal had reached at the step that made the send, once, so none exactly when it had reached none. |
| FunctionResults.FunctionsStoreResults | packages/openworkflow/worker/execution.ts:431-460 | In every reachable state a completed function step holds what its function returned when run for that attempt, and a failed one what it threw, unless its completion was refused. |
| StepErrors.ErrorsAreRight | packages/openworkflow/worker/execution.ts:566-656 | In every reachable state a failed workflow step has its child's error, or its child was canceled, not linked, or had not ended by its time; a failed wait had data that its schema refuses; no sleep fails. |
| StepErrors.ChildrenAreAsked | packages/openworkflow/worker/execution.ts:659-706 | In every reachable state a child run has the name and input of a call of its parent step. |
| StepErrors.WaitsListenRight | packages/openworkflow/worker/execution.ts:818-862 | Each wait listens for the signal of a call of its step. |
| StepErrors.SendsSayWhatIsAsked | packages/openworkflow/worker/execution.ts:790-806 | Each send has the signal and data of its call, under the key of its run and step. |
| StepResults.OthersKeepRow | packages/openworkflow/sqlite/backend.ts:969-993 | While a worker owns its run, nobody else changes the rows of its running attempts. |
| StepResults.OpKeepsRight | packages/openworkflow/worker/execution.ts:864-910 | What a step read before completing stays true until it completes: ended children and delivered signals do not change. |
| RunResults.CompletedRunsAreExplained | packages/openworkflow/worker/execution.ts:1075-1090 | In every reachable state, for every function, a completed run holds what its function returns, in the pass of the run's last claim, on outcomes whose outputs are all stored in completed attempts of the steps called. |
| RetryBound.LoadedCounts | packages/openworkflow/worker/step-history.ts:60-65 | A loaded ledger counts exactly the failed attempts of each step. |
| RetryBound.FailuresAreBounded | packages/openworkflow/worker/execution.ts:1114-1150 | A step fails at most as often as its limit plus the number of passes lost between a last failure and the transition; when it has used that up its run has ended or its owner is about to fail it. |
| RetryBound.LossRaisesBound | packages/openworkflow/worker/execution.ts:1114-1150 | A lost pass lets each step fail at most once more. |
| Counterexamples.LostPassFailsAgain | packages/openworkflow/worker/execution.ts:1114-1150 | From empty tables: a step with one try fails twice when the first pass is lost after its failure. |
| RetryBound.DoomedDecides | packages/openworkflow/worker/execution.ts:1114-1128 | A step error whose tries are used up leads to the transition that fails the run for good. |
| RetryBound.DoomedEnds | packages/openworkflow/worker/execution.ts:1125-1128 | That transition, by the owner, ends the run. |
| Pagination.PagesAreWindows | packages/openworkflow/core/cursor.ts:79-119 | Every page after or before a cursor is the window of rows next to it, with next and prev exactly where rows remain. |
| Pagination.FollowVisitsAll | packages/openworkflow/sqlite/backend.ts:885-926 | Following next from the first page visits every row exactly once in order, for any page size of at least 1. |
| Pagination.PrevReturns | packages/openworkflow/core/cursor.ts:79-119 | prev taken from the page after a page returns that page. |
| Pagination.ListAllStepAttempts | packages/openworkflow/worker/execution.ts:294-314 | The loop ends with all rows when they fit the step limit and refuses otherwise. |
| RateLimit.RateLimiter.Request | packages/api/src/middleware/rate-limit.ts:35-50 | The answer and new bucket of one caller; every other bucket stays. |
| RateLimit.TokensInRange | packages/api/src/middleware/rate-limit.ts:35-50 | Tokens stay between 0 and the limit over every sequence of requests. |
| RateLimit.BurstIsAdmitted | packages/api/src/middleware/rate-limit.ts:35-42 | A new caller may make as many requests at once as the limit says. |
| RateLimit.WindowBound | packages/api/src/middleware/rate-limit.ts:37-48 | Any window of T milliseconds admits at most perMin + perMin * T / 60000 requests. |
| RateLimit.RetryAfterIsExact | packages/api/src/middleware/rate-limit.ts:43-47 | A refused caller who comes back alone is admitted exactly when the advertised time has passed. |
| Versions.WorkflowRow.Update | packages/api/src/store/workflows.ts:111-128 | Writes and counts up, or refuses another version and changes nothing. |
| Versions.AcceptedNamesItsBase | packages/api/src/routes/workflows.ts:94-108 | An accepted patch that names version v stores its operations applied to version v. |
| Versions.AcceptedExactly | packages/api/src/routes/workflows.ts:91-108 | A write is accepted exactly when its patch names no version or the current one, and then stores the operations applied to what the patch had read. |
| Versions.NoLostUpdates | packages/api/src/routes/workflows.ts:91-108 | Whatever the interleaving of patches that name existing versions, the stored workflow is the first one with all accepted operations applied in order, as one list. |
| Versions.UnseenVersionLosesUpdates | packages/api/src/routes/workflows.ts:94-108 | On any server, a patch that names no version or one that does not exist yet can be accepted on top of what it read although others were accepted in between. |
| Versions.SafeExactlyWhenSeen | packages/api/src/routes/workflows.ts:94-108 | A new patch is safe against that, whatever orderly clients do next, exactly when it names a version that exists. |
| Schedules.ScheduleTable.TryClaim | packages/api/src/store/schedules.ts:161-194 | Wins exactly when the row is there and has not fired for this cutoff or a later one, and then moves it to the cutoff; a lost claim changes nothing. |
| Schedules.ScheduleTable.DispatchOnce | packages/engine/src/runner/cron.ts:191-257 | At the start of the minute: moves exactly the rows of schedules that have not ended, name each part of the time and have not fired since; its counts tell how many of those ran and did not, and what became of every other listed schedule. |
| Schedules.RowsAreClaimed | packages/engine/src/runner/cron.ts:216-241 | Taking the schedules one by one, repeated or not, moves exactly the rows of due schedules that could be claimed before the tick. |
| Schedules.CountsOneMore | packages/engine/src/runner/cron.ts:216-255 | A schedule that a tick claims it has not claimed before, so its counts tell the claimed rows. |
| Schedules.DispatchersStayApart | packages/engine/src/runner/cron.ts:39-49 | However many ticks interleave, fail or die: the cutoffs a schedule is claimed for strictly increase, each listed schedule is counted once, and every claim has fired, failed or is still to run. |
| Schedules.ClaimsExactly | packages/engine/src/runner/cron.ts:216-241 | A claim is won exactly when a tick comes to a schedule that fires at its cutoff and has not fired since. |
| Schedules.RefusedExactly | packages/api/src/store/schedules.ts:174-184 | In every such state a claim is refused exactly when the schedule is gone or was claimed for that cutoff or a later one. |
| Schedules.ReusedIdFiresAgain | packages/api/src/store/schedules.ts:115-116 | A deleted schedule whose id is given to a new one can be claimed for one cutoff twice. |

## Left out

- RetryBound.FailuresAreBounded: limits are per step name, for functions that let step errors out; a pass lost elsewhere costs no try.
- Resolver.NavigatePath: does not model properties that JavaScript objects and arrays inherit, such as `toString`.
- WalkProofs.ReferencesNeverDangle: says that the validated block has its output; a reference by name may find another block at run time, as ResolvesAsValidated and SlugHidesName show.
- Pagination.ListAllStepAttempts: the table does not change between the pages of one load.
- `executeWorkflow` and `StepExecutor` are turns on values, not methods on objects, because their calls interleave with other workers; JSON text, schemas, error texts and logs are not modelled.
- A workflow function that catches the signal with which a step parks its run.
- Parallel branches inside a workflow function, and the in-memory fence that stops them.
- Backend calls that take effect although their answer is lost, and reads that fail.
- The statuses `sleeping` and `succeeded`, which no operation writes any more, and malformed stored dates.
- A wait without a limit lasts 365 days here; the code adds a calendar year.
- The PostgreSQL backend, which parks a run in two statements, and database semantics in general.
- Namespaces other than one, and the columns `version`, `config`, `context` of runs, `started_at`, `updated_at` and `finished_at` of attempts.
- Order of results where the database leaves it open, and of recipients of a signal.
- Number parsing and formatting: the engine's conversions of parameters to text and to numbers are arbitrary functions.
- The template scanner: a string is a list of text and reference pieces; tools and tool choice are arbitrary functions.
- Parsing of cron expressions: a schedule has the sets of minutes, hours, days, months and weekdays, or none; the timer that starts ticks, and time zones.
- Deleting a stored workflow, reading it by other routes, and authentication.
- Tokens as floating-point numbers; they are real numbers here.
