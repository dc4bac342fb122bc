# Verification model of the agent kernel and its neighbours

A Dafny model of the scheduling kernel of the agent (`agent_kernel/`), of the patch transaction
(`agentlib/patch_executor.py`), and of three smaller parts: the inbox claim protocol, the keyword retrieval
pipeline with its metrics, and the tool health statistics behind the route score.
`dafny verify dfyconfig.toml` checks everything.

## What is modelled

**The kernel.** `KernelState.Step` is one `run_step` as a function of the agent state and of an environment that
is chosen anew for every step: the tool registry, the worker's reply, whether the success criteria hold of it,
which keyword lists the error text hits, the failure and action fingerprints, whether a planner can be delegated
to, and whether the wall clock shows stagnation. All of these are arbitrary, so a theorem about `Step` holds for
every worker. `Kernel.AgentKernel` holds the same code as methods that update an agent state and a circuit
breaker in place; each method is proved equal to its function, up to `RunStep` and `Run`. The graph algorithms
(`CompileCheck`, `LocalReplan`) are methods over the mutable sets and stacks the code uses, proved exact against
paths in the dependency graph (`PlanGraph`); `CleanPlans` says when a plan compiles, and `Parsing` what is read from
stored records.

The kernel proofs are layered: `PlanInvariant`, `PlanSteps` and `PlanBatches` show that every step keeps the plan well
formed; `StepFrame` says what a step does to budget, status and ledger (the trace entries that record worker calls,
routed failures and retries); `TaskLives`, `Attempts` and `StepObjects` follow each Task object through a step;
`StepOutcomes`, `PlanOutcomes`, `ReplanOutcomes`, `FailureOutcomes` and `TraceOutcomes` say what a step answers in
terms of the plan, the reply and the history: when it completes the run, what a planner's reply appends, what a replan
puts in place of a failed task, which failures are retried, parked or replanned, and what the trace tells of it;
`Runs`, `Progress` and `Guarantees` lift all of this to whole runs. A run is a sequence of moves: a step, or a
resumption of a run that waits for the user, as agentlib/runtime_engine.py:4107-4127 does it. One kernel serves many
runs one after the other; `Sessions` says what its circuit breaker carries over, and `Stalled` when the stagnation
guard is out of reach. `MintedIds`, `StepIds` and `Stranded` show where the assumptions below matter.

Assumptions about callers of the kernel: a run starts with an empty task list and an empty trace, whatever the
breaker holds; a planner never uses ids of the minted form `tNNNN`, and neither the `inputs` of its subgoals nor the
payloads of its loose tasks bring dependencies of their own. Only the plan and attempt theorems need the planner
assumptions (`GoodReply`); routing, budget and termination do not.

**The patch transaction.** `PatchSpec` describes capture, apply, rollback and `run` over a map from resolved paths to
contents. Path resolution is an arbitrary function; every read may fail, every write and every restore may fail and
leave anything behind. `PatchTransaction` has the objects that update the files in place. `PatchContents` says what
the files hold afterwards, `PatchReports` what is reported, and `PatchAtomicity` exactly when a transaction is
all-or-nothing. `WorkspacePaths` is path resolution itself on POSIX without symbolic links.

**The inbox.** `Inbox` is a transition system: any number of pullers with batches selected earlier, writers and
status updates interleave statement by statement; the guarded UPDATE is atomic.

**Retrieval, metrics, tool health.** `Ranking` is the stable sort and the cut, `Retrieval` the pipeline,
`RetrievalReports` what a package reports, `RetrievalBest` what it never leaves out, and `RetrievalLoss` when it can
lose a text. `RouteOrder` says what the route score prefers. `Retrieval`, `Metrics` and `ToolHealth` use exact reals.

## Where the code differs from what one would expect

The model follows the code in each case.

- `run_step` raises when a planning task's worker reports success but nothing of its reply becomes a task:
  agent_kernel/kernel.py:522 rebinds `compile_issues` to a list, and agent_kernel/kernel.py:588 calls `.get` on
  it. `Runs.StepRaisesIff` gives the exact condition. The task stays `running`, and this is the only way into the
  last `else` of agent_kernel/kernel.py:436-437 (`Progress.NoDeadlock`, `Stranded.EmptyPlanStrandsRun`).
- Minted ids are not checked against used ids: `StepIds.StepIdsIff` says exactly when a step keeps the ids of the plan
  distinct, over batches, loose tasks and replans; `MintedIds.BatchIdsFreshIff` says it for one batch,
  `MintedIds.MintedIdClash` shows a clash, and `MintedIds.StepDuplicatesId` a step that leaves a plan with two tasks
  of one id.
- The circuit breaker lives in the kernel, which serves run after run (agentlib/runtime_engine.py:503). The
  repeated-error rule fires on a failure exactly if the latest failure routed for that task id, in this run or in any
  earlier one, had the same fingerprint (`Sessions.RuleFiresIff`); so an earlier run's last failure aborts a later run
  on its first (`Sessions.EarlierFailureAborts`). The cycle guard of a run is out of reach exactly if its budget ends
  too soon after the last cycle with progress of an earlier one (`Stalled.GapOutOfReachIff`).
- A subgoal without dependencies whose `inputs` carry some passes the compile check of its batch and still becomes a
  task with dependencies: `MintedIds.CheckedDependenciesIff`.
- The patch transaction resolves a touched path again when it takes the snapshot, and `strip` may then take a
  trailing blank off the name; the rollback resolves the snapshot's keys once more. A path such as `name /.` is
  written but not captured, and a rollback that reports ok does not undo the write
  (`PatchAtomicity.TrailingBlankEscapes`). For `name /. /.` the three resolutions differ, and that rollback deletes
  the file `name`, which no operation names (`PatchAtomicity.RollbackDeletesAnother`).
  `PatchAtomicity.AllOrNothingIff` is the exact condition for all lists of operations, and
  `PatchAtomicity.TransactionFrame` says which files are never touched.
- `db_set_inbox_status` accepts any status; a message that is set back to `new` after its dispatch is dispatched
  again, in a run from every initial state with a message and two pullers (`Inbox.ResetRunDispatchesTwice`). No
  message is dispatched twice exactly if callers never write `new` (`Inbox.NeverTwiceIff`); the only call in the
  repository writes `done`.
- A tool all of whose recent calls failed counts as fully successful in the route score, because a rate of 0.0 is
  replaced by 1.0 (agent_kernel/worker.py:378): `ToolHealth.ToolSuccessIff`.
- Keyword retrieval removes duplicates, and spreads the texts out, only after the cut to the pool. A text that matches
  can be lost while the package has room for it, although nothing close to it is in the package. Without diversity this
  can happen exactly if fewer than top_k other texts, with their copies, fill the pool; with diversity, exactly if the
  other entries fill the pool at all (`RetrievalLoss.PackageBestIff`). `RetrievalLoss.KeywordCoversIff` and
  `RetrievalLoss.SafePoolIff` say it for one query.
- nDCG exceeds one for some relevant set exactly if the first k predictions repeat one: `Metrics.NdcgBoundedIff`.

## Model

| member | source | states |
|---|---|---|
| PyText.MintedIdInjective | agent_kernel/kernel.py:283 | ids minted for different sequence numbers differ, also beyond four digits |
| PyText.MintedIdIs | agent_kernel/kernel.py:283 | a minted id is `t` and the decimal digits of its number, at least four, with no more zeros in front than that takes |
| PyText.StripIs | agent_kernel/schemas.py:425-435 | stripping takes white space off both ends and nothing else |
| PyText.LowerIs | agent_kernel/failure_router.py:102-105 | lower-casing replaces each capital by the small letter at the same place of the alphabet |
| PyText.PositionIdIs | agent_kernel/kernel.py:281 | the id of an entry without one is `sg_` and its position in at least two digits |
| PyText.StrLessIff | agent_kernel/kernel.py:173 | the order of ids is that of the first difference: a proper prefix comes first, and otherwise the smaller character |
| Schemas.RoundTripKeepsSchedulingView | agent_kernel/schemas.py:122-169 | task to subgoal to task keeps id, kind, priority, retries, the filtered dependency list, the effective retry policy and the subgoal state |
| Schemas.RoundTripKeepsChecks | agent_kernel/schemas.py:425-456 | the round trip keeps the parsed preconditions, success criteria and fallback |
| Schemas.RoundTripIdempotent | agent_kernel/schemas.py:122-169 | converting twice is converting once |
| Schemas.StatusMapsInverse | agent_kernel/schemas.py:470-508 | the status maps are inverse on subgoal states, and on task statuses exactly for the canonical ones |
| Parsing.DependenciesAre | agent_kernel/schemas.py:124-127 | the dependencies of a subgoal are the stored entries that are not blank, unchanged and in order |
| Parsing.ConditionsAre | agent_kernel/schemas.py:425-448 | its conditions are the stored entries whose operator is not blank, in order, with the operator stripped |
| Parsing.PolicyIs | agent_kernel/schemas.py:459-467 | which values of a stored retry policy are kept, and what stands in for the missing and the impossible ones |
| CompileCheck.CycleSearch.Dfs | agent_kernel/compile_check.py:182-200 | the search finishes the node, keeps the stack and earlier verdicts, marks only nodes that reach a cycle, and ranks every finished unmarked node above its dependencies; it terminates |
| CompileCheck.CycleSearch.DfsDependencies | agent_kernel/compile_check.py:189-198 | after the dependency loop the node is marked, or all its known dependencies are finished and unmarked |
| CompileCheck.FindCycleNodes | agent_kernel/compile_check.py:176-205 | returns exactly the nodes from which a dependency cycle can be reached, for every graph |
| CompileCheck.WalkFallback | agent_kernel/compile_check.py:215-223 | one walk ends; it reports a loop only when its nodes never lead out, and otherwise the chain ends within the number of fallback edges |
| CompileCheck.FindFallbackCycles | agent_kernel/compile_check.py:208-224 | returns exactly the nodes whose fallback chain never ends; every other chain ends within the number of fallback edges |
| CompileCheck.CheckTools | agent_kernel/compile_check.py:48-80 | reports exactly the unregistered tools, missing required inputs and missing retry policies |
| CompileCheck.CheckDependencies | agent_kernel/compile_check.py:82-93 | reports exactly the nodes with an unknown dependency |
| CompileCheck.CheckConditions | agent_kernel/compile_check.py:105-126 | reports exactly the nodes with an unsupported precondition or success operator |
| CompileCheck.PlanCompileCheck | agent_kernel/compile_check.py:39-140 | an issue is reported if and only if the plan has that defect |
| CompileCheck.CleanPlanHasRank | agent_kernel/compile_check.py:82-103 | a plan without issues has every dependency present and a topological rank |
| CleanPlans.CompilesIff | agent_kernel/compile_check.py:39-140 | a plan compiles exactly if every node's tool is registered and has its inputs, a retry policy is there, all dependencies are nodes, all operators are supported, the dependencies can be ordered, and every chain of fallbacks ends |
| CleanPlans.EdgeIs | agent_kernel/compile_check.py:208-234 | a fallback chain goes on from an id exactly to what the last node with the id that names a fallback names, by the first of the three keys that says anything |
| CleanPlans.FallbackTextNames | agent_kernel/schemas.py:451-456 | a stored fallback that is a text names that node |
| CleanPlans.UnregisteredAlone | agent_kernel/compile_check.py:48-61 | of a node whose tool is not registered, neither missing inputs nor a missing policy are reported |
| PlanGraph.TopologicalRank | agent_kernel/compile_check.py:176-205 | nodes that reach no cycle can be ranked above their dependencies |
| PlanGraph.Sink | agent_kernel/kernel.py:162-174 | among nodes that reach no cycle, one depends on none of the others: why some unfinished task can run |
| PlanGraph.LayeredAcyclic | agent_kernel/kernel.py:296-306 | a cycle-free graph on top of another one is cycle-free |
| LocalReplan.BuildChildren | agent_kernel/local_replan.py:11-14 | the child lists hold exactly the reversed dependencies |
| LocalReplan.ComputeDescendants | agent_kernel/local_replan.py:9-25 | returns exactly the root and everything that depends on it, directly or not; it terminates on every graph |
| LocalReplan.ApplyLocalReplan | agent_kernel/local_replan.py:28-52 | the new plan is the survivors followed by the replacement as a draft |
| LocalReplan.SurvivorsAt | agent_kernel/local_replan.py:42-46 | the survivors are the nodes at the staying positions |
| LocalReplan.PositionIff | agent_kernel/local_replan.py:36-46 | a position stays exactly if its node is not both downstream of the failed one and unfinished |
| LocalReplan.PositionsOrdered | agent_kernel/local_replan.py:42-46 | the survivors keep their order |
| LocalReplan.SurvivorsFinished | agent_kernel/local_replan.py:36-46 | no finished node is dropped |
| LocalReplan.SurvivorsDependOnSurvivors | agent_kernel/local_replan.py:36-46 | no unfinished survivor depends on a dropped node |
| LocalReplan.ReplanWellFormed | agent_kernel/local_replan.py:28-52 | a replan whose replacement is new and depends on finished nodes only keeps closure, acyclicity and finished dependencies |
| LocalReplan.AppendWellFormed | agent_kernel/kernel.py:296-306 | so does appending a closed, cycle-free batch of new nodes |
| Guarantees.UserFailuresStop | agent_kernel/failure_router.py:62-69 | a routed failure whose text asks for input, credentials, permission or environment always stops the run: the task ends blocked or failed, is not retried, and the plan holds the same tasks as before |
| Guarantees.CalledHasNoIssues | agent_kernel/failure_router.py:52-60 | a task with a compile issue is never handed to the worker, so the router's branch for compile issues is never taken for a worker's failure |
| CircuitBreakers.Count | agent_kernel/circuit_breaker.py:39-45 | the zeroing loop raises one counter and clears the key's others |
| CircuitBreakers.CircuitBreaker.OnError | agent_kernel/circuit_breaker.py:38-53 | counts the error and fires exactly when its counter reaches the limit |
| CircuitBreakers.CircuitBreaker.OnReplanAction | agent_kernel/circuit_breaker.py:55-70 | counts the action and fires exactly when its counter reaches the limit |
| CircuitBreakers.StagnationMeansNoProgress | agent_kernel/circuit_breaker.py:34-87 | the cycle gap reaches the limit exactly if no progress was recorded within the last `limit` cycles, by this run or an earlier one on the same breaker |
| CircuitBreakers.BumpRefines | agent_kernel/circuit_breaker.py:38-70 | one call keeps every counter in step with the full call history |
| CircuitBreakers.TrailingRunMeaning | agent_kernel/circuit_breaker.py:38-70 | the trailing run is the longest run of equal entries at the end of a history |
| CircuitBreakers.CountersRefineHistory | agent_kernel/circuit_breaker.py:38-70 | after any calls, the counter of a key's latest fingerprint is its trailing run, the key's other counters are zero, and the last call fires exactly when that run reaches the limit |
| Sessions.SessionsCount | agent_kernel/circuit_breaker.py:38-53 | over the whole life of a kernel the error counters are those of all failures routed in all its sessions |
| Sessions.RuleFiresIff | agent_kernel/kernel.py:602-608 | the repeated-error rule fires on a failure exactly if the latest failure routed for its task id, in this or any earlier session, had the same fingerprint |
| Sessions.RuleAborts | agent_kernel/kernel.py:602-608 | a failure on which the rule fires aborts the run, whatever the router decided |
| Sessions.FirstFailureFiresIff | agent_kernel/kernel.py:602-608 | on a run's first failure for a task id the rule fires exactly if the breaker came with a counter for it |
| Sessions.EarlierFailureAborts | agent_kernel/kernel.py:602-608 | the failure that a run routed last for a task id aborts a later run on the same kernel when it is the first one routed there for that id |
| Sessions.StepKeepsProgress | agent_kernel/circuit_breaker.py:34-36 | over a whole step the last cycle with progress never runs backwards |
| Sessions.StaleProgressSilences | agent_kernel/circuit_breaker.py:72-87 | if the last progress of an earlier run came less than STAGNATION_CYCLES before the end of a later run's budget, the cycle gap of the later run never reaches the limit |
| Stalled.GapOutOfReachIff | agent_kernel/circuit_breaker.py:72-87 | for a budget and a last cycle with progress, no run's cycle gap reaches the limit exactly if the budget ends less than the limit after that cycle |
| PlanInvariant.FinishKeeps | agent_kernel/kernel.py:542-543 | finishing a task whose dependencies are finished keeps the plan well formed |
| PlanSteps.ReplannedShape | agent_kernel/kernel.py:374-389 | the tasks after a replan are the staying ones in order, with the retry policy spelled out, and one new task |
| PlanSteps.ReplanKeeps | agent_kernel/kernel.py:310-389 | a replan keeps the plan well formed and removes the failed object |
| PlanSteps.RouteFailureKeeps | agent_kernel/kernel.py:579-703 | the whole failure path keeps the plan well formed |
| PlanBatches.AssignIdsKeeps | agent_kernel/kernel.py:271-289 | a batch gets new, distinct ids |
| PlanBatches.AppendSubgoalsKeeps | agent_kernel/kernel.py:271-308 | appending a batch keeps the plan well formed and leaves the old tasks alone |
| PlanBatches.AppendTasksKeeps | agent_kernel/kernel.py:215-240 | so does appending loose tasks |
| PlanBatches.StepKeepsPlan | agent_kernel/kernel.py:391-703 | every step keeps the plan well formed: distinct ids and objects, no cycle, dependencies present, dependencies of finished tasks finished |
| MintedIds.BatchIdsFreshIff | agent_kernel/kernel.py:274-289 | for any planner, the ids of a batch are distinct and new exactly if no minted id was in use |
| MintedIds.MintedIdClash | agent_kernel/kernel.py:282-284 | a planner that uses the next minted id gets two tasks with that id |
| MintedIds.StepDuplicatesId | agent_kernel/kernel.py:271-308 | a first step whose planner uses the next minted id and one name twice leaves a plan with two tasks of one id |
| StepIds.ReplanUniqueIff | agent_kernel/kernel.py:310-389 | a replan keeps the ids distinct exactly if the replacement's id is in use by no task that stays |
| StepIds.StepIdsIff | agent_kernel/kernel.py:391-703 | for any planner, a step keeps the ids of the plan distinct exactly if every id it mints, for a batch, for loose tasks or for a replacement, is free |
| MintedIds.CheckedDependenciesIff | agent_kernel/schemas.py:149-152 | a batch task has exactly the dependencies that were checked, unless it was checked with none and its inputs bring some |
| StepFrame.RouteFailureFrame | agent_kernel/kernel.py:591-703 | a routed failure counts one error and leaves one routing entry and possibly one retry entry; a break by either rule aborts the run |
| TaskLives.ResolveEvolves | agent_kernel/kernel.py:509-703 | after a reply every task is another one of before, unchanged up to the spelling of its policy, or the executed one in a legal next status, or new; finished tasks are still there |
| TaskLives.RetryEvolves | agent_kernel/kernel.py:611-647 | a retry or its refusal leaves every other task alone and advances the failed one by one attempt exactly if attempts are left |
| TaskLives.ResolveFrame | agent_kernel/kernel.py:509-703 | a reply keeps the budget, adds at most one routing and one retry entry to the ledger, counts at most one error, and completes the run only if all tasks are finished |
| Attempts.DelayStep | agent_kernel/kernel.py:100-110 | one more back-off adds up to exactly base_delay_ms * (2^n - 1) for an exponential policy, and n * base_delay_ms for any other |
| StepObjects.StepKeepsAttempts | agent_kernel/kernel.py:391-703 | every step keeps, for each object, executions and back-off bounded by its retries, and retries below max_attempts |
| StepOutcomes.FirstTask | agent_kernel/planner.py:10-54 | an empty plan gets one task that carries the goal, a planning task if the kernel has a goal planner; any other plan is left alone |
| StepOutcomes.CheckedIs | agent_kernel/kernel.py:406-422 | the check blocks every task with an issue unless it is finished or failed, readies every draft without one, and changes nothing else |
| StepOutcomes.HandedOver | agent_kernel/kernel.py:443-484 | the worker gets the picked task, marked running, with the budget added to its inputs where it is not there; nothing else in the plan changes |
| StepOutcomes.IntTextParses | agent_kernel/kernel.py:443-445 | the budget numbers handed to the worker can be read back |
| StepOutcomes.PassedStep | agent_kernel/kernel.py:551-564 | a task whose reply satisfies its criteria is done and nothing else in the plan changes; the run is completed exactly if every other task is finished |
| StepOutcomes.CompletesIff | agent_kernel/kernel.py:551-564 | a step that calls the worker completes the run exactly if the called task is no planning task, its reply satisfies it, and every other task is finished; the goal is then done and no error is left |
| StepOutcomes.IdleStep | agent_kernel/kernel.py:397-437 | a step that calls no worker ends the run: exhausted, completed, aborted for a failed task, waiting for a blocked one, or aborted as a last resort |
| PlanOutcomes.PlannedStep | agent_kernel/kernel.py:271-308 | a planner's reply that compiles is appended entry by entry: ids, texts, kinds, inputs, checks, policies, and the dependencies on what the batch or the plan names; the planning task is done and the run goes on |
| PlanOutcomes.CheckedBatch | agent_kernel/kernel.py:242-268 | what is checked of each entry before it is appended: its tool, or else its executor, its checks and its dependencies |
| PlanOutcomes.NextId | agent_kernel/kernel.py:274-289 | an entry keeps its name if it is new to the plan and the entries before it, and otherwise gets the next minted id, to which later mentions of the name are redirected |
| PlanOutcomes.RemapIs | agent_kernel/kernel.py:290-294 | dependencies are renamed as the ids were, and those that then name nothing are left out |
| PlanOutcomes.LooseStep | agent_kernel/kernel.py:215-240 | without subgoals, exactly the described tasks of the reply are appended in order, with consecutive minted ids |
| PlanOutcomes.PlanFailsStep | agent_kernel/kernel.py:509-549 | a plan that does not compile is not appended: the planning task is replanned with constraints |
| ReplanOutcomes.ReplannedIs | agent_kernel/kernel.py:327-389 | after a replan the plan is every task that is finished or not downstream of the failed one, in order, and one new task: delegated, a planning task with the goal and the failed task's id; otherwise the failed task's work without `force_fail` and with an instruction |
| ReplanOutcomes.AfterReplanIs | agent_kernel/kernel.py:310-389 | the plan is rewritten in this way, unless the same replacement was tried twice in a row already: then the task fails and the run is aborted |
| ReplanOutcomes.SyncedIs | agent_kernel/kernel.py:58-69 | a task that stays keeps everything but the spelling of its policy; statuses that no subgoal has are replaced |
| FailureOutcomes.FailedStep | agent_kernel/kernel.py:579-703 | a worker's failure aborts, retries, parks or replans as its text and the history say; a stagnant run is aborted on top of that |
| FailureOutcomes.FailureIff | agent_kernel/failure_router.py:42-95 | the same object is scheduled again exactly if the failure is new, transient, asks for nothing of the user, attempts are left and the run is not stagnant; the run waits for the user, and a new task is added, exactly under the complementary conditions |
| FailureOutcomes.RetryPartIff | agent_kernel/kernel.py:611-636 | a retry is logged exactly if the failure is new and transient and attempts are left |
| TraceOutcomes.ClassifyIs | agent_kernel/failure_router.py:42-95 | the third occurrence of a fingerprint breaks the circuit, a compile issue of the task asks for input, and otherwise the first keyword list with a hit decides the category, which decides the action |
| TraceOutcomes.FailureLogs | agent_kernel/kernel.py:579-703 | the exact trace entries of a failure: the decision, the retry with its back-off, its refusal, the fallback, the replan, and the break of the circuit |
| TraceOutcomes.PlanFailsLogs | agent_kernel/kernel.py:509-578 | the exact trace entries of a plan that does not compile |
| TraceOutcomes.CallLogs | agent_kernel/kernel.py:391-508 | up to the reply a step logs the planning, one entry with exactly its issues for every task it blocks, in order, and the call |
| TraceOutcomes.IdleLogs | agent_kernel/kernel.py:391-437 | the exact trace entries of a step that calls no worker |
| Runs.PlanAlwaysWellFormed | agent_kernel/kernel.py:271-389 | in every reachable state ids are distinct, the dependency graph is acyclic, every dependency is a task of the plan, and what a finished task depends on is finished |
| Runs.WorkerSeesFinishedDependencies | agent_kernel/kernel.py:151-174 | the worker is only ever handed an unfinished task whose dependencies are all finished |
| Runs.FinishedTasksStay | agent_kernel/kernel.py:407-422 | a done or skipped task is never removed or changed by any later steps |
| Runs.StepLeavesNoneRunning | agent_kernel/kernel.py:509-703 | a step that returns leaves no task running |
| Runs.StepRaisesIff | agent_kernel/kernel.py:521-588 | a step raises exactly if a planning task's worker reports success and nothing of its reply becomes a task |
| Progress.RunnableIff | agent_kernel/kernel.py:151-168 | with distinct task objects, a task can run exactly if it is neither finished, failed, blocked nor running and every dependency is finished |
| Progress.PickIsLeast | agent_kernel/kernel.py:162-174 | if any task can run, one is picked; its priority number is least, among equal numbers its id is least, and among equal ids its position |
| Progress.CalledIsLeast | agent_kernel/kernel.py:162-174 | the task that a step hands to the worker can run, and is that least one |
| Progress.NoDeadlock | agent_kernel/kernel.py:424-437 | with distinct ids and nothing runnable, the last resort is reached exactly if a task was left running and none has failed or is blocked |
| Progress.NeverDeadlocks | agent_kernel/kernel.py:424-437 | in a run in which no step raised, the last resort is never reached |
| Progress.StepBudget | agent_kernel/kernel.py:397-404 | a step that calls the worker costs exactly one budget step; any other step ends the run |
| Progress.RunEnds | agent_kernel/kernel.py:705-713 | `run` ends for every worker in a final status or by an exception, within the remaining budget of worker calls; a completed run has finished every task |
| Progress.RunIsTurns | agent_kernel/kernel.py:705-713 | `run` answers what the first step answers that raises, ends the run or uses no budget; all steps before it go on |
| Stranded.EmptyPlanStrandsRun | agent_kernel/kernel.py:436-588 | a first reply without a plan raises, strands the task, and makes the next step abort the run |
| Guarantees.AttemptsBounded | agent_kernel/kernel.py:611-647 | over any run each object is executed at most max_attempts times, and its total back-off is at most that of max_attempts - 1 retries, even after it has left the plan |
| Guarantees.BackoffExact | agent_kernel/kernel.py:100-110 | in every reachable state the total back-off of a task is exactly that of its retries, doubling or flat as its policy says |
| Guarantees.FailuresRoutedAtMostThrice | agent_kernel/kernel.py:579-608 | over any run a fingerprint is routed at most three times; a third routing, or two equal routings in a row for one task id, leave the run aborted |
| Guarantees.StepKeepsRouting | agent_kernel/kernel.py:579-694 | every step, on a breaker with any history, keeps the invariant that the latest failure routed for each task id is still counted, no fingerprint is routed more than twice and none twice in a row while the run is not aborted |
| Guarantees.AbortedForGood | agent_kernel/kernel.py:397-398 | an aborted run stays aborted, calls no worker and routes no failure |
| Kernel.AgentKernel.CheckAndMark | agent_kernel/kernel.py:406-422 | reports exactly the defects of the plan, blocks every unfinished task that has one, readies every draft that has none, and logs the blocked ones in order |
| Kernel.AgentKernel.MarkAll | agent_kernel/kernel.py:407-422 | the marking loop leaves each task marked as its own issues demand, and one trace entry per blocked task |
| Kernel.AgentKernel.PickRunnable | agent_kernel/kernel.py:162-174 | the scan returns the least of the tasks that can run, by priority number, id and position, or nothing if none can |
| Kernel.AgentKernel.CompileBatch | agent_kernel/kernel.py:274-294 | the id loop and the renaming loop compute the batch for which freshness and closure are proved |
| Kernel.AgentKernel.AppendGeneratedSubgoals | agent_kernel/kernel.py:271-308 | appends the whole compiled batch with new objects, or leaves the state alone and reports the compile issues |
| Kernel.AgentKernel.AppendGeneratedTasks | agent_kernel/kernel.py:215-240 | appends the described specs in order with consecutive minted ids and moves the counter past them |
| Kernel.AgentKernel.HandleLocalReplan | agent_kernel/kernel.py:310-389 | counts the replan action and either rewrites the plan or, if the action has repeated, fails the run with the plan left as it was |
| Kernel.AgentKernel.TakePlan | agent_kernel/kernel.py:509-549 | a planning reply is rejected, appended as subgoals, appended as loose tasks, or raises |
| Kernel.AgentKernel.Fail | agent_kernel/kernel.py:579-703 | routes, counts and logs the failure, breaks the circuit or performs the transition, and then checks for stagnation |
| Kernel.AgentKernel.RunStep | agent_kernel/kernel.py:391-703 | one step in place equals the step function, on state, breaker and outcome |
| Kernel.AgentKernel.Run | agent_kernel/kernel.py:705-713 | the loop in place equals the run function |
| WorkspacePaths.ResolvedAgain | agentlib/patch_executor.py:25-36 | a resolved path resolves to itself exactly if it has no trailing blank |
| WorkspacePaths.ParentCancels | agentlib/patch_executor.py:25-36 | `a/../b` resolves to `b` in the workspace |
| WorkspacePaths.NeighbourIsOutside | agentlib/patch_executor.py:25-36 | a path that leaves the workspace for a neighbour is refused |
| WorkspacePaths.TrailingBlankPath | agentlib/patch_executor.py:25-36 | every workspace has paths that resolve differently the second time |
| WorkspacePaths.TwiceBlankPath | agentlib/patch_executor.py:25-36 | every workspace has paths whose first three resolutions are three different files |
| PatchSpec.FoldedPerFile | agentlib/patch_executor.py:107-174 | the fold of all operations treats each file by the operations aimed at it alone |
| PatchContents.ApplyContents | agentlib/patch_executor.py:133-152 | after a successful `apply` a file holds the text of the last write aimed at it, or nothing after a deletion, or else what it held before, followed by the texts of the later appends in order; it is absent exactly if there is neither |
| PatchContents.StoppedContents | agentlib/patch_executor.py:107-174 | where `apply` stops, the operations before the failed one are performed in full, and of the others only the failed one may have changed its target |
| PatchContents.TransactionContents | agentlib/patch_executor.py:184-293 | a transaction that succeeds leaves that content in every file |
| PatchContents.SuccessReports | agentlib/patch_executor.py:153-174 | a successful `apply` reports the kinds of all operations in order, and the files they aim at, each once, in the order of first mention |
| PatchReports.TouchedAre | agentlib/patch_executor.py:184-222 | the touched paths are the targets of the operations and then the hints, in order and without blanks |
| PatchReports.StopReports | agentlib/patch_executor.py:107-152 | an `apply` that fails stops at the first operation that cannot be performed, says which and why, and reports the files and kinds of those before it |
| PatchReports.TransactionReports | agentlib/patch_executor.py:184-293 | the report of a transaction tells its outcome: which files are named as changed, which error, and whether a rollback took place |
| PatchReports.RaisesIff | agentlib/patch_executor.py:223-293 | a transaction raises exactly where a capture fails, before applying, after applying, or after a rollback |
| PatchSpec.ApplySucceedsIff | agentlib/patch_executor.py:107-174 | `apply` succeeds exactly if every operation can be performed and is, and then it has performed them all |
| PatchSpec.ApplyFrame | agentlib/patch_executor.py:107-174 | whatever fails, only targets of operations before the first impossible one change |
| PatchSpec.CapturedIff | agentlib/patch_executor.py:52-73 | a capture returns exactly if every path resolves and can be read |
| PatchSpec.CapturedHas | agentlib/patch_executor.py:52-73 | a snapshot holds exactly the resolutions of its paths, with their contents |
| PatchSpec.RestoreReads | agentlib/patch_executor.py:75-100 | a rollback reports ok exactly if every key resolves and no restore failed; each file ends with the content of the last key that resolves to it or with what a failed restore left, and no other file is touched |
| PatchAtomicity.RollbackUndoesIff | agentlib/patch_executor.py:75-100 | a rollback that reports ok undoes all changes exactly if every file it writes last gets its own content and every other changed file was not changed |
| PatchAtomicity.AllOrNothingIff | agentlib/patch_executor.py:184-293 | for every list of operations and hints: the transaction is all-or-nothing on all files, whatever fails, exactly if every file that the operations or the rollback write to owns its snapshot, or some touched path cannot be resolved three times over |
| PatchAtomicity.UnsafeFails | agentlib/patch_executor.py:184-293 | otherwise there are files and conditions under which the rollback reports ok and the files have changed |
| PatchAtomicity.TransactionAllOrNothing | agentlib/patch_executor.py:184-293 | it suffices that the targets of the operations are stable, and what the touched paths resolve to |
| PatchAtomicity.TransactionFrame | agentlib/patch_executor.py:184-293 | whatever fails, a file that no reached operation aims at and no snapshot key resolves to is untouched |
| PatchSpec.SucceedsIff | agentlib/patch_executor.py:184-293 | success holds exactly if no path is touched, or all paths resolve and stay readable, every operation can be performed and is, and the result verifies |
| PatchSpec.OutsideIff | agentlib/patch_executor.py:223-239 | a path outside the workspace is reported exactly if one is touched, before anything is read or written |
| PatchAtomicity.FailedWriteTraces | agentlib/patch_executor.py:223-258 | a write followed by a malformed operation, for every chain of three resolutions: the exact report, when it leaves no trace, and which other file gets overwritten or deleted |
| PatchAtomicity.PosixAllOrNothing | agentlib/patch_executor.py:184-293 | all-or-nothing on POSIX if no operation's path resolves to a name with a trailing blank, and no touched path does so when resolved twice |
| PatchAtomicity.TrailingBlankEscapes | agentlib/patch_executor.py:25-36 | the failing family: `name /.` in every workspace |
| PatchAtomicity.RollbackDeletesAnother | agentlib/patch_executor.py:75-100 | with `name /. /.` in every workspace, a rollback that reports ok deletes the file `name` if there is no file `name ` |
| PatchTransaction.RollbackManager.Capture | agentlib/patch_executor.py:52-73 | the loop returns the specified snapshot, or nothing where it raises, and changes no file |
| PatchTransaction.RollbackManager.Rollback | agentlib/patch_executor.py:75-100 | the loop restores entry by entry, goes on after an error, and reports ok as specified |
| PatchTransaction.PatchExecutor.Apply | agentlib/patch_executor.py:107-174 | the loop updates the files operation by operation, stops at the first error, and on success leaves in every file the content its writes, deletions and appends demand |
| PatchTransaction.PatchExecutionTransaction.Run | agentlib/patch_executor.py:184-293 | the whole transaction in place equals the transaction function, and on success every file has the content the operations demand |
| Inbox.StepKeepsClaims | agentlib/chat_bridge.py:139-160 | every atomic step keeps each message claimed at most once, and a claimed one out of `new` |
| Inbox.DispatchedAtMostOnce | agentlib/chat_bridge.py:139-160 | in every interleaving each message is handed over at most once, and is never new again |
| Inbox.DoneIsDisciplined | agentlib/chat_bridge.py:57-65 | status writes other than `new` never endanger this |
| Inbox.ClaimedOnceIff | agentlib/chat_bridge.py:139-160 | all along a run every message is claimed at most once and a claimed one is not new, exactly if no status write makes a claimed message new |
| Inbox.ResetRunDispatchesTwice | agentlib/chat_bridge.py:57-65 | from every initial state with two pullers and a new message a run sets the message to `new` after its dispatch and dispatches it twice |
| Inbox.NeverTwiceIff | agentlib/chat_bridge.py:57-65 | no run from any table dispatches a message twice exactly if `new` is not among the statuses that callers write |
| Inbox.EventsAreRows | agentlib/chat_bridge.py:145-157 | every event handed over is the stored row of its id, however stale the batch |
| Inbox.PassIsRun | agentlib/chat_bridge.py:150-157 | the loop over a batch, undisturbed, is a run of the protocol |
| Inbox.OldestFirst | agentlib/chat_bridge.py:139-149 | with different timestamps, the k-th row of a batch is the new row that has exactly k older new ones |
| Inbox.AnswerSize | agentlib/chat_bridge.py:139-149 | a batch has all new rows, or five of them |
| Inbox.ChatInbox.Claim | agentlib/chat_bridge.py:151-153 | the guarded UPDATE changes a row exactly if it is new |
| Inbox.ChatInbox.PullBatch | agentlib/chat_bridge.py:150-157 | the loop claims and hands over exactly the rows of the batch that are still new |
| Metrics.RecallBoundedIff | rag_offline/common.py:31-37 | recall never exceeds one, whatever is relevant, exactly if the first k predictions have no duplicate |
| Metrics.RecallIs | rag_offline/common.py:31-37 | without duplicates recall is the share of the relevant ones that are among the first k predictions |
| Metrics.GainBound | rag_offline/common.py:52-56 | the gain is at most that of as many hits in front, with equality exactly if they are in front |
| Metrics.NdcgBounds | rag_offline/common.py:48-61 | for duplicate-free predictions nDCG is in [0, 1], and one exactly if the first min(gold, k) predictions are all relevant |
| Metrics.NdcgPerfect | rag_offline/common.py:48-61 | nDCG is one exactly if the predictions begin with relevant ones, as many as there are and as fit into the first k |
| Metrics.NdcgOfOne | rag_offline/common.py:48-61 | with one relevant prediction nDCG is the discount of its rank, relative to the first |
| Metrics.NdcgBoundedIff | rag_offline/common.py:48-61 | nDCG is at most one for every relevant set exactly if the first k predictions have no duplicate |
| Metrics.Recall | rag_offline/common.py:31-37 | the loop computes the recall that is bounded above |
| Metrics.NdcgAtK | rag_offline/common.py:48-61 | the two accumulation loops compute the nDCG that is bounded above |
| Ranking.SortedPermutes | agentlib/companion_rag.py:392 | sorting permutes the rows |
| Ranking.SortedDescending | agentlib/companion_rag.py:392 | sorting puts higher scores first |
| Ranking.SortedStable | agentlib/companion_rag.py:392 | sorting keeps the order of rows with equal scores |
| Retrieval.KeywordBest | agentlib/companion_rag.py:378-393 | exactly the matching texts qualify, each with the share of the query's terms it has; a matching text is returned unless the room is used up by rows that score at least as high |
| Retrieval.KeywordView | agentlib/companion_rag.py:378-393 | for every query the rows are knowledge base texts with scores in [0, 1], best first; a query without terms returns the first texts |
| Retrieval.MergeView | agentlib/companion_rag.py:432-445 | merging yields exactly one row for every text, with its best score, in descending order |
| Retrieval.CorrectedView | agentlib/companion_rag.py:448-462 | the filter keeps the best rows that reach the score, or else a single best row |
| Retrieval.DiverseView | agentlib/companion_rag.py:465-478 | accepted rows are pairwise at least the gap apart; every rejected row is closer than the gap to an accepted one that scores at least as high |
| Retrieval.ChosenView | agentlib/companion_rag.py:176-214 | over one or two passes, the chosen rows are ranked knowledge base texts with their best scores, and diverse if asked for |
| Retrieval.PackageView | agentlib/companion_rag.py:148-233 | at most top_k distinct texts of the knowledge base, the first chosen ones in order |
| RetrievalReports.CleanKbIs | agentlib/companion_rag.py:158 | the entries used are those that are not blank, stripped and in order |
| RetrievalReports.QueriesAre | agentlib/companion_rag.py:166-172 | the queries are the user's and then those of the second pass, different, not empty, in order of first mention, and none is left out below the limit |
| RetrievalReports.MergeOrder | agentlib/companion_rag.py:432-445 | merged texts with the same best score stay in the order of first mention |
| RetrievalReports.PackageReports | agentlib/companion_rag.py:157-233 | why nothing is retrieved, and which queries are reported |
| RetrievalLoss.KeywordCoversIff | agentlib/companion_rag.py:378-393 | for every query a text matches, keyword retrieval returns it or n texts that score as high, exactly if no fewer than n other texts, with their copies, fill the pool |
| RetrievalLoss.SafePoolIff | agentlib/companion_rag.py:378-393 | with n the size of the pool, this holds exactly if the pool has one place, or the other entries are all different, or leave a place free |
| RetrievalLoss.PackageBest | agentlib/companion_rag.py:148-233 | in every configuration a text that matches a query well enough is in the package, or the package is full of texts that score at least as high, or holds such a text closer than the gap, if the other entries cannot crowd it out of the pool |
| RetrievalLoss.SecondPassServes | agentlib/companion_rag.py:189-211 | if the best score of the first pass is below the limit, a text that matches a second-pass query well enough is served as well |
| RetrievalLoss.FirstPassAlone | agentlib/companion_rag.py:189-211 | after any other first pass the package is that of the first pass alone |
| RetrievalLoss.UnkeptIsLost | agentlib/companion_rag.py:148-233 | otherwise, for every user text and second pass outside the knowledge base, there is a tokenizer under which the text matches and is lost |
| RetrievalLoss.PackageBestIff | agentlib/companion_rag.py:148-233 | so a text is always served exactly if, without diversity, no fewer than top_k other texts fill the pool, and with diversity, all other entries leave a place free |
| Retrieval.PackageMetrics | rag_offline/common.py:31-61 | so recall and nDCG of a package never exceed one |
| Retrieval.RetrieveKeyword | agentlib/companion_rag.py:378-393 | the loop scores, skips and sorts as specified by the function whose view is proved |
| Retrieval.MergeScored | agentlib/companion_rag.py:432-445 | the dict loop yields the merged rows, one per text |
| Retrieval.ApplyDiversity | agentlib/companion_rag.py:465-478 | the nested loop with its early exit picks exactly the diverse rows |
| Retrieval.BuildRagPackage | agentlib/companion_rag.py:148-233 | queries, both passes, merging, filtering, diversity and the cut compose to the specified package |
| ToolHealth.UpdatedSummarises | agent_kernel/worker.py:312-342 | one more invocation keeps the statistics equal to those of the full history |
| ToolHealth.HealthSummarises | agent_kernel/worker.py:312-342 | after any invocations ok + fail = calls, the window is the last 30 outcomes, and the cooldown is set exactly if the last three outcomes of the whole history failed |
| ToolHealth.ExpertsSummarise | agent_kernel/worker.py:226-238 | after any results the counters, latency, cost and 20-entry window of every expert are those of its full history |
| ToolHealth.WindowsAre | agent_kernel/worker.py:226-342 | the window of a tool holds its last 30 outcomes, that of an expert its last 20 errors, oldest first |
| ToolHealth.RouteScoreUnit | agent_kernel/worker.py:366-407 | every reachable route score lies in [0, 1] |
| RouteOrder.ExpertOrder | agent_kernel/worker.py:209-218 | with equal statistics the planner scores higher exactly for plans, and, unless it is code, for high risk; the two scores are never equal |
| RouteOrder.ScoreGrows | agent_kernel/worker.py:366-407 | the score never falls when no statistic is worse, and rises when the success rate, latency, cost above one, recent errors or the tool's success rate is better |
| RouteOrder.ScoreGap | agent_kernel/worker.py:386-394 | how much each statistic contributes to the gap between two scores |
| RouteOrder.ErrorsAre | agent_kernel/worker.py:374-375 | the error rate is that of the recent calls, or of all calls if there are no recent ones |
| RouteOrder.KindGap | agent_kernel/worker.py:209-218 | how much the kind of the task contributes for each expert |
| RouteOrder.LatencyScoreIs | agent_kernel/worker.py:380 | the latency score is one without latency, and a half at 1200 ms |
| RouteOrder.CostScoreIs | agent_kernel/worker.py:220-238 | after any results the planner's cost scores one, and that of any other expert 10/28 |
| RouteOrder.OneTool | agent_kernel/worker.py:312-342 | invocations count for the same tool whatever the case of its name and the white space around it |
| RouteOrder.CooldownCosts | agent_kernel/worker.py:395-396 | a tool in cooldown takes three tenths off the score |
| ToolHealth.ToolSuccessIff | agent_kernel/worker.py:377-378 | the score uses the recent success rate exactly if a recent call succeeded; otherwise it uses 1.0 |
| ToolHealth.SpecialistRouter.RecordToolInvocation | agent_kernel/worker.py:312-342 | after the update in place the statistics of the tool are those of its full history, including this call, and nothing else changes |
| ToolHealth.SpecialistRouter.RecordExpertResult | agent_kernel/worker.py:226-238 | after the update in place the statistics of the expert are those of its full history, including this result |

## Left out

- Runs.FinishedTasksStay: does not model in-place identity; a replan rewrites the retry policy of a finished task in its spelled-out form, and the statement is up to that spelling.
- Inbox.DispatchedAtMostOnce: does not model SQLite transactions; the guarded UPDATE and its commit are one atomic step.
- PatchAtomicity.RollbackDeletesAnother: does not model that the write also creates the directory `name `, so that the capture after the rollback raises; the statement covers a run that raises there.
- ToolHealth.RouteScoreUnit: does not model `round(…, 4)` and floating point.
- RetrievalLoss.PackageBestIff: does not say when a text is lost if the corrective score or the gap is one or more; `RetrievalLoss.PackageBest` covers these configurations.
- Metrics.NdcgBounds: does not model the logarithm; it holds for any positive, strictly decreasing discount.
- Task objects are values with an identity number in a list; two list entries that share one object are not represented. Reachable plans have pairwise distinct objects.
- Issue messages, hints and severities (every issue of the check is an error); contracts of the compile check say which issues are reported, not in which order or how often.
- Artifacts, the waiting question, timestamps, durations, hashes, tool invocation details and the affected-node list in the trace.
- Evaluation of success criteria, keyword lists, fingerprints and the clock: arbitrary inputs of a step.
- Exceptions raised by the worker, by foreign payload values, or by recursion depth; a worker that changes the task it is given.
- Status strings in mixed case, negative sequence numbers, dependency values that are not lists of strings.
- `max_attempts` and `base_delay_ms` of the retry policy are integers and 0 or "" stand for a missing key; the `failure_modes` of a subgoal.
- How the action fingerprint of a replan is computed: in the code it contains the failing task's id, in the model it is any string.
- Checkpoints and JSON persistence; `Judge` and `StatePatch`; `action_plan_gate_check` and the experts inside the specialist router.
- Directories, symbolic links, encodings and file/directory conflicts in the patch executor; a verification command that itself changes files; timing and audit fields of the report.
- `_verify` of the patch transaction is an arbitrary predicate on the files and the reported paths.
- Feedback polling, outbox writes and message parsing in the chat bridge; a message claimed and then lost to an exception stays claimed, as in the code.
- Embedding and hybrid retrieval, tokenising, the construction of second-pass queries (an arbitrary list, the same in both passes) and the trace lines of the pipeline; `mrr_at_k`.
- `recent_errors` of the tool health (an update that never retains an entry), and the ranking of experts by their scores.
