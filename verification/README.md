# GeoRisk: workflow engine, evidence ledger and supporting cores, verified in Dafny

This project models the parts of the GeoRisk platform that carry its guarantees, and proves them for every input,
every executor behaviour and every run:

- **The workflow engine.** A published template is a graph of stages; an assessment carries a lifecycle and one small
  state machine per stage; the engine issues separately committed commands from four mutually recursive steps
  (dispatch, execute, on-completed, on-failed) over a store that nested calls keep changing.
- **The evidence ledger and the outbox.** Analysis stages append versioned results while the workflow's RUNNING status
  acts as a lock; every command appends numbered events.
- **Sampling and planar geometry.** Stratified allocation with rounding, rejection sampling, ray casting, the shoelace
  area, weighted centroids.
- **Three smaller stateful cores.** The rate limiter with its fallback, keyset pagination, and version chains.

`dafny verify dfyconfig.toml` checks everything.

## How it is organised

| files | what they hold |
|---|---|
| `Results`, `Stages`, `Templates`, `Assessments` | the domain: values, state machines, the template and assessment aggregates as classes |
| `CommandMeanings` | what every command and handler answers, written out status by status |
| `Replay`, `OutboxLog` | what an event log says, and its agreement with the stored rows |
| `Platform`, `Gathering`, `Evidence` | the stored world, each atomic command, the analysis pipeline, the ledger's agreement with the workflow |
| `Engine`, `Services` | the engine as functions on the world, and the handlers and the engine as methods proved equal to them |
| `EngineRuns`, `EngineTheorems`, `WorkflowGuarantees`, `StartOrder` | every engine run is a path of legal steps; what it settles into; in which order stages start |
| `AttemptBounds`, `BoundAttained`, `RetryBudgets`, `BudgetExceeded`, `BudgetSeries` | how often a stage is attempted: the bound, its tightness, and exactly when the retry budget is one |
| `Interleavings`, `RunningLock`, `Requests`, `LifecycleGuarantees`, `Scenarios` | arbitrary interleavings of atomic actions and of the engine calls of many callers; arbitrary series of public operations |
| `Geometry`, `Sampling`, `Campaigns` | rings, areas, centroids, allocation and point generation |
| `Pagination`, `RateLimiting`, `VersionChains` | the smaller cores |

The engine is written twice: as methods on a database object (`Services`), in the form the code has, and as functions
on a value `World` (`Platform`, `Engine`). Each method's contract says that it does exactly what its function says, and
the theorems are about the functions. Small facts that read definitions back (`LifecycleIsLinear`, `CommandsStep`,
`StartAcceptedIff`) are not in the table.

## What it assumes

- Each handler's load, check, change, save, append and commit is one atomic step. The version check of `save` is
  modelled, and never fires when steps are atomic.
- Ids are positions in the stored sequences; they stand for fresh random ids. Timestamps, `updated_at` and logging are
  dropped, so rows "newest first by creation time" are rows in reverse ledger order.
- The template catalogue is fixed while requests run; authoring is modelled separately (`Templates.WorkflowTemplate`).
- A stage runs the analysis pipeline or an arbitrary executor, given by a function of the stored world at that moment,
  which every attempt changes first; hazard strategies (their versions, `dependencies`, `compute`, the input provider,
  which stages use history) are arbitrary functions.
- The result handler does not raise past its own boundary: the executor turns such an exception into a failed attempt
  without a row (workflow_stage_executors.py:202-217), so that versions would be fewer than attempts.
- The random source is arbitrary: at each reading any number between the bounds asked for.
- Floating-point numbers are reals; Python's `round` is rounding half to even. The `1e-15` added to a denominator in
  `point_in_ring` is dropped (an edge that straddles the line has a non-zero denominator), and the metres-per-degree
  scale, which uses a cosine, is an arbitrary function of the latitude.
- The rate limiter's clock is read in whole seconds and does not go back, once for Redis and once more for the fallback;
  a Redis key names its window and outlives it.

## Where code and documentation disagree

The model follows the code. Each of these comes with the exact condition under which the promise holds, and with an input
at which it fails.

- A retry is documented as bounded by `max_attempts` (workflow_value_objects.py:70-75), and an exhausted stage as waiting
  for manual intervention. Dispatch re-admits FAILED stages whose budget is spent, whenever another stage completes.
  `BudgetKeptIff`: over all series of requests in which nobody triggers the stage itself, for every executor, the budget
  bounds the attempts of an automatic stage if and only if
  - nothing is triggered on the assessment: all that dispatch can complete without the stage are transitive predecessors of it;
  - users trigger only stages whose predecessors are COMPLETE: the same for all that the template, trigger modes aside, can complete;
  - users trigger anything: every other stage type there is, in the template or not, is a direct predecessor of it.

  `ManualStageBreaksBudget` and `ForeignStageBreaksBudget` are two small templates that tell these cases apart. What
  always holds is `max_attempts + n - 1` for n stages during the start request (`AttemptsBounded`), which is attained
  (`BoundReached`), and `max_attempts` plus one for each other stage type over a whole series (`SeriesBounded`).
- The aggregate is said to refuse RUNNING to VALIDATED unless every required stage is COMPLETE (entities.py:276-291). The
  plain validate command takes the same step without looking at the stages (`ForcedValidation`). `ValidatedCompleteIff`:
  an assessment past RUNNING has all its stages COMPLETE if and only if that command was never accepted on it.
- A user is said to trigger a stage that is runnable (routes.py:328 of the assessment interface). A trigger does not check
  predecessors (`TriggerSkipsPredecessor`). `TriggeredStartsReadyIff`: all starts of a triggered run have COMPLETE
  predecessors if and only if the triggered stage had when it was triggered.
- "Sample count matches declared strategy parameters": allocation adds up to the total, but the count of the largest
  stratum can become negative, and then more points are produced. `ExactPoints` gives the exact condition (`EqualPoints`
  for equal allocation), `UniformPoints` the one for equal strata, `SampleSizeMissedOnce` an instance within the platform's limits.
- EQUAL allocation with a repeated label misses the total (`EqualSums`, if and only if).
- Cataloguing an existing dataset name plainly breaks its version chain for good (`ChainIffClean`, if and only if).

## Model

| member | source | states |
|---|---|---|
| `WorkflowGuarantees.SuccessReachesClosure` | src/georisk/contexts/assessment/application/workflow_engine.py:112-251 | after a start in any consistent world: no failure is logged if and only if the COMPLETE stages are exactly the least set closed under "automatic with COMPLETE predecessors", each attempted once and every other stage never; and then VALIDATED iff that set is the whole template |
| `WorkflowGuarantees.StartedWorkflowSettles` | src/georisk/contexts/assessment/application/workflow_engine.py:112-281 | for any executor, an accepted start raises nothing later; no stage is left running; each automatic stage with COMPLETE predecessors is COMPLETE, or FAILED after at least the `max_attempts` of its own definition; only stages of the automatic closure, with COMPLETE predecessors, were touched; VALIDATED iff all complete; other assessments unchanged |
| `WorkflowGuarantees.AttemptsBounded` | src/georisk/contexts/assessment/application/workflow_engine.py:195-281 | with distinct stage types, during the start request a stage is attempted at most as often as its own definition's `max_attempts` plus n - 1, and never if it is not in the template |
| `BudgetSeries.SeriesBounded` | src/georisk/contexts/assessment/application/workflow_engine.py:112-281 | with distinct stage types, over every series in which nobody triggers the stage itself, it is attempted at most as often as its own definition's `max_attempts` plus once for each other stage type there is |
| `BoundAttained.BoundReached` | src/georisk/contexts/assessment/application/workflow_engine.py:195-281 | for every template of independent automatic stages, every run in which the first stage never completes and no other fails reaches that bound exactly |
| `BoundAttained.FailsOnlyRuns` | src/georisk/contexts/assessment/application/workflow_engine.py:112-281 | an executor that fails for one stage only makes such runs |
| `BoundAttained.FailsOnlyExists` | src/georisk/contexts/assessment/application/workflow_engine.py:79-90 | such an executor exists, whichever stages run the analysis pipeline |
| `BudgetSeries.BudgetKeptIff` | src/georisk/contexts/assessment/application/workflow_engine.py:112-281 | over all series in which nobody triggers the stage, for every executor, its attempts stay within `max_attempts` if and only if what can complete without it comes before it; three conditions, for no triggers, triggers of ready stages and any triggers |
| `BudgetSeries.ManualStageBreaksBudget` | src/georisk/contexts/assessment/interface/routes.py:328-332 | beside an independent manual stage the budget of an automatic stage holds until someone triggers that ready stage |
| `BudgetSeries.ForeignStageBreaksBudget` | src/georisk/contexts/assessment/domain/entities.py:204-223 | alone on its template it holds until someone triggers a type the template does not have |
| `BudgetSeries.SeriesExceeds` | src/georisk/contexts/assessment/application/workflow_engine.py:126-281 | the exceeding series: start, trigger what comes before the stage, and then the rival if dispatch does not reach it |
| `RetryBudgets.StartBudget` | src/georisk/contexts/assessment/application/workflow_engine.py:112-281 | under the condition a start request, from any world, keeps the budget |
| `RetryBudgets.TriggerBudget` | src/georisk/contexts/assessment/application/workflow_engine.py:126-281 | under the condition a trigger of another stage that the scope allows keeps it |
| `RetryBudgets.OtherBudget` | src/georisk/contexts/assessment/application/workflow_engine.py:195-281 | under the condition a run of another stage attempts the stage within its budget, whatever it dispatches |
| `RetryBudgets.OnlyItself` | src/georisk/contexts/assessment/application/workflow_engine.py:195-237 | under the condition, once the stage is eligible every other stage that may be attempted is COMPLETE already |
| `BudgetExceeded.FreshExceeds` | src/georisk/contexts/assessment/application/workflow_engine.py:195-281 | otherwise, when the rival is dispatched too, starting a workflow exceeds the budget: the stage fails, and the rival fails until the last predecessor completes and then completes |
| `BudgetExceeded.FindRival` | src/georisk/contexts/assessment/domain/workflow_template.py:120-140 | if the condition fails there is a stage that needs only predecessors of the other one and is none of them |
| `RetryBudgets.AncestorsAreLeast` | src/georisk/contexts/assessment/domain/workflow_template.py:120-140 | the transitive predecessors are the least set that holds the predecessors of the stage and of its members |
| `StartOrder.StartedWorkflowJustified` | src/georisk/contexts/assessment/application/workflow_engine.py:217-237 | every stage start logged by a started workflow is in the engine's own name, and happened when the log up to it shows the assessment RUNNING, the stage startable, and all predecessors of an automatic definition of it COMPLETE, although the dispatch list is stale |
| `StartOrder.TriggeredRunJustified` | src/georisk/contexts/assessment/application/workflow_engine.py:126-175 | in a run entered by a trigger every start of another stage obeys the dispatch rule and is in the engine's name |
| `StartOrder.TriggeredStartsReadyIff` | src/georisk/contexts/assessment/application/workflow_engine.py:126-175 | every start of a triggered run, retries and dispatches included, has all predecessors of a definition of its stage COMPLETE, if and only if the triggered stage had when it was triggered |
| `StartOrder.TriggerSkipsPredecessor` | src/georisk/contexts/assessment/application/workflow_engine.py:126-145 | four requests leave a stage COMPLETE whose predecessor was never attempted, for every executor that succeeds for it |
| `EngineRuns.ExecutePath` | src/georisk/contexts/assessment/application/workflow_engine.py:126-175 | any execution that can be attempted is a path of legal attempts and at most one legal advance, raises nothing, and ends running or validated with all stages complete |
| `EngineRuns.DispatchPath` | src/georisk/contexts/assessment/application/workflow_engine.py:195-237 | the same for a dispatch: no illegal transition and no not-RUNNING error is ever raised |
| `EngineRuns.EachPath` | src/georisk/contexts/assessment/application/workflow_engine.py:219-237 | the same from any point of the loop, for any stale list whose stages were permitted when it was made |
| `EngineTheorems.ClosureIsLeast` | src/georisk/contexts/assessment/domain/workflow_template.py:120-140 | the automatic closure is closed under the dispatch rule and inside every set that is |
| `EngineTheorems.PathEvolves` | src/georisk/contexts/assessment/application/workflow_engine.py:126-281 | along any run COMPLETE entries are final, a changed stage was startable, permitted and attempted again, nothing outside the closure of the triggers completes, and nothing but this assessment's status and progress changes |
| `EngineTheorems.DispatchSettles` | src/georisk/contexts/assessment/application/workflow_engine.py:195-237 | after a dispatch every eligible stage is COMPLETE, running elsewhere, or FAILED after at least its own `max_attempts`; a workflow with all stages complete is no longer running |
| `EngineTheorems.ExecuteSettles` | src/georisk/contexts/assessment/application/workflow_engine.py:126-175 | after an execution the same holds, or only the executed stage changed and it failed with its budget spent |
| `AttemptBounds.DispatchRaises` | src/georisk/contexts/assessment/application/workflow_engine.py:195-281 | a dispatch raises a stage's attempts, counted from its own `max_attempts` less one, by at most one for each other stage that completes and one more |
| `Engine.AttemptEffect` | src/georisk/contexts/assessment/application/workflow_engine.py:126-168 | an attempt is refused without effect, exactly when the assessment is not visible and running or the stage not startable, or counts one attempt and ends COMPLETE or FAILED as the executor said |
| `Engine.AttemptRecords` | src/georisk/contexts/assessment/application/workflow_engine.py:137-168 | the whole entry an attempt leaves: the executor's reference on success; on failure the old reference and the executor's error text, or "stage execution failed" for a missing or empty one |
| `Engine.ExecutorRuns` | src/georisk/api/workflow_stage_executors.py:189-239 | an analysis stage succeeds iff the row just added is COMPLETE, and refers to it, or else carries its error; any other stage runs the arbitrary executor and leaves the store alone |
| `Engine.RetriedIff` | src/georisk/contexts/assessment/application/workflow_engine.py:253-281 | a failure is retried, in the engine's name, iff the attempts are fewer than `max_attempts` of the first definition of the failed stage |
| `Engine.AutomaticInOrder` | src/georisk/contexts/assessment/application/workflow_engine.py:217-221 | the dispatch list keeps exactly the automatic ones of the stages offered, in the same order |
| `Engine.AttemptSpends` | src/georisk/contexts/assessment/application/workflow_engine.py:126-281 | why the recursion terminates for every template and every outcome sequence: a success leaves fewer stages incomplete, a failure that is retried leaves fewer retries |
| `Services.WorkflowEngine.StartWorkflow` | src/georisk/contexts/assessment/application/workflow_engine.py:112-124 | leaves the database and error that the specification of a start gives |
| `Services.WorkflowEngine.ExecuteStage` | src/georisk/contexts/assessment/application/workflow_engine.py:126-175 | the same for executing a stage; terminates under the lexicographic measure of incomplete stages and retries left |
| `Services.WorkflowEngine.DispatchRunnableStages` | src/georisk/contexts/assessment/application/workflow_engine.py:195-217 | the same for a dispatch |
| `Services.WorkflowEngine.DispatchListed` | src/georisk/contexts/assessment/application/workflow_engine.py:219-237 | the same for the loop over the stale list, with the status re-read in each round |
| `Services.WorkflowEngine.OnStageCompleted` | src/georisk/contexts/assessment/application/workflow_engine.py:239-251 | the same for the reaction to a completion |
| `Services.WorkflowEngine.OnStageFailed` | src/georisk/contexts/assessment/application/workflow_engine.py:253-281 | the same for the reaction to a failure |
| `Services.WorkflowEngine.AttemptStage` | src/georisk/contexts/assessment/application/workflow_engine.py:137-168 | starting, running and recording one execution, as specified |
| `Templates.WorkflowTemplate.ValidateDag` | src/georisk/contexts/assessment/domain/workflow_template.py:83-109 | accepts iff predecessors are known and a topological order exists; the stages reported as cyclic are exactly the largest set waiting on itself, and contain a cycle; unknown predecessors are reported for the first stage that has some |
| `Templates.WorkflowTemplate.CheckPredecessors` | src/georisk/contexts/assessment/domain/workflow_template.py:84-91 | accepts iff every predecessor is a stage of the template, and otherwise reports all unknown predecessors of the first stage that has some |
| `Templates.WorkflowTemplate.ResolvePass` | src/georisk/contexts/assessment/domain/workflow_template.py:99-105 | one pass, in any order, keeps the resolved stages topologically ordered and either resolves more or leaves only waiting ones |
| `Templates.WorkflowTemplate.Create` | src/georisk/contexts/assessment/domain/workflow_template.py:50-81 | succeeds iff the name is not blank, there is a stage, and the graph is closed and acyclic; each error says which of these fails first |
| `Templates.WorkflowTemplate.Publish` | src/georisk/contexts/assessment/domain/workflow_template.py:142-148 | publishes a draft and refuses anything else without effect |
| `Templates.WorkflowTemplate.SelectRunnable` | src/georisk/contexts/assessment/domain/workflow_template.py:120-140 | the loop yields exactly the runnable definitions, in template order |
| `Templates.RunnableStages` | src/georisk/contexts/assessment/domain/workflow_template.py:120-140 | a definition is listed iff it belongs to the template, is NOT_STARTED or FAILED, and all its predecessors are COMPLETE |
| `Templates.RunnableInOrder` | src/georisk/contexts/assessment/domain/workflow_template.py:120-140 | the list is exactly the definitions at the places that can run, in template order |
| `Templates.FirstDefined` | src/georisk/contexts/assessment/domain/workflow_template.py:111-115 | looking a stage up finds the first definition of its type |
| `Templates.LastOverrides` | src/georisk/contexts/assessment/domain/workflow_template.py:96 | the graph takes a repeated type's predecessors from its last definition |
| `Templates.SomethingRunnable` | src/georisk/contexts/assessment/domain/workflow_template.py:120-140 | no deadlock: for an accepted graph with nothing running and something incomplete there is a runnable stage |
| `Templates.CycleExcludesOrder` | src/georisk/contexts/assessment/domain/workflow_template.py:93-109 | a graph with a cycle has no topological order |
| `Templates.StuckHasCycle` | src/georisk/contexts/assessment/domain/workflow_template.py:106-109 | stages that all wait on one another contain a cycle |
| `Templates.Definition` | src/georisk/contexts/assessment/domain/workflow_template.py:111-115 | finds a definition of the type iff the template has one |
| `Stages.WorkflowProgress.WithEntry` | src/georisk/contexts/assessment/domain/workflow_value_objects.py:186-188 | replaces one stage's entry and leaves every other as it reads |
| `Stages.EntryMovesLast` | src/georisk/contexts/assessment/domain/workflow_value_objects.py:186-188 | the replaced entry comes last, after exactly the entries of the other stages |
| `Stages.Initialize` | src/georisk/contexts/assessment/domain/workflow_value_objects.py:196-202 | every stage reads NOT_STARTED with no attempts |
| `Assessments.Assessment.Execute` | src/georisk/contexts/assessment/domain/entities.py:94-291 | each command on the aggregate moves it to the specified state with the specified events, or refuses and changes nothing |
| `CommandMeanings.CommandMeans` | src/georisk/contexts/assessment/domain/entities.py:94-291 | every command on every assessment, in literal statuses: exactly when it is accepted, the error of each refusal, the whole new state, with one fresh entry per stage on a binding, and the events |
| `CommandMeanings.CreationMeans` | src/georisk/contexts/assessment/domain/entities.py:67-92 | creation refuses exactly a name without a printing character, and otherwise adds a DRAFT with no workflow, and its event |
| `CommandMeanings.IssueStores` | src/georisk/contexts/assessment/application/handlers.py:79-214 | a command is not found exactly when the tenant has no such assessment; an accepted one becomes the next version of that row alone, its events the end of that history alone |
| `CommandMeanings.StartWorkflowMeans` | src/georisk/contexts/assessment/application/workflow_handlers.py:122-163 | the refusals in order, and then a binding of exactly the template's stage types |
| `CommandMeanings.AdvanceMeans` | src/georisk/contexts/assessment/application/workflow_handlers.py:241-274 | the refusals in order, and then the guarded advance over exactly the bound template's stage types |
| `Assessments.Assessment.StartWorkflowOn` | src/georisk/contexts/assessment/domain/entities.py:176-202 | binding a template: the transition, the fresh progress and both events |
| `Assessments.Assessment.CompleteStageRun` | src/georisk/contexts/assessment/domain/entities.py:225-249 | completing a stage, with both refusals |
| `Assessments.Assessment.AdvanceIfComplete` | src/georisk/contexts/assessment/domain/entities.py:276-291 | advancing checks completeness before legality |
| `Assessments.Assessment.CancelFor` | src/georisk/contexts/assessment/domain/entities.py:137-153 | cancelling checks legality before the reason |
| `LifecycleGuarantees.TenantsIsolated` | src/georisk/contexts/assessment/application/handlers.py:31-49 | no request of one tenant changes another tenant's assessment |
| `LifecycleGuarantees.ValidatedMeansComplete` | src/georisk/contexts/assessment/application/workflow_handlers.py:241-274 | after any series without the plain validate command on an assessment, VALIDATED, REPORTED or ARCHIVED implies all its stages COMPLETE |
| `LifecycleGuarantees.ValidatedCompleteIff` | src/georisk/contexts/assessment/application/handlers.py:125-145 | after every series, on templates that have stages: an assessment past RUNNING has all its stages COMPLETE if and only if no plain validate command on it was ever accepted |
| `LifecycleGuarantees.ForcedValidation` | src/georisk/contexts/assessment/application/handlers.py:125-145 | four plain requests validate an assessment that never had a workflow |
| `Replay.CommandKeepsFaithful` | src/georisk/contexts/assessment/domain/entities.py:94-291 | each accepted command keeps the log rebuilding the assessment and the counts balanced |
| `Replay.RebuildKept` | src/georisk/contexts/assessment/domain/events.py:25-154 | replaying the payloads alone rebuilds status, binding, reason and every entry |
| `Replay.BalanceKept` | src/georisk/contexts/assessment/domain/workflow_value_objects.py:83-164 | per stage: started = completed + failed + (1 if running), completed is 1 iff COMPLETE, attempts = started |
| `OutboxLog.IssueConsistent` | src/georisk/db/outbox_writer.py:18-49 | a command keeps all sequence numbers 1..n per aggregate and every assessment rebuilt by its log |
| `OutboxLog.RecordConsistent` | src/georisk/contexts/analysis/application/handlers.py:157-167 | recording a result keeps all that, and each ledger row's own history is the one event that says its outcome |
| `OutboxLog.MaxIsCount` | src/georisk/db/outbox_writer.py:31-38 | with gapless numbering the maximum is the count, so the next number is the next in line |
| `OutboxLog.AppendAllEffect` | src/georisk/db/outbox_writer.py:31-49 | appending keeps the numbering gapless for every aggregate and extends only the one's history |
| `Interleavings.EveryInterleaving` | src/georisk/contexts/assessment/application/workflow_handlers.py:122-274 | at every moment of every interleaving of atomic actions from any callers: log and rows agree, counts balance, the binding happens at most once, progress is empty before RUNNING; COMPLETE entries, bindings and terminal assessments never change afterwards |
| `Interleavings.CommandPersists` | src/georisk/contexts/assessment/domain/entities.py:94-291 | no command changes a COMPLETE entry, a binding or a terminal assessment, or lowers an attempt count |
| `RunningLock.LockHolds` | src/georisk/api/workflow_stage_executors.py:189-239 | at every moment of every interleaving of any callers' engine calls, command by command, with cancellations in between and calls that never return: an analysis stage that is not RUNNING has versions exactly 1..attempts; only the last can be COMPLETE, iff the stage is; and that row is the one its entry names and the one read as latest |
| `RunningLock.LockKeepsFresh` | src/georisk/contexts/analysis/application/handlers.py:97-123 | in the same interleavings the inputs a COMPLETE result with dependencies was computed from are what gathering reads again at every later moment |
| `RunningLock.LockExplains` | src/georisk/contexts/analysis/application/handlers.py:79-167 | in the same interleavings each row is what the ledger before it made it |
| `RunningLock.TakeSafe` | src/georisk/contexts/assessment/application/workflow_handlers.py:166-238 | each commit keeps that, with one row less while the call in flight has not recorded yet |
| `Requests.EverySeries` | src/georisk/contexts/assessment/application/workflow_engine.py:112-281 | between any two requests of any series: no stage is running, the log rebuilds everything, the ledger matches the workflow, no evidence is stale |
| `Requests.ServeKeepsSound` | src/georisk/contexts/assessment/application/workflow_engine.py:112-281 | each request keeps all that, and one that raises has changed nothing |
| `Requests.EvidenceMatchesWorkflow` | src/georisk/api/workflow_stage_executors.py:189-239 | for an analysis stage the result versions are exactly 1..attempts; only the last can be COMPLETE, iff the stage is; that row is then the one the entry names and the latest read |
| `Requests.EvidenceNeverStale` | src/georisk/contexts/analysis/application/handlers.py:97-123 | what gathering reads at every later moment are the inputs a COMPLETE result was computed from, together with the newest min(200, n) snapshots of the ledger before it; snapshot, history count and confidence are theirs |
| `Requests.EveryRowExplained` | src/georisk/contexts/analysis/application/handlers.py:79-167 | after every series each row there is, COMPLETE or FAILED, is what the ledger before it made it |
| `Evidence.AttemptKeepsLedger` | src/georisk/api/workflow_stage_executors.py:189-239 | every attempt keeps the ledger matching the workflow, all evidence fresh, and old readings unchanged |
| `Evidence.AttemptLedger` | src/georisk/contexts/analysis/application/handlers.py:79-167 | an attempt adds exactly one row for an analysis stage, COMPLETE iff the attempt succeeded and then named by the entry, and none otherwise |
| `Evidence.MaxVersionIsCount` | src/georisk/contexts/analysis/infrastructure/repositories.py:123-133 | with versions 1..n the next version is n + 1 |
| `Evidence.CollectStable` | src/georisk/contexts/analysis/application/handlers.py:169-198 | a new row of a stage without a COMPLETE result changes no successful gathering |
| `Gathering.LatestIsNewest` | src/georisk/contexts/analysis/infrastructure/repositories.py:36-52 | the latest result is a COMPLETE one of the highest version; there is none iff no row qualifies |
| `Gathering.CollectSucceedsIff` | src/georisk/contexts/analysis/application/handlers.py:185-198 | gathering succeeds iff every declared dependency has a COMPLETE result |
| `Gathering.CollectReads` | src/georisk/contexts/analysis/application/handlers.py:185-191 | an input code is read from the latest result of the last dependency that maps to it, by its last pair |
| `Gathering.CollectOnly` | src/georisk/contexts/analysis/application/handlers.py:185-191 | a code no dependency maps to is not among the inputs |
| `Gathering.FillReads` | src/georisk/contexts/analysis/application/handlers.py:190-191 | a mapped code holds what its last mapping names, or nothing if the result lacks it |
| `Gathering.FillKeeps` | src/georisk/contexts/analysis/application/handlers.py:190-191 | codes that are not mapped keep their value |
| `Gathering.HistoricalIsComparable` | src/georisk/contexts/analysis/infrastructure/repositories.py:68-94 | the history is the snapshots of exactly the COMPLETE rows of the same tenant, hazard and stage and of other assessments, newest first |
| `Gathering.ComparisonIsOthers` | src/georisk/contexts/analysis/application/handlers.py:100-107 | a stage that uses history is compared with exactly the newest min(200, n) snapshots of the comparable rows of other assessments, newest first, and any other stage with none |
| `Gathering.NextExplained` | src/georisk/contexts/analysis/application/handlers.py:86-152 | the pipeline's row on any ledger: COMPLETE with what the calculator makes of exactly its inputs and its history, the values laid over the inputs, the history's length, HIGH from 5, MODERATE from 2 and LOW otherwise; FAILED and empty exactly when strategy, calculator, inputs or computation are wanting |
| `Services.Database.ComputeStageResult` | src/georisk/contexts/analysis/application/handlers.py:86-152 | strategy, calculator, inputs, history, computation in turn: the next version's row with its confidence tier and formula versions, every failure quarantined into a FAILED row |
| `Services.Database.RecordStageResult` | src/georisk/contexts/analysis/application/handlers.py:79-167 | appends that row and its event |
| `Services.Database.GatherInputs` | src/georisk/contexts/analysis/application/handlers.py:169-198 | the two loops compute the specified inputs, or none if a dependency is missing |
| `Services.Database.RunStageExecutor` | src/georisk/api/workflow_stage_executors.py:51-67 | the composite executor: the analysis pipeline for its stages, the arbitrary one for the rest |
| `Services.Database.AppendEvent` | src/georisk/db/outbox_writer.py:18-49 | appends one event with the aggregate's next number |
| `Services.Database.Handle` | src/georisk/contexts/assessment/application/handlers.py:79-214 | load, command, version-checked save and events, as one step: the specified next state, or the specified error and no change |
| `Services.Database.HandleCreate` | src/georisk/contexts/assessment/application/handlers.py:52-76 | creation, refusing a blank name |
| `Services.Database.HandleStartWorkflow` | src/georisk/contexts/assessment/application/workflow_handlers.py:122-163 | its four refusals and the binding, as specified |
| `Services.Database.HandleAdvance` | src/georisk/contexts/assessment/application/workflow_handlers.py:241-274 | its refusals and the advance, as specified |
| `Services.Database.Save` | src/georisk/contexts/assessment/infrastructure/repositories.py:85-99 | writes and counts the version up iff the version is the expected one, and otherwise changes nothing |
| `Geometry.PointInRing` | src/georisk/contexts/geospatial/domain/geometry.py:92-107 | the toggling loop decides whether an odd number of edges is crossed |
| `Geometry.CrossesIff` | src/georisk/contexts/geospatial/domain/geometry.py:101-104 | an edge is crossed iff it reaches past the point's height, from below inclusive, and the point lies strictly to the left of it, by cross products |
| `Geometry.InsideCounts` | src/georisk/contexts/geospatial/domain/geometry.py:92-107 | a point is inside iff an odd number of the ring's edges passes to the right of it |
| `Geometry.InsideIsWithin` | src/georisk/contexts/geospatial/domain/geometry.py:92-107 | a point found inside lies in the ring's box, off its upper edges: round a cycle the straddling edges are even in number |
| `Geometry.InsideReversed` | src/georisk/contexts/geospatial/domain/geometry.py:92-107 | ray casting gives the same answer on the reversed ring |
| `Geometry.RectangleInside` | src/georisk/contexts/geospatial/domain/geometry.py:162-178 | on a rectangle ray casting decides exactly the half-open box |
| `Geometry.ComputeRingArea` | src/georisk/contexts/geospatial/domain/geometry.py:46-60 | the accumulating loop computes half the absolute shoelace sum of the scaled ring |
| `Geometry.AreaIsHalf` | src/georisk/contexts/geospatial/domain/geometry.py:46-60 | the area is half the absolute sum of the cross products of the ring in metres: 111320 to a degree of latitude, and as many to one of longitude as at the mean latitude of all positions |
| `Geometry.RectangleArea` | src/georisk/contexts/geospatial/domain/geometry.py:46-60 | a rectangle's area is its width times its height in metres |
| `Geometry.AreaReversed` | src/georisk/contexts/geospatial/domain/geometry.py:46-60 | reversing a ring keeps its area |
| `Geometry.AreaShifted` | src/georisk/contexts/geospatial/domain/geometry.py:46-60 | shifting a closed ring in longitude keeps its area |
| `Geometry.RectangleShoelace` | src/georisk/contexts/geospatial/domain/geometry.py:46-60 | for a rectangle the shoelace sum is twice width times height |
| `Geometry.RingBox` | src/georisk/contexts/geospatial/domain/geometry.py:85-89 | the box covers the ring, and each side touches it |
| `Geometry.GeometryBoxCovers` | src/georisk/contexts/geospatial/domain/geometry.py:129-159 | the union box covers every exterior ring |
| `Geometry.GeometryBoxTight` | src/georisk/contexts/geospatial/domain/geometry.py:149-152 | each side of the union box is a coordinate of some ring |
| `Geometry.CentroidWithinBox` | src/georisk/contexts/geospatial/domain/geometry.py:129-159 | before rounding, the area-weighted centroid of any geometry, degenerate ones included, lies in the union box |
| `Geometry.CentroidBalances` | src/georisk/contexts/geospatial/domain/geometry.py:142-147 | the rings balance about the unrounded centroid, each with its area for weight, or all alike if there is no area |
| `Geometry.RingCentroidBalances` | src/georisk/contexts/geospatial/domain/geometry.py:72-82 | a ring's vertices balance about its centroid, each counted once |
| `Sampling.ProportionalSums` | src/georisk/contexts/geospatial/domain/sampling.py:54-82 | proportional allocation sums to the total, repeated labels or not |
| `Sampling.EqualSums` | src/georisk/contexts/geospatial/domain/sampling.py:65-82 | equal allocation sums to the total iff labels are distinct or there are fewer samples than strata |
| `Sampling.AllocationNearShares` | src/georisk/contexts/geospatial/domain/sampling.py:69-82 | with distinct labels each stratum is within 1/2 of its exact share, the adjusted one within (n-1)/2 |
| `Sampling.ProportionalCounts` | src/georisk/contexts/geospatial/domain/sampling.py:69-82 | with distinct labels every stratum gets total times proportion over the sum of the proportions, rounded to nearest with ties to even, except the first of the greatest rounded counts, which takes what the others leave |
| `Sampling.EqualCounts` | src/georisk/contexts/geospatial/domain/sampling.py:65-82 | with distinct labels every stratum gets the whole quotient, and the first the remainder besides |
| `Sampling.TallyHolds` | src/georisk/contexts/geospatial/domain/sampling.py:67-74 | the entry of a repeated label has the count of its last stratum |
| `Sampling.TallyOnce` | src/georisk/contexts/geospatial/domain/sampling.py:67-74 | each label has one entry, and there are no other labels |
| `Sampling.SharesAreTotal` | src/georisk/contexts/geospatial/domain/sampling.py:70-74 | the exact shares sum to the total |
| `Sampling.ExactPoints` | src/georisk/contexts/geospatial/domain/sampling.py:98-114 | exactly the requested number of points is generated iff the rounded counts of the strata other than the largest fit into it |
| `Sampling.EnoughSamples` | src/georisk/contexts/geospatial/domain/sampling.py:98-114 | for proportional allocation over distinct labels n(n-1) <= 2*total is always enough |
| `Sampling.EqualPoints` | src/georisk/contexts/geospatial/domain/sampling.py:65-114 | equal allocation generates exactly the requested number of points iff labels are distinct or there are fewer samples than strata |
| `Sampling.UniformPoints` | src/georisk/contexts/geospatial/domain/sampling.py:98-114 | for n equal strata exactly `total` points iff n-1 rounded shares fit into it |
| `Sampling.SampleSizeMissed` | src/georisk/contexts/geospatial/domain/entities.py:192-228 | 1000 samples over 666 equal strata with distinct labels are not 1000 points |
| `Sampling.SampleSizeMissedOnce` | src/georisk/contexts/geospatial/domain/entities.py:192-228 | 666 such strata, and the number of points missed |
| `Sampling.TallyDistinct` | src/georisk/contexts/geospatial/domain/sampling.py:67-74 | the dictionary has one entry per stratum iff no label is repeated, and then in the same order |
| `Campaigns.RandomPoint` | src/georisk/contexts/geospatial/domain/sampling.py:36-51 | returns the point, and reads as much of the random source, as specified; the point lies in the box, and inside the area unless it is the box's centre |
| `Campaigns.RandomIsFirst` | src/georisk/contexts/geospatial/domain/sampling.py:36-51 | that point is the first of at most 200 drawn in the bounding box to lie inside the area, or the middle of the box if all 200 miss |
| `Campaigns.GenerateSimple` | src/georisk/contexts/geospatial/domain/sampling.py:85-95 | exactly `count` unlabelled points, drawn one after another, all in the box |
| `Campaigns.GenerateStratified` | src/georisk/contexts/geospatial/domain/sampling.py:98-114 | one point after another for exactly the labels of the allocation, in order; all points lie in the box |
| `Campaigns.LabelledLabels` | src/georisk/contexts/geospatial/domain/sampling.py:98-114 | points drawn for a list of labels carry exactly those labels, in order |
| `Campaigns.ExpandedAt` | src/georisk/contexts/geospatial/domain/sampling.py:106-113 | the labels of an entry come right after those of the entries before it, as many as its count |
| `Campaigns.SamplingCampaign.GeneratePoints` | src/georisk/contexts/geospatial/domain/entities.py:192-228 | a draft draws one sample of its design, and holds it and is generated iff every point lies inside the area, or else stays as it was; a generated campaign draws nothing |
| `Campaigns.GeneratedWithinBox` | src/georisk/contexts/geospatial/domain/entities.py:219-228 | every point of a generated campaign lies in its area's half-open box |
| `Pagination.FollowReturnsAsked` | src/georisk/contexts/assessment/infrastructure/repositories.py:51-83 | following `next_cursor` returns exactly the rows of the tenant with the asked status and hazard type, ordered by creation time and then id, each once |
| `Pagination.InsertsSkipNothing` | src/georisk/contexts/assessment/infrastructure/repositories.py:51-83 | with only inserts between pages the rows returned are the tenant's, match the filters, and come in order without repeats, and none that was there from the start is skipped |
| `Pagination.PageHolds` | src/georisk/contexts/assessment/infrastructure/repositories.py:51-83 | a page holds rows of the tenant, filters and cursor only, all of them if there are no more and exactly the limit otherwise, and then its last row is the cursor, past which exactly the others remain |
| `RateLimiting.WindowCounter.Hit` | src/georisk/rate_limiting.py:70-79 | counts, admits and announces as specified, after any history of hits of the key |
| `RateLimiting.CounterIsExact` | src/georisk/rate_limiting.py:70-79 | with a clock that does not go back the counter is the number of hits in the current window |
| `RateLimiting.WindowOf` | src/georisk/rate_limiting.py:70-72 | windows begin at the multiples of their length and hold exactly the readings of that length from there on |
| `RateLimiting.WindowAdmits` | src/georisk/rate_limiting.py:70-79 | a window admits exactly the first `limit` of its hits |
| `RateLimiting.IntervalAdmits` | src/georisk/rate_limiting.py:70-79 | any interval of one window's length admits at most twice the limit |
| `RateLimiting.RetryAfterIsExact` | src/georisk/rate_limiting.py:78-79 | with nobody else on the key, a rejected caller is admitted again iff the announced wait is over |
| `RateLimiting.RateLimiter.Check` | src/georisk/rate_limiting.py:100-122 | counts in Redis, and in the fallback by its own clock reading when Redis fails, before or after counting; admits and announces as specified |
| `RateLimiting.CallAccounted` | src/georisk/rate_limiting.py:100-122 | counters that account for a history of calls still do after one more, which they admit exactly as the history says |
| `RateLimiting.OtherKeysKept` | src/georisk/rate_limiting.py:100-122 | a call for one key leaves what is counted for every other key alone |
| `RateLimiting.DegradedWindowAdmits` | src/georisk/rate_limiting.py:100-122 | with Redis failing at arbitrary calls a window admits at most twice the limit, and at most the limit if it never fails |
| `RateLimiting.DegradedAdmitsExactly` | src/georisk/rate_limiting.py:100-122 | if Redis answers whatever it counts, a window admits exactly the first `limit` calls Redis answers and the first `limit` of the others |
| `VersionChains.ChainIffClean` | src/georisk/contexts/data_acquisition/application/handlers.py:158-226 | after any series a name's versions are exactly 1..n with only the last current and each provenance one entry longer, iff the name was never plainly catalogued while it had a current row |
| `VersionChains.AddKeepsChainIffNew` | src/georisk/contexts/data_acquisition/application/handlers.py:158-187 | plain cataloguing keeps a chain iff the name is new |
| `VersionChains.SupersedeKeepsChain` | src/georisk/contexts/data_acquisition/domain/entities.py:174-214 | a revision extends the chain by one |
| `VersionChains.LatestIsLast` | src/georisk/contexts/data_acquisition/infrastructure/repositories.py:80-93 | in a chain the row found is the last version |
| `VersionChains.LatestCurrent` | src/georisk/contexts/data_acquisition/infrastructure/repositories.py:80-93 | the row found is the current one of that tenant and name with the highest version, and there is none iff no row is current |
| `VersionChains.ChangeMeans` | src/georisk/contexts/data_acquisition/application/handlers.py:158-226 | what cataloguing, revising and uploading do to the rows, field by field: one row closed at most, one added, and no other row touched |
| `VersionChains.Catalog.Revise` | src/georisk/contexts/data_acquisition/application/handlers.py:195-226 | supersedes the current row by its successor, or refuses when there is none |
| `VersionChains.Catalog.CatalogOrRevise` | src/georisk/contexts/data_acquisition/application/handlers.py:624-644 | catalogues a new name and revises a known one |
| `VersionChains.Catalog.CatalogNew` | src/georisk/contexts/data_acquisition/application/handlers.py:158-187 | adds a first version without looking for an existing one, and refuses an unknown source or one of another tenant |
| `VersionChains.DefinitionsAreChains` | src/georisk/contexts/geospatial/application/handlers.py:47-74 | after any series of definitions an assessment's areas of interest have versions exactly 1..n, one per definition, and only the last is active |

## Left out

- A stage executor that raises out of `execute`: the stage stays RUNNING and the request fails; the model's executors return.
- Risk-layer generation in the analysis executor, the validation executor's own rules, and the hazard formulas and
  indicators' ranges: the executor is arbitrary and formulas are parameters.
- The wording of error texts: a failed analysis carries an arbitrary text.
- StartedWorkflowSettles: requires a template with stages, which creation guarantees; a stored template without stages would stay RUNNING.
- Geometry.PointInRing: without the `1e-15` the code adds to the denominator, with which a falling edge can be met just outside it.
- Geometry.InsideIsWithin: for the exact crossing test, for the same reason.
- Geometry.InsideReversed: for the exact crossing test, for the same reason.
- Geometry.CentroidWithinBox: before the reported centroid is rounded to six digits, which can take it across a side of the box.
- ValidatedCompleteIff: requires templates with stages, which creation guarantees.
- AttemptsBounded: requires distinct stage types, which creation does not check; with repeated types dispatch can list a type twice.
- A minimum of samples per class: promised by a comment on the allocation, not implemented by the code.
- Perimeters, great-circle distances and the rounding of reported statistics.
- White space beyond ASCII in the blank-text checks.
- Areas of interest share the chain model by assessment instead of by name; their lack of provenance, and the error their
  lookup would raise on two active rows (which a chain excludes), are not modelled.
- Concurrent window rollover between processes: the fallback counter bound is for one process.
- `list_all_indicators_by_assessment`, dashboards, prediction, validation rules, identity, file parsing, remote sensing,
  notification, routes and schemas: input/output or easy members.
