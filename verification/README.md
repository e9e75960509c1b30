# MergeWave, verified

MergeWave schedules work items from a dependency graph, runs an agent per item in its own
workspace, and releases an item only when independent evidence says that a human merged it. This
project models that core in Dafny 4.11 and proves what its pieces promise each other.
`dafny verify dfyconfig.toml` checks everything.

Code that updates objects in place is modelled by classes whose methods are proved against functions
on values; the laws are then proved about those functions, for every input, run or reachable state.

| files | what they model |
|---|---|
| `Prelude`, `Sorting`, `Identity` | shared vocabulary; Python's text order and sorts; names of attempts |
| `DependencyGraphs`, `GraphCompiler` | the depth-first compiler, and compilation from raw tickets |
| `Contracts`, `ContractLaws`, `IssueLaws`, `TicketExamples` | ticket validation, payloads, project snapshots, what each issue means, tickets that are accepted and rejected |
| `Scheduling`, `SchedulingLaws`, `WaveLevels` | the scheduler under both policies |
| `Gate`, `Simulation`, `SimulationLaws`, `SimulationRuns` | the delivery gate, the simulator over the scheduler, and its runs from construction |
| `EventLog`, `Projection` | the durable log and the reducer over it |
| `Controller`, `Journal`, `ControllerLaws`, `AssignmentLaws`, `CallLaws`, `TicketLaws`, `AttemptRecords`, `WaveRecords`, `DeliveryController` | controller calls as functions, what each raises and records, what the log and the tracker say of tickets, attempts and waves, and the controller object |
| `Restart`, `RestartReuse`, `RebuiltRuns`, `RestartPlaces`, `BarrierRestarts`, `ExampleRuns` | rebuilding a controller from its log, what its next attempts use again, how its runs go on, where its items are, what becomes of the barrier, and small runs that reach each surprise |
| `Supervisor`, `SupervisionLaws`, `StreamLaws`, `RetryLaws`, `CycleLaws`, `DeliverySupervisor`, `SupervisedRuns` | supervision cycles over interleaved streams, when they retry, and what they leave on record |
| `Lifecycle`, `LifecycleLaws`, `LifecyclePipeline` | the stage router, the stage runner, the nine default stages |
| `Skills`, `SkillLedger`, `SkillLedgerLaws` | authority baselines, skill results bound to attempts |
| `Reliability`, `ReliabilityLaws`, `ReliabilitySettling`, `ReliabilityFaults` | numbering of lifecycle emissions across restarts, and the recordings that raise |

What comes from outside (observations, revisions, clocks, workspaces, verdicts on skill templates, runtime
events, thread interleavings, dictionary order) is a parameter, quantified over in every theorem.

## What the proofs show about the code

Where a promise does not hold of the code, the model keeps the code and the exact condition is proved.

- After a restart, cancelled items are active again: `wave.item_cancelled` is not read back, and
  cancelling records no end of the attempt (`Restarts.OnlyCancelledItemsReturn`, reached in
  `ExampleRuns.CancelledItemReturns`).
- Under `wave_barrier` a restart raises exactly when the base was ever refreshed
  (`Restarts.BarrierRestartRefused`, `ExampleRuns.BarrierRunIsRefused`).
- Under `wave_barrier` a restart without a refresh keeps waiting for items that cannot be approved any more. The whole active
  wave is restored, but only open items are dispatched again and no decision is. While an item is in flight, the rebuilt
  controller is stalled exactly when some item of its wave was approved before or waits to be retried: then nothing is
  started and no refresh accepted, whatever is observed or approved, until an item is retried or cancelled. And the
  scheduler's own active wave is the last restored item alone, whose retry or cancellation opens the barrier while others are in
  flight (`BarrierRestarts.HalfDoneWavesStall`, `BarrierRestarts.StallsForGood`, `BarrierRestarts.LastRestoredOpensBarrier`,
  reached in `ExampleRuns.HalfDoneWaveStalls`; tests/test_rehydration.py:120 restarts a wave of one item, which works).
- The restored base is the live one exactly when no revision appeared for the first time after the
  live base first did; a base that returns to an earlier revision is lost
  (`Restarts.EveryRunSurvivesRestart`, `ExampleRuns.ReturningBaseIsLost`).
- A runtime failure reported after an item finished costs its release at the next restart, unless
  attention was already recorded (`Restarts.LateFailureForgetsRelease`,
  `ExampleRuns.LateFailureIsReported`).
- A restart forgets attempt numbers, while docs/superpowers/specs/2026-08-14-mergewave-design.md:65-70
  promises a new attempt. A ready item starts over as attempt 1 from the restored base, on the worktree and branch
  of its first attempt, exactly when it was attempted before; a retried one is attempt 2, on those of its second,
  exactly when it was past its first. The start raises exactly when the log holds another start under that
  run id (`RestartReuse.RestartedDispatch`, `RestartReuse.RestartedRetry`; both are reached in
  `ExampleRuns.ReopenedFrontierConflicts` and `ExampleRuns.ReopenedRetryConflicts`).
- A ticket that re-enters an old state, such as `InProgress` after a retry, is not recorded again, so the
  projection keeps the later state; a gate that returns to an old status on old evidence likewise
  (`TicketLaws.TicketIsProjected`, `TicketLaws.GateIsProjected`).
- The design document (lines 56-58) says that a new frontier starts from the observed current target
  revision. When the last item of a barrier wave is cancelled or retried the barrier opens without a
  refresh, and the next wave starts from the old base (`SchedulingLaws.EscapeKeepsBase`).
- After a restart a start under a used run id and with the same workspace raises nothing, and adds nothing to a log in
  which that run is closed: the item is worked on and the next restart does not know it. A controller, live or rebuilt,
  stays in step with its log exactly as long as no run id of the log is started again (`RebuiltRuns.PlayInStep`,
  `ExampleRuns.ReopenedFrontierIsLost`).
- A retry supersedes the attempt first and may raise then. When launching itself answers, it does so exactly
  without a known prompt, with a changed one, while another item is ready to start, whose prompt it does not pass on, or when
  the item's skill template no longer passes, as after its authority has expired. The item is left waiting without an attempt.
  Under `wave_barrier` it also waits, without an exception, while others are on its wave (`AssignmentLaws.RetryReplaces`,
  `ExampleRuns.ChangedPromptRaises`, `ExampleRuns.ExpiredAuthorityRaises`).
- docs/skill-integration.md:84 calls result events idempotent. A result delivered again changes
  nothing, but is accepted only if its authority observation repeats; when the first delivery had seen
  a change, delivering it again in the untouched workspace is refused
  (`SkillLedgerLaws.RedeliveryInQuietWorkspace`, `SkillLedgerLaws.RedeliveryIsRefused`).
- docs/skill-integration.md:98 lets `debug` run only when a prior stage fails. That holds: among the default stages
  only a failing `implement-test` reaches it. But a lifecycle whose last stage fails exits with code 0
  (`LifecyclePipeline.DefaultPipelineOrder`, `LifecyclePipeline.FailedWrapUpExitsCleanly`).
- A run id that is started again after a restart has its episode on record but not in the recorder: its next gate
  request or decision raises (`ReliabilityFaults.EmissionSurvives`, `ReliabilityFaults.ReusedRunRaises`).
- A decision is recorded before the tracker takes the item as done. When the tracker refuses, the run stays open in the log
  and a restart restores it; if its request had been withheld, since an earlier attempt of the item made one, the request
  then repeats a number. Where every recorded approval settles, numbering never fails (`ReliabilityLaws.EpisodesAreOrderly`,
  `ReliabilitySettling.SettlingKeepsOrder`, `ReliabilityFaults.RefusedApprovalMisnumbers`).
- A risk level that is a list or an object stops the validator with a type error instead of an issue
  (`Contracts.ValidationIsExact`).
- Outside the validated item-id alphabet two attempts can share a workspace
  (`Identity.UnvalidatedIdsCollide`).

## Model

| member | source | states |
|---|---|---|
| `DependencyGraphs.FindCycle` | src/mergewave/contracts.py:418-435 | the search ends; it reports no cycle exactly when no closed walk of `blocked_by` edges exists, and what it reports is such a walk |
| `DependencyGraphs.CycleFinder.Visit` | src/mergewave/contracts.py:421-431 | one visit keeps the stack a chain and the finished items topologically ordered, or returns a real cycle |
| `DependencyGraphs.TopologicalIsAcyclic` | src/mergewave/contracts.py:418-435 | a finished search order rules out every cycle |
| `DependencyGraphs.Ready` | src/mergewave/contracts.py:102-109 | an item is ready exactly when it is not completed and all its blockers are; nothing is listed twice |
| `Contracts.ValidateWorkItem` | src/mergewave/contracts.py:160-368 | the validator, loop by loop, computes the specified outcome with all issues in order |
| `Contracts.ValidationIsExact` | src/mergewave/contracts.py:160-368 | tickets are accepted exactly when well formed, read as the work item they spell; the type error has exactly one cause |
| `Contracts.Findings` | src/mergewave/contracts.py:191-333 | no issue is found exactly when shape, identity, sections and lists all fit |
| `Contracts.ListIssues` | src/mergewave/contracts.py:130-157 | no issue exactly for a long enough list of filled texts |
| `Contracts.BlockerIssues` | src/mergewave/contracts.py:206-219 | no issue exactly for a list of distinct item ids |
| `Contracts.CheckShapes` | src/mergewave/contracts.py:256-274 | the loop over nested objects reports missing and unknown fields of each in turn |
| `Contracts.ShapesAreClean` | src/mergewave/contracts.py:256-274 | nested objects raise no issue exactly when each has exactly its documented fields |
| `Contracts.CheckEntries` | src/mergewave/contracts.py:300-318 | the loop over criteria and scenarios reports each entry under its position |
| `Contracts.RecordIssues` | src/mergewave/contracts.py:300-318 | no issue exactly for a non-empty list of complete records |
| `Contracts.RequirementIssues` | src/mergewave/contracts.py:320-330 | no issue exactly for lists of known kinds where migration and schema come together |
| `Contracts.StateNamed` | src/mergewave/contracts.py:13-20 | state names and states correspond one to one |
| `Prelude.StripIsInner` | src/mergewave/contracts.py:232-235 | stripping takes away white space at both ends and nothing else |
| `Prelude.SpacesAreListed` | src/mergewave/contracts.py:232-235 | the characters taken for white space |
| `IssueLaws.RejectionsAreExact` | src/mergewave/contracts.py:160-333 | a rejected ticket is reported for each of its missing fields or, having none, for exactly its defects; every issue has its own defect |
| `IssueLaws.FindingsAreExact` | src/mergewave/contracts.py:191-333 | defect by defect: an issue is found exactly where identity, shape, sections or lists have its defect |
| `IssueLaws.FalseIsEmpty` | src/mergewave/contracts.py:320-330 | which JSON values count as absent where migration and schema are compared |
| `TicketExamples.ExampleIsAccepted` | src/mergewave/contracts.py:371-404 | a raw ticket, field by field, and the work item it is accepted as |
| `TicketExamples.ShortTitleIsRejected` | src/mergewave/contracts.py:232-235 | a title that is long enough only with the white space around it is the one issue of its ticket |
| `ContractLaws.WorkItemsAreCanonical` | src/mergewave/contracts.py:371-404 | for every accepted ticket, validating the payload of its work item accepts the same work item |
| `ContractLaws.PayloadIsWellFormed` | src/mergewave/contracts.py:371-404 | a payload is a well-formed ticket exactly when its work item is valid |
| `ContractLaws.PayloadReadsBack` | src/mergewave/contracts.py:371-404 | reading a payload gives the work item back, field by field |
| `ContractLaws.ValidItemsAreTheAccepted` | src/mergewave/contracts.py:160-368 | the valid work items are exactly those some raw ticket validates to |
| `ContractLaws.SnapshotsIdentifyProjects` | src/mergewave/contracts.py:75-89 | for valid items with distinct ids, snapshots agree exactly when the items are a permutation of each other |
| `ContractLaws.SnapshotForgetsOrder` | src/mergewave/contracts.py:75-89 | for any items with distinct ids the snapshot is the same in every order |
| `Sorting.SortForgetsOrder` | src/mergewave/contracts.py:78-81 | a stable sort by distinct keys forgets the order of its input and nothing else |
| `GraphCompiler.CompileDependencyGraph` | src/mergewave/contracts.py:407-435 | compilation succeeds exactly on well-formed, uniquely named, closed and acyclic tickets; every error reports a real defect, first checks first |
| `GraphCompiler.CompiledTicketsAreDeliverable` | src/mergewave/contracts.py:407-435 | delivering compiled tickets, in any run of the simulator, never deadlocks and never lets two attempts share a name |
| `Scheduling.Scheduler.constructor` | src/mergewave/scheduler.py:19-32 | a new scheduler has released what was completed and has an open barrier |
| `Scheduling.Scheduler.PreviewReady` | src/mergewave/scheduler.py:53-63 | the loop lists the ready, undispatched items at the current base, or nothing behind a closed barrier |
| `Scheduling.Scheduler.DispatchReady` | src/mergewave/scheduler.py:34-51 | dispatches that preview and opens the next wave with it |
| `Scheduling.Scheduler.Release` | src/mergewave/scheduler.py:65-71 | releases a dispatched item; the current wave is released when all its items are |
| `Scheduling.Scheduler.Retry` | src/mergewave/scheduler.py:73-86 | an unreleased item leaves its wave and may be dispatched again |
| `Scheduling.Scheduler.Cancel` | src/mergewave/scheduler.py:88-100 | the escape hatch releases an item without a dispatch |
| `Scheduling.Scheduler.RefreshTargetBase` | src/mergewave/scheduler.py:121-127 | moves the base; under the barrier only after the whole wave |
| `Scheduling.Scheduler.RestoreDispatched` | src/mergewave/scheduler.py:102-107 | restored items replace the active wave |
| `Scheduling.Scheduler.RestoreWave` | src/mergewave/scheduler.py:109-116 | a restored wave becomes current and numbering continues after it |
| `Scheduling.Scheduler.RestoreReleased` | src/mergewave/scheduler.py:118-119 | restored items are released |
| `SchedulingLaws.EveryRunIsConsistent` | src/mergewave/scheduler.py:18-127 | ownership, barrier and wave history hold after any sequence of calls |
| `SchedulingLaws.StepOnlyReleases` | src/mergewave/scheduler.py:65-127 | no call takes a release back |
| `SchedulingLaws.BlockersReleasedFirst` | src/mergewave/scheduler.py:53-63 | everything a dispatched or released item transitively waits for is released |
| `SchedulingLaws.NoDeadlock` | src/mergewave/scheduler.py:34-127 | on an acyclic graph every reachable state is finished, has work in flight or dispatchable, or becomes so by a refresh |
| `SchedulingLaws.EscapeKeepsBase` | src/mergewave/scheduler.py:73-100 | cancelling or retrying opens the barrier exactly for the last item of the wave, and never moves the base |
| `SchedulingLaws.RetriedIsReady` | src/mergewave/scheduler.py:73-86 | a retried item is dispatchable at once except while others are on its barrier wave |
| `WaveLevels.WavesAreLevels` | src/mergewave/scheduler.py:34-63 | under the barrier wave k holds exactly the items whose longest blocker chain has length k |
| `WaveLevels.WavesFinish` | src/mergewave/scheduler.py:121-127 | when nothing more is ready all items are released, in as many waves as the longest chain has items |
| `WaveLevels.WavesAreBounded` | src/mergewave/scheduler.py:34-63 | there are never more waves than items |
| `Gate.GateIsExact` | src/mergewave/simulator.py:297-437 | approval is exactly a deliverable pull request that was approved and merged by humans |
| `Gate.PendingIsExact` | src/mergewave/simulator.py:214-218 | a delivery waits exactly while CI on its head, the approval or the merge is outstanding |
| `Gate.ScopeOnlyWarns` | src/mergewave/simulator.py:440-450 | out-of-scope changes are always reported and never decide |
| `Gate.WorkspaceFailuresAreExact` | src/mergewave/simulator.py:297-382 | each failure of place, pull request, CI state, link and base has its own cause, with its retryable flag |
| `Gate.ReviewFailuresAreExact` | src/mergewave/simulator.py:383-437 | each failure of CI result, review, approval and merge has its own cause |
| `Gate.DecisionsExplainThemselves` | src/mergewave/simulator.py:204-223 | only approvals have no failure; the scope warning is the only one |
| `Simulation.MergeWaveSimulator.constructor` | src/mergewave/simulator.py:109-147 | a new simulator over a new scheduler |
| `Simulation.MergeWaveSimulator.DispatchReady` | src/mergewave/simulator.py:153-174 | every scheduled item gets a dispatch naming its current attempt |
| `Simulation.MergeWaveSimulator.PreviewReady` | src/mergewave/simulator.py:176-187 | previews exactly what a dispatch would issue |
| `Simulation.MergeWaveSimulator.RecordAgentClaim` | src/mergewave/simulator.py:189-190 | keeps the claim and nothing else |
| `Simulation.MergeWaveSimulator.ObserveDelivery` | src/mergewave/simulator.py:195-202 | stores the observation and forgets a decision that was not an approval |
| `Simulation.MergeWaveSimulator.EvaluateGate` | src/mergewave/simulator.py:204-223 | caches a decision, releases on approval, and never raises |
| `Simulation.MergeWaveSimulator.CanRefreshTargetBase` | src/mergewave/simulator.py:225-231 | whether the wave is fully approved |
| `Simulation.MergeWaveSimulator.RefreshTargetBase` | src/mergewave/simulator.py:242-253 | moves both layers, or neither |
| `Simulation.MergeWaveSimulator.RetryItem` | src/mergewave/simulator.py:255-263 | forgets the attempt and numbers the next |
| `Simulation.MergeWaveSimulator.CancelFromWave` | src/mergewave/simulator.py:265-274 | demands a reason, then cancels in both layers |
| `Simulation.MergeWaveSimulator.RestoreDispatch` | src/mergewave/simulator.py:276-284 | puts one dispatch back in both layers |
| `Simulation.MergeWaveSimulator.RestoreExecutionWave` | src/mergewave/simulator.py:286-288 | restores a wave; the active wave follows its state |
| `SimulationLaws.StepAligned` | src/mergewave/simulator.py:153-274 | every call keeps the two layers' dispatched items, active wave and approvals in step |
| `SimulationLaws.SchedulerFollows` | src/mergewave/simulator.py:153-274 | each simulator call is exactly one scheduler call, or none |
| `SimulationLaws.LayersNeverDisagree` | src/mergewave/simulator.py:204-253 | evaluation never raises, and the refresh guards of both layers coincide |
| `SimulationLaws.EveryRunIsSound` | src/mergewave/simulator.py:106-274 | agreement of the layers and attempt numbering hold after any sequence of calls |
| `SimulationRuns.ReleasedExactlyApproved` | src/mergewave/simulator.py:204-223 | after every run from construction, among dispatched items, released and approved are the same |
| `SimulationRuns.ReleasedSetIsExact` | src/mergewave/simulator.py:195-274 | after every run from construction an item is released exactly when it was completed at the start or some call of the run cancelled it or approved it on an observation that meets the whole gate contract |
| `SimulationRuns.ObservationsAreCurrent` | src/mergewave/simulator.py:195-274 | what is held about an item was observed, earlier in the run, while its present dispatch was in place |
| `SimulationRuns.ReleaseIsBacked` | src/mergewave/simulator.py:297-437 | after every run a release is an initial completion, a cancellation, or an approval on an observation of the item's own dispatch that met the gate contract |
| `SimulationRuns.RunsAgree` | src/mergewave/simulator.py:106-147 | these runs are the histories of the other theorems |
| `SimulationLaws.DeliveryNeverDeadlocks` | src/mergewave/simulator.py:153-253 | the progress theorem, stated with the simulator's own guards |
| `SimulationRuns.WaveExclusivity` | src/mergewave/simulator.py:153-253 | after every run under the barrier all work in flight is in the active wave, from the scheduler's current base |
| `SimulationLaws.ClaimsDecideNothing` | src/mergewave/simulator.py:189-190 | no agent claim changes a decision or the schedule |
| `SimulationLaws.AttemptIdentity` | src/mergewave/simulator.py:153-174 | no two issued attempts share a worktree, a branch or a run id |
| `SimulationLaws.AttemptsNeverCollide` | src/mergewave/simulator.py:255-263 | the same over every run from construction, with attempts of an item numbered 1, 2, 3, ... |
| `SimulationLaws.EvidenceServesOneAttempt` | docs/superpowers/specs/2026-08-14-mergewave-design.md:65-70 | evidence that approves one attempt is blocked for every other |
| `Identity.WorkspaceKeyIsInjective` | src/mergewave/simulator.py:293-295 | workspace keys of validated ids determine item and attempt |
| `Identity.RunIdIsInjective` | src/mergewave/controller.py:279-283 | run ids determine item, base and attempt when revisions carry no colon |
| `Identity.ItemIdAlphabet` | src/mergewave/contracts.py:112 | validated ids have no lower-case letter and no colon |
| `Identity.ItemIdForms` | src/mergewave/contracts.py:112 | texts at the edge of the `PROJECT-123` form, inside and outside |
| `Identity.DecimalSpells` | src/mergewave/simulator.py:293-295 | attempt numbers are spelled in decimal |
| `Identity.AttemptNames` | src/mergewave/simulator.py:153-174 | keys, worktrees, branches and run ids of first and later attempts, spelled out |
| `Identity.UnvalidatedIdsCollide` | src/mergewave/simulator.py:293-295 | a concrete clash outside that alphabet |
| `EventLogs.SqliteEventLog.Append` | src/mergewave/persistence.py:42-65 | inserts if the key is new, answers the stored row or a conflict |
| `EventLogs.SqliteEventLog.Reduce` | src/mergewave/persistence.py:73-78 | the loop is the fold over all rows |
| `EventLogs.KeysStayUnique` | src/mergewave/persistence.py:42-65 | keys stay unique under any appends |
| `EventLogs.LogOnlyGrows` | src/mergewave/persistence.py:42-71 | rows are never altered; every appended key is found |
| `EventLogs.ConflictChangesNothing` | src/mergewave/persistence.py:58-65 | a conflict is exactly the reuse of a key for other content, and leaves the log alone |
| `EventLogs.ReplayIsNoOp` | src/mergewave/persistence.py:42-65 | replaying recorded appends, in any order and number, changes nothing |
| `EventLogs.LogIsFirstOccurrences` | src/mergewave/persistence.py:42-71 | the log is the first append of each key, in order |
| `EventLogs.ProjectionIgnoresRepeats` | src/mergewave/persistence.py:73-78 | any projection equals the fold over first occurrences |
| `Projections.FromEventLog` | src/mergewave/controller.py:58-84 | the projection is the fold of the reducer over the log |
| `Projections.ProjectOneMore` | src/mergewave/controller.py:86-167 | an append moves the projection by one step, or not at all when its key is known |
| `DeliveryControllers.DeliveryController.constructor` | src/mergewave/controller.py:178-239 | a new controller over a simulator and a log |
| `DeliveryControllers.DeliveryController.AppendEvent` | src/mergewave/controller.py:1116-1118 | appends an event, or raises exactly when the log holds another one under its key |
| `DeliveryControllers.DeliveryController.PersistPrompts` | src/mergewave/controller.py:1128-1144 | records prompts in turn and stops at one that changed |
| `DeliveryControllers.DeliveryController.StartEach` | src/mergewave/controller.py:279-360 | starts the dispatches in turn, up to the first start the log contradicts |
| `DeliveryControllers.DeliveryController.StartFrontier` | src/mergewave/controller.py:277-369 | dispatches the frontier, starts it and announces its wave |
| `DeliveryControllers.DeliveryController.DispatchReady` | src/mergewave/controller.py:252-369 | checks prompts and skill templates, records the prompts and starts the frontier, for live and for rebuilt controllers; keeps state and log in step where they were |
| `DeliveryControllers.DeliveryController.DispatchNextFrontier` | src/mergewave/controller.py:1271-1282 | dispatches the next frontier, or records that it waits for prompts |
| `DeliveryControllers.DeliveryController.RefreshTargetBase` | src/mergewave/controller.py:459-465 | moves the base and records it, or refuses |
| `DeliveryControllers.DeliveryController.ObserveRuntimeEvents` | src/mergewave/controller.py:562-678 | the first event with a failure stops the reading and is marked |
| `DeliveryControllers.DeliveryController.MarkRuntimeFailure` | src/mergewave/controller.py:680-698 | raises attention once and records the failure |
| `DeliveryControllers.DeliveryController.Judge` | src/mergewave/controller.py:417-456 | observes, decides, records and settles one item |
| `DeliveryControllers.DeliveryController.Reconcile` | src/mergewave/controller.py:371-457 | one reconciliation with its failure paths; an approval refreshes the base and starts the next frontier |
| `DeliveryControllers.DeliveryController.Retry` | src/mergewave/controller.py:482-518 | supersedes the attempt, then dispatches its replacement |
| `DeliveryControllers.DeliveryController.CancelFromWave` | src/mergewave/controller.py:520-538 | cancels an active item and records it |
| `DeliveryControllers.DeliveryController.Rehydrate` | src/mergewave/controller.py:1296-1427 | puts back prompts, tickets, base, releases, waves and assignments; only the base can be refused |
| `DeliveryControllers.FromEventLog` | src/mergewave/controller.py:245-250 | a controller rebuilt from its log is the specified one |
| `Journals.AttemptStarts` | src/mergewave/controller.py:342-360 | a start of an unseen attempt keeps the log in step, one start per attempt |
| `Journals.WaveAnnounced` | src/mergewave/controller.py:361-368 | announcing the next wave keeps the log in step |
| `Journals.QuietEvent` | src/mergewave/controller.py:1116-1118 | an event the account does not depend on leaves it reproduced |
| `ControllerLaws.ActKeeps` | src/mergewave/controller.py:252-538 | after every call, reducing the log gives back what is released, active, planned and prompted |
| `ControllerLaws.PlayKeeps` | src/mergewave/controller.py:252-538 | the same for every run of calls whose runtime failures concern active items |
| `ControllerLaws.StartEachRaises` | src/mergewave/controller.py:279-360 | starting different runs raises exactly when the log contradicts one of their starts |
| `ControllerLaws.FrontierStarts` | src/mergewave/controller.py:252-369 | a controller in step with its log never meets a conflict |
| `ControllerLaws.JudgeKeeps` | src/mergewave/controller.py:417-456 | judging never raises, whatever was observed |
| `AssignmentLaws.ReconcileLeaves` | src/mergewave/controller.py:371-457 | reconciling one item leaves every other assignment and all attempt numbers alone |
| `AssignmentLaws.RetryLeaves` | src/mergewave/controller.py:482-518 | a retry leaves every other assignment alone and renumbers at most its own item, by one |
| `AssignmentLaws.DispatchStarts` | src/mergewave/controller.py:252-369 | a dispatch raises exactly when a ready item has no prompt or its template does not pass, or a prompt was changed, and otherwise starts exactly the frontier |
| `AssignmentLaws.PersistRaises` | src/mergewave/controller.py:1128-1144 | recording prompts raises exactly when one contradicts another or the record |
| `AssignmentLaws.RetryReplaces` | src/mergewave/controller.py:482-518 | a retry raises exactly when a check the caller can make first fails, and gives the item its next attempt, numbered one higher and from the current base, exactly when it passes and no other item is on its barrier wave |
| `AssignmentLaws.RunsNeverReturn` | src/mergewave/controller.py:252-538 | after any call an assignment is an old one or a run the log had never seen |
| `CallLaws.DispatchFaults` | src/mergewave/controller.py:252-276 | the first check of a dispatch that fails names the exception |
| `CallLaws.RefusedDispatchChangesNothing` | src/mergewave/controller.py:252-276 | prompts and templates are checked before anything is recorded |
| `CallLaws.RetryFaults` | src/mergewave/controller.py:482-518 | which exception a retry raises once the attempt is superseded |
| `CallLaws.RetryRefusals` | src/mergewave/controller.py:482-500 | what stops a retry before anything is superseded, and what is recorded then |
| `CallLaws.CancelFaults` | src/mergewave/controller.py:520-538 | a cancellation needs an active item and a reason; otherwise it and its reason are recorded |
| `CallLaws.RefreshFaults` | src/mergewave/controller.py:459-465 | the base moves and is recorded exactly where both layers allow it |
| `CallLaws.FailureIsMarked` | src/mergewave/controller.py:680-698 | what a marked failure records and publishes |
| `CallLaws.FailedReconciliations` | src/mergewave/controller.py:371-416 | what each reconciliation without an observation records |
| `CallLaws.InactiveIsNotReconciled` | src/mergewave/controller.py:371-374 | only an active item is reconciled |
| `CallLaws.DecisionIsOnRecord` | src/mergewave/controller.py:417-439 | every decision is recorded under the active run with the evidence it was made on |
| `CallLaws.ApprovalSettles` | src/mergewave/controller.py:440-446 | an approval ends the attempt and records the release, unless the item was done before |
| `CallLaws.BlockedAsksForAttention` | src/mergewave/controller.py:450-456 | a blocked decision asks for attention once |
| `CallLaws.RefillStarts` | src/mergewave/controller.py:447-449 | when a provider answers and the base may move, a refill moves it and starts exactly what is ready then, from the new base |
| `CallLaws.ApprovalStartsTheNext` | src/mergewave/controller.py:417-457 | so an approval starts what it unblocks; any other decision starts nothing |
| `CallLaws.SupersedingForgets` | src/mergewave/controller.py:500-512 | a superseded attempt is recorded, and its item may be published again |
| `CallLaws.NextFrontierWaits` | src/mergewave/controller.py:1271-1282 | a frontier without prompts is recorded as waiting and not started |
| `TicketLaws.ActTells` | src/mergewave/controller.py:252-538 | after every call whatever is in progress, in review, in need of attention, done or cancelled was reported so; a seen pull request is in review, a blocked decision needs attention, an approval is done |
| `TicketLaws.EveryRunTells` | src/mergewave/controller.py:178-538 | the same after every run of calls of a new controller whose runtime failures concern active items |
| `TicketLaws.TicketIsProjected` | src/mergewave/controller.py:1263-1269 | a reported state shows in the projection exactly when it is new for the item or already its state |
| `TicketLaws.GateIsProjected` | src/mergewave/controller.py:86-167 | a gate status shows in the projection exactly when its evidence is new or it is already the item's status |
| `AttemptRecords.ActTellsAttempts` | src/mergewave/controller.py:252-538 | after every call the log has the state each attempt is in, except that cancelling records none |
| `AttemptRecords.EveryRunTellsAttempts` | src/mergewave/controller.py:178-538 | the same after every run of calls whose runtime failures concern active items |
| `AttemptRecords.EndsClose` | src/mergewave/controller.py:118-122 | a new state closes an open run exactly when the attempt works no longer |
| `WaveRecords.ActRecords` | src/mergewave/controller.py:1284-1294 | after every call the log lists every wave, as released exactly when it is |
| `WaveRecords.EveryRunRecordsWaves` | src/mergewave/controller.py:1284-1294 | the same after every run of calls whose runtime failures concern active items |
| `Restarts.RestartRefines` | src/mergewave/controller.py:1296-1427 | under the continuous policy the rebuilt controller has the live released set, runs, prompts, wave number and next frontier |
| `Restarts.EveryRunSurvivesRestart` | src/mergewave/controller.py:86-167 | the same for every run whose runtime failures concern active items; the base is the live one exactly when nothing new was seen since it first appeared |
| `Restarts.OnlyCancelledItemsReturn` | src/mergewave/controller.py:520-538 | the active items of a rebuilt controller are the live ones, with their runs, and the cancelled ones; so they are the live ones exactly without cancellations |
| `Restarts.BarrierRestartRefused` | src/mergewave/controller.py:1333-1334 | under the barrier a restart is refused exactly when the base was ever refreshed |
| `Restarts.LateFailureForgetsRelease` | src/mergewave/controller.py:680-698 | exactly when a late failure makes a restart forget a release |
| `RestartReuse.StartClashes` | src/mergewave/controller.py:342-360 | a run id is in the log exactly when the run was started; a start conflicts exactly with a different recorded one |
| `RestartReuse.PlacesFollowNumbers` | src/mergewave/controller.py:279-283 | a worktree or branch was issued exactly when an attempt of that item and number was started |
| `RestartReuse.RestartRebuilds` | src/mergewave/controller.py:1296-1427 | what a rebuilt controller starts from: the live frontier, runs and prompts, the restored base, no attempt numbers |
| `RestartReuse.RestartedDispatch` | src/mergewave/controller.py:1387-1393 | after a restart a ready item is attempt 1 again; exactly when its worktree and branch were issued, and, where the caller's checks pass, exactly when dispatching raises a log conflict |
| `RestartReuse.RestartedRetry` | src/mergewave/controller.py:482-518 | after a restart a retried item is attempt 2 again; exactly when its worktree and branch were issued, and, where the caller's checks pass, exactly when the retry raises a log conflict |
| `ExampleRuns.ReopenedFrontierConflicts` | src/mergewave/controller.py:252-369 | a run whose superseded item, dispatched after a restart, conflicts with its first start |
| `ExampleRuns.ReopenedRetryConflicts` | src/mergewave/controller.py:482-518 | a run whose retried item, retried again after a restart, conflicts with the start that is running |
| `ExampleRuns.ChangedPromptRaises` | src/mergewave/controller.py:482-518 | a retry that raises once the attempt is superseded, leaving its item on the frontier |
| `RebuiltRuns.RebuiltIsInStep` | src/mergewave/controller.py:1354-1427 | a restart makes active exactly what the log has open |
| `RebuiltRuns.DispatchInStep` | src/mergewave/controller.py:252-369 | a dispatch of any controller in step stays in step exactly when the log has none of the run ids it starts under |
| `RebuiltRuns.ActInStep` | src/mergewave/controller.py:252-538 | the same for every call |
| `RebuiltRuns.PlayInStep` | src/mergewave/controller.py:252-538 | the same after each call of a run |
| `RebuiltRuns.RebuiltRunsStayInStep` | src/mergewave/controller.py:245-250 | hence for the runs that go on from the restart of a live controller, or of a rebuilt one in step |
| `RestartPlaces.RestartPutsBack` | src/mergewave/controller.py:1354-1427 | after the restart of a live controller every active item is dispatched from its run's base in the workspace recorded at its start, and is decided as before on every observation exactly when that workspace is where the item was sent |
| `RestartPlaces.EveryRunIsPutBack` | src/mergewave/controller.py:1387-1393 | the same for every run of calls of a new controller, under either policy |
| `RestartPlaces.RebuiltSim` | src/mergewave/controller.py:1296-1427 | a rebuilt simulator dispatches exactly the open items and has observed and decided nothing |
| `AttemptRecords.RestartKeepsAttempts` | src/mergewave/controller.py:1367-1386 | a restart gives every active item the attempt, with the state, it had |
| `AttemptRecords.RebuiltBooks` | src/mergewave/controller.py:1311-1325 | which tickets a rebuilt controller takes as published |
| `BarrierRestarts.BarrierRestart` | src/mergewave/simulator.py:276-288 | what a restart makes of active wave and barrier in both layers |
| `BarrierRestarts.LastRestoredOpensBarrier` | src/mergewave/scheduler.py:102-107 | after a restart the barrier opens for the last listed item to leave, others in flight or not |
| `BarrierRestarts.RestartStalls` | src/mergewave/simulator.py:225-231 | a restart from a log without a refresh is stalled exactly when an item is open on an active wave and one of the last active wave is not |
| `BarrierRestarts.LiveRestartStalls` | src/mergewave/controller.py:1344-1353 | the same in terms of the live controller before the restart |
| `BarrierRestarts.HalfDoneWavesStall` | docs/superpowers/specs/2026-08-14-mergewave-design.md:55-59 | while an item is in flight: exactly when an item of its wave is neither active nor cancelled |
| `BarrierRestarts.FirstApprovalWouldStall` | src/mergewave/controller.py:417-456 | approving one of two items in flight is enough |
| `BarrierRestarts.StallsForGood` | src/mergewave/simulator.py:225-253 | a stalled controller starts nothing and never moves its base, over every run without a retry or cancellation |
| `ExampleRuns.HalfDoneWaveStalls` | src/mergewave/scheduler.py:102-127 | a run of three items that stalls so |
| `ExampleRuns.ReopenedFrontierIsLost` | src/mergewave/persistence.py:50-53 | a run whose superseded item is started again after a restart without a conflict, and is closed in the log |
| `ExampleRuns.ExpiredAuthorityRaises` | src/mergewave/controller.py:1162-1182 | a retry that raises after superseding, since the template no longer passes |
| `ExampleRuns.RetryIsRecorded` | src/mergewave/controller.py:482-518 | a retry that replaces the attempt and records the new start |
| `ExampleRuns.CancelledItemReturns` | src/mergewave/controller.py:520-538 | a run whose cancelled item is active again after a restart |
| `ExampleRuns.BarrierRunIsRefused` | src/mergewave/controller.py:1333-1334 | a barrier run whose restart is refused |
| `ExampleRuns.LateFailureIsReported` | src/mergewave/controller.py:680-698 | a run whose delivered item is no longer finished for a restart |
| `Restarts.BaseSurvives` | src/mergewave/controller.py:459-465 | the last new revision is the live base exactly when nothing new was seen since |
| `Restarts.ForwardBaseSurvives` | src/mergewave/controller.py:459-465 | a base that never returns to an earlier revision always survives a restart |
| `ExampleRuns.ReturningBaseIsLost` | src/mergewave/controller.py:459-465 | a run of three refreshes after which a restart goes back to the second |
| `DeliverySupervisors.DeliverySupervisor.BeginStreams` | src/mergewave/supervisor.py:63-67 | starts a stream for each attached run that has none yet |
| `DeliverySupervisors.DeliverySupervisor.Drain` | src/mergewave/supervisor.py:69-81 | empties the queue, ends marked streams, collects events of active runs |
| `DeliverySupervisors.DeliverySupervisor.ApplyTimeouts` | src/mergewave/supervisor.py:83-91 | adds one timeout per overdue run and marks it consumed |
| `DeliverySupervisors.DeliverySupervisor.HandOver` | src/mergewave/supervisor.py:93-104 | hands batches over in turn, retrying within the bound; a call that raises ends the loop |
| `DeliverySupervisors.DeliverySupervisor.ReconcileAll` | src/mergewave/supervisor.py:106-108 | reconciles a snapshot of the active items in turn |
| `DeliverySupervisors.DeliverySupervisor.RunOnce` | src/mergewave/supervisor.py:60-109 | one cycle, for any arrivals in between; keeps the controller in step and the attempts bounded |
| `SupervisionLaws.DrainIsExact` | src/mergewave/supervisor.py:69-81 | each active item gets exactly the queued events of its active run, in emission order, and nothing else is kept |
| `SupervisionLaws.CycleHandsOver` | src/mergewave/supervisor.py:63-91 | a cycle's batches are those events followed by at most one timeout |
| `StreamLaws.CyclesMoveStreams` | src/mergewave/supervisor.py:63-91 | one cycle, run by run: whose stream is started, since when it runs, and that it is consumed exactly by its end or by a timeout |
| `SupervisionLaws.BatchesReachTheirRun` | src/mergewave/supervisor.py:93-104 | when a batch is reached its item still has the assignment it was collected for |
| `SupervisionLaws.HandOverStops` | src/mergewave/supervisor.py:93-104 | once a call has raised, what follows is not handed over |
| `StreamLaws.LateFailureEndsHandOver` | src/mergewave/supervisor.py:93-97 | a failure of an item that is active no longer is marked and raises |
| `StreamLaws.FailureIsMarkedFirst` | src/mergewave/supervisor.py:93-104 | a failure of an active item is marked, also where it is retried at once |
| `RetryLaws.RuntimeVerdictsAreExact` | src/mergewave/runtime.py:209-216 | which runtime events are failures, and that each may be retried |
| `RetryLaws.VerdictsAreExact` | src/mergewave/controller.py:562-678 | skill checks come first, then the event speaks for itself |
| `RetryLaws.FailureIsHandled` | src/mergewave/supervisor.py:93-104 | one failed batch: retried exactly when retries are on, the failure allows it, the attempt is below the bound, the workspace is gone and the caller's checks pass; its next attempt is one higher; otherwise the assignment stays or the call raises |
| `RetryLaws.RetriesAreExact` | src/mergewave/supervisor.py:93-104 | over whole hand-overs an item is reported as retried exactly when that holds of its batch |
| `RetryLaws.CyclesRetry` | src/mergewave/supervisor.py:60-109 | the same for whole cycles, with the assignment the item ends them with |
| `SupervisionLaws.ReconcileAllKeeps` | src/mergewave/supervisor.py:106-108 | the snapshot never meets an item that is no longer active |
| `CycleLaws.CyclesReport` | src/mergewave/supervisor.py:106-109 | when an item's turn comes it still has its assignment, and the decision or failure its reconciliation came to is on record after the cycle |
| `CycleLaws.CyclesRaise` | src/mergewave/supervisor.py:93-109 | a cycle raises exactly when handing over does, or else some reconciliation of the items active then |
| `SupervisedRuns.SupervisionIsBounded` | src/mergewave/supervisor.py:93-104 | no attempt exceeds the bound, starts never exceed items times the bound, and no stream is started twice |
| `SupervisedRuns.StreamsArriveInOrder` | src/mergewave/supervisor.py:60-128 | over whole runs, what is collected of a stream is a prefix of what it emitted, and all of it while its run is active |
| `SupervisedRuns.EndedRunsStaySilent` | src/mergewave/supervisor.py:80-81 | nothing more is ever collected for a run that ended |
| `Lifecycles.NextJudges` | src/mergewave/lifecycle.py:120-155 | the router answers for the first stage it does not pass over, and passes over the rest for a reason |
| `LifecycleLaws.JudgementIsExact` | src/mergewave/lifecycle.py:131-155 | for any stages: when a stage runs, is skipped, blocks or is passed over, by what it waits for and what was reported |
| `LifecycleLaws.DecisionsNameTheirSkill` | src/mergewave/lifecycle.py:134 | a decision names the selected skill of its stage, and else its first |
| `Lifecycles.LifecycleSession.AdvanceAfterStage` | src/mergewave/lifecycle.py:394-448 | the skip loop ends, and the session moves as specified |
| `Lifecycles.LifecycleSession.RunStage` | src/mergewave/lifecycle.py:263-333 | one inner stream is read up to its exit and settles the stage |
| `LifecycleLaws.Stream` | src/mergewave/lifecycle.py:263-333 | the outer loop ends with an exit, after at most as many inner runs as stages, none of them broken off with code 0 |
| `LifecycleLaws.OutcomeProgresses` | src/mergewave/lifecycle.py:394-448 | each outcome moves strictly forward, or ends the session |
| `LifecycleLaws.RunsAreMonotone` | src/mergewave/lifecycle.py:120-155 | for any stages and any results, stages are started or skipped with rising indices, none twice |
| `LifecycleLaws.StartsWithTheFirstStage` | src/mergewave/lifecycle.py:224-236 | a lifecycle can be started exactly when its first stage waits for nothing |
| `LifecycleLaws.DecisionIsFresh` | src/mergewave/lifecycle.py:120-155 | a stage to run or skip is new, and everything before it is settled |
| `LifecyclePipeline.DefaultIsRouter` | src/mergewave/lifecycle.py:57-72 | the nine default stages form a valid router |
| `LifecyclePipeline.GoodStep` | src/mergewave/lifecycle.py:57-72 | after a good result the default pipeline starts the next stage, skipping `debug` |
| `LifecyclePipeline.BadStep` | src/mergewave/lifecycle.py:131-155 | after a bad result only `implement-test` leads on, to `debug` |
| `LifecyclePipeline.DiagnosisEnds` | src/mergewave/lifecycle.py:401-448 | nothing starts after `debug`, whatever it reports |
| `LifecyclePipeline.DefaultPipelineOrder` | src/mergewave/lifecycle.py:57-72 | in every run `debug` comes last and only after a failed `implement-test`, stages start after their whole chain, and exit 0 means every stage before the last is done |
| `LifecyclePipeline.RunPipeline` | src/mergewave/lifecycle.py:224-333 | the runtime over the default stages, whatever the delegate streams: it ends, exit 0 means every stage before the last is done, `debug` starts last and after a failed `implement-test` only |
| `LifecyclePipeline.LastFailureExitsCleanly` | src/mergewave/lifecycle.py:429-432 | a failing last stage still exits with 0 |
| `LifecyclePipeline.FailedWrapUpExitsCleanly` | src/mergewave/lifecycle.py:429-432 | a whole run from the start that does |
| `LifecycleLaws.BreaksAreNonZero` | src/mergewave/lifecycle.py:401-412 | a run broken off by the runtime never exits with 0 |
| `LifecycleLaws.StagesReportTheirLastResult` | src/mergewave/lifecycle.py:263-333 | a stage reports a status exactly when its last good result before a clean end has it; a break ends the session with its code |
| `LifecycleLaws.OtherEndsBreak` | src/mergewave/lifecycle.py:401-412 | a bad result, an unclean exit, a missing result and a raising stream break the run off, with these codes |
| `LifecyclePipeline.FailedTestsAreDiagnosed` | src/mergewave/lifecycle.py:413-448 | when `implement-test` streams a failing status `debug` starts next, and otherwise it is passed over |
| `Skills.ScopePath` | src/mergewave/skills.py:53-60 | a scope path is relative, not empty and a prefix of what was given |
| `Skills.ScopePathIsExact` | src/mergewave/skills.py:53-60 | which paths are refused; the others only lose trailing slashes |
| `Skills.SegmentsJoin` | src/mergewave/skills.py:57-58 | segments are the text taken apart at its slashes |
| `Skills.MayWriteIsExact` | src/mergewave/skills.py:127-134 | an envelope allows writing exactly what its allowed paths cover by segments |
| `Skills.CoverageIsBySegments` | src/mergewave/skills.py:127-134 | the text test for coverage is the prefix test on path segments, in both directions |
| `Skills.VerifyIsExact` | src/mergewave/skills.py:627-656 | verification accepts exactly unexpired envelopes in the same root under which every committed and every changed path is writable, and lists exactly these paths |
| `Skills.RefusalsAreExact` | src/mergewave/skills.py:627-656 | what verification says of each stage it does not accept |
| `Skills.CollectChanges` | src/mergewave/skills.py:642-649 | the loop collects exactly the committed and the differing paths |
| `Skills.ProtectedPathsSurvive` | src/mergewave/controller.py:844-852 | over any chain of accepted stages a path no stage may write keeps its index and working state |
| `Skills.OutsidePathsSurvive` | src/mergewave/controller.py:844-852 | the same for every path outside all allowed paths, by segments |
| `SkillLedgers.SkillLedger.BeginAttempt` | src/mergewave/controller.py:288-302 | a new attempt starts with its invocation, a fresh baseline and no result seen |
| `SkillLedgers.SkillLedger.RetireAttempt` | src/mergewave/controller.py:507 | a retired attempt is no longer active, its results stay |
| `SkillLedgers.SkillLedger.RecordStageStarted` | src/mergewave/controller.py:700-749 | accepts a stage bound to the active attempt and takes a new baseline |
| `SkillLedgers.SkillLedger.RecordResult` | src/mergewave/controller.py:751-842 | records an accepted result once, under a key never reused |
| `SkillLedgerLaws.ActAppends` | src/mergewave/controller.py:751-842 | every recorded result names the run, attempt and invocation active at that moment |
| `SkillLedgerLaws.ResultsAreAcceptedExactly` | src/mergewave/controller.py:751-812 | a result is accepted exactly when it is bound to item, run, workspace and invocation and the verifiers pass; its record keeps what they observed |
| `SkillLedgerLaws.StagesAreAcceptedExactly` | src/mergewave/controller.py:700-731 | a stage is accepted exactly when it is bound and carries its skill pack and an envelope in force |
| `SkillLedgerLaws.ResultFaultsAreExact` | src/mergewave/controller.py:751-790 | the first check a result fails names the refusal |
| `SkillLedgerLaws.VerifiersRefuseExactly` | src/mergewave/controller.py:786-800 | why a bound result is refused |
| `SkillLedgerLaws.StageFaultsAreExact` | src/mergewave/controller.py:700-731 | the first check a stage fails names the refusal |
| `SkillLedgerLaws.InactiveIsRefused` | src/mergewave/controller.py:700-703 | a stage of an item without an active attempt is refused as such |
| `SkillLedgerLaws.StagesStartOver` | src/mergewave/controller.py:730-733 | from an accepted stage on only its invocation reports, for changes made since |
| `SkillLedgerLaws.ResultsAreSeenExactly` | src/mergewave/controller.py:637-652 | after every run an exit finds a result of the active invocation exactly when one was recorded since it was given |
| `SkillLedgerLaws.FoldIsLive` | src/mergewave/controller.py:162-166 | folding the log gives exactly the live per-item results, in every run that starts so |
| `SkillLedgerLaws.EveryRunFolds` | src/mergewave/controller.py:162-166 | hence in every run of a new ledger |
| `SkillLedgerLaws.SupersededStaysSilent` | src/mergewave/controller.py:482-518 | no result of a superseded attempt is ever added |
| `SkillLedgerLaws.RetiredStaysSilent` | src/mergewave/controller.py:482-518 | retiring an attempt keeps its results and admits no more |
| `SkillLedgerLaws.RebindingKeepsTheSkill` | src/mergewave/skills.py:215-238 | unbinding and binding again gives the same invocation, and another attempt exactly when the attempt differs |
| `SkillLedgerLaws.BindingNeedsAuthority` | src/mergewave/skills.py:215-238 | binding fails for want of an authority alone |
| `SkillLedgerLaws.BoundStagesAreAccepted` | src/mergewave/controller.py:700-749 | a stage bound to the active attempt is accepted exactly when version and manifest are those the attempt started with |
| `SkillLedgerLaws.OtherAttemptsAreRefused` | src/mergewave/controller.py:708-760 | a stage or a result bound to another attempt is refused and changes nothing |
| `SkillLedgerLaws.RedeliveryIsInert` | src/mergewave/controller.py:813-835 | a result delivered again changes nothing; it is accepted exactly when the envelope is in force and the root, head, artifacts and paths found changed are those of the first delivery |
| `SkillLedgerLaws.RedeliveryInQuietWorkspace` | src/mergewave/controller.py:813-835 | in an untouched workspace that is exactly when the first delivery had seen no change |
| `SkillLedgerLaws.RedeliveryIsRefused` | src/mergewave/controller.py:813-835 | a run in which the second delivery is refused, and one in which it is not |
| `Reliability.Arp3Recorder.RecordRun` | src/mergewave/reliability.py:81-117 | starting an episode emits its first two checkpoints |
| `Reliability.Arp3Recorder.RestoreRun` | src/mergewave/reliability.py:119-124 | a restored run continues at the given number |
| `Reliability.Arp3Recorder.RecordGateDecision` | src/mergewave/reliability.py:160-196 | a decision closes the episode, a pending one emits nothing |
| `Reliability.Arp3Recorder.RecordGateRequest` | src/mergewave/reliability.py:198-223 | a request emits one checkpoint |
| `Reliability.RestoringReopens` | src/mergewave/controller.py:1354-1431 | restoring the assignments the log has open, one after another and in any order, gives the recorder a restart starts with |
| `ReliabilityLaws.StartOpens` | src/mergewave/controller.py:113-122 | a start opens its run in the log exactly when the log has no start of it |
| `ReliabilityLaws.RestartOrderly` | src/mergewave/controller.py:1428-1431 | counters restored for the runs open in the log continue where their emissions stopped |
| `ReliabilityLaws.EpisodesAreOrderly` | src/mergewave/reliability.py:231-255 | over every run of calls of a new recorder, each episode's emissions are numbered 0, 1, 2, ... in their fixed order exactly when no request is recorded for a run whose decision is on record |
| `ReliabilitySettling.SettlingKeepsOrder` | src/mergewave/controller.py:440-447 | which never happens when every approval that records its decision also settles: the tracker takes the item, and it was not done before |
| `ReliabilityFaults.NumberingAfterRestart` | src/mergewave/controller.py:1428-1431 | the next request of a restored run keeps the numbering exactly unless the run was decided without one |
| `ReliabilityFaults.ReconcileRaises` | src/mergewave/controller.py:1003-1111 | a reconciliation raises exactly for a run the recorder does not know with a request or decision to record, or when the tracker refuses the item as done |
| `ReliabilityFaults.CallsRaiseExactly` | src/mergewave/controller.py:371-538 | which other calls raise |
| `ReliabilityFaults.CallsMoveItems` | src/mergewave/controller.py:371-538 | which items are worked on, and which are done, after each call |
| `ReliabilityFaults.CallsRemember` | src/mergewave/controller.py:1003-1111 | each item asks once, and is decided once per attempt that is not superseded |
| `ReliabilityFaults.EmissionSurvives` | src/mergewave/controller.py:1354-1431 | after any run and a restart, recording raises exactly for a run on record that the restart did not restore from the log |
| `ReliabilityFaults.RecordingNeverRaises` | src/mergewave/controller.py:1003-1111 | without a restart recording never raises |
| `ReliabilityFaults.ReusedRunRaises` | src/mergewave/controller.py:949-1001 | a run that is started, superseded and started again after a restart, whose next request raises |
| `ReliabilityFaults.RefusedApprovalMisnumbers` | src/mergewave/controller.py:440-447 | an approval that is recorded and then refused by the tracker, and the restart after which its request repeats a number |

## Left out

- Adapters (GitHub, Linear, ACP, Git and CLI processes), the profile registry and the command line: only their answers appear.
- Human-readable texts of failures and issues, tracker comments, prompts built from templates, ARP document contents.
- The alphabets of skill names, versions and ids, and the texts of invocation ids, which are structured values here.
- Field names of raw tickets are texts; sorting other keys is not modelled.
- Title patterns and the verb list of the validator: a parameter that maps a title to issues.
- SQL, JSON encoding and digests: rows keep order without sequence numbers, payloads are compared as values.
- Event keys and run ids are structured values; that run-id texts determine them is proved in `Identity`, the same for the texts of event keys is not.
- Controller events for evidence, pull requests, project snapshots, failure records, orphaned runtimes and ARP emissions: nothing modelled reads them back. Skill events have their own ledger, and skill checks on runtime events are arbitrary findings.
- A workspace factory, baseline capture or runtime that raises half-way through a dispatch: such calls answer normally here, so theorems speak about the time between calls.
- A tracker that refuses a transition: the controller's ticket moves answer normally here, except the move to done in `Reliability`, where the refusal is modelled.
- Scheduling.Scheduler.RestoreWave: wave ids are numbers, so an id without a numeric suffix, which leaves the counter alone, cannot be given; no scheduler makes one.
- Projections.FromEventLog: reduces what rebuilding the modelled controller needs; evidence, pull requests, project snapshots, failure records, emissions and skill results are not reduced here.
- DeliveryControllers.DeliveryController.ObserveRuntimeEvents: skill checks are arbitrary findings, and the events that record rejected claims are not logged.
- DeliveryControllers.DeliveryController.MarkRuntimeFailure: the failure record it also keeps is not modelled; nothing modelled reads it.
- DeliveryControllers.FromEventLog: rebuilds what Rehydrate does, and leaves out what it leaves out.
- SkillLedgers.SkillLedger.RecordStageStarted: leaves out the logged stage event, which stands under the runtime's own event id and conflicts when that id was used for another event, and the copy of the attempt that names the stage; nothing modelled reads them.
- RestartReuse.RestartedDispatch: like `RestartReuse.RestartedRetry`, about the first call after one restart, over validated item ids; how runs go on is `RebuiltRuns`, which follows active assignments and not tickets, waves or prompts.
- ReliabilityLaws.EpisodesAreOrderly: numbers lifecycle documents; the run, evidence and gate documents written beside them are not modelled.
- DeliveryControllers.DeliveryController.Rehydrate: does not say whether a runtime could be reattached, nor restore evidence, recorded decisions or skill baselines.
- Restarts.RestartRefines: claims neither the state of restored waves nor the active wave, which `WaveRecords` and `BarrierRestarts` do, and compares run ids rather than attempt numbers, which the code does not restore.
- AttemptRecords.RestartKeepsAttempts: the source marks an attempt whose runtime cannot be reattached as orphaned; reattaching is not modelled.
- LifecyclePipeline.DefaultIsRouter: the names of stages, skills and modes are not checked for their alphabets.
- SupervisedRuns.StreamsArriveInOrder: counts what a drain collects; a batch after a call that raised is collected but not handed over.
- Threads are arrivals of already tagged messages. The source's thread looks its assignment up again when it runs, so that a stream of a replaced run could read the replacement's handle; that lookup is not modelled.
- SupervisedRuns.SupervisionIsBounded: holds within one lifetime of the controller, with retries only by the supervisor.
- Skills.ProtectedPathsSurvive: covers one chain of verified stages; the capture at a stage start takes a baseline without verifying and begins a new chain.
- Skills.VerifyIsExact: takes the committed paths of `git diff` as an arbitrary set and expiry as a flag.
- The polling loop around supervision cycles, the cycle's report of decisions, and the attempt history: bookkeeping no property rests on.
- Dictionary order of restored assignments is a parameter; the order of other dictionaries is insertion order.
