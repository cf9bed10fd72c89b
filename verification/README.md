# Verified model of ELKeeper's maintenance and cluster protocols

ELKeeper runs maintenance on Elasticsearch hosts: it takes hosts and containers out of
service and back, guards a cluster's shard allocation meanwhile, moves clusters between
availability zones, hands out ports and rotates its own SSH key. Each of these is a small
protocol over a durable store and remote calls that may fail, succeed, or fail after they
took effect. This project models those protocols and proves what they keep over whole runs.

`dafny verify dfyconfig.toml` checks everything.

## How it is built

| file | what it models |
|---|---|
| `AllocationSettings.dfy`, `AllocationGuard.dfy`, `AllocationGuardRuns.dfy` | the two-layer allocation setting, the guard controller and service, runs with lost writes and crashes |
| `Wrappers.dfy` | optional values and refused operations |
| `Lifecycle.dfy`, `Store.dfy` | the four transition tables; the maintenance tables and repository operations |
| `Execution.dfy`, `ExecutionRuns.dfy` | the action coordinator with its locks, and its runs |
| `Saga.dfy` | host and container maintenance as programs over the tables and the adapters |
| `SagaConnection.dfy`, `HostMaintenance.dfy`, `ContainerMaintenance.dfy` | the connection and the two services as classes, with the source's loops, proved to end exactly as the programs do |
| `SagaRecovery.dfy`, `SagaWriteAhead.dfy`, `SagaMaintenance.dfy`, `SagaClaims.dfy` | what the programs keep over whole runs: failure, write-ahead, the reboot predicates, claims |
| `SagaRoundTrip.dfy`, `SagaCompletion.dfy`, `SagaGuards.dfy`, `SagaOrder.dfy` | what completed actions have done: the round trip, the answers, the guards, order and numbering |
| `SagaProgress.dfy`, `SagaJourney.dfy` | when actions complete: forecasts of the tables, and a whole maintenance foretold |
| `Zoning.dfy`, `ZoneCatalog.dfy` | zoning apply with rollback, host zone changes, the catalog guards |
| `Ports.dfy`, `PortPolicy.dfy` | port allocation and profiles, the three conflict checks |
| `KeyRotation.dfy` | controller key staging and activation |
| `Planning.dfy` | canonical form, plan compilation and hash |

A maintenance action is a sequence of statements (`Saga.Act`), and `Saga.Exec` says what
running one does to the open transaction, to what is committed, to the log of requests that
left the controller and to the remote settings. A controller that dies, or an exception that
leaves the action, keeps a prefix of the program and only what the last commit made durable
(the connection is closed without a commit when an exception passes through it). Theorems
about failure therefore quantify over every prefix of every program. The classes are the
imperative form of the same actions; their postconditions tie them to the programs, and
the theorems are about the programs.

## What was found

* **Recovery marks are lost.** `_recover` writes to the open transaction and the exception it
  answers then closes the connection without a commit. The marks are right and complete in
  that transaction (`RecoveryIsComplete`) and none survives (`RecoveryMarksAreLost`); what
  does survive is the announced intent (`EveryEffectIsAnnounced`).
* **A finished action may fail to close.** Finalization needs unexpired locks and nothing
  renews them during an action. When one has expired the plan already reads succeeded and
  recovery leaves it so while the host is put in recovery (`CloseWithExpiredLocks`).
* **Large hosts.** Step numbers collide from 100 targets on, so a maintenance that meets no
  other obstacle completes exactly up to 99 (`MaintenanceCompletesExactlyUpTo99`). With 100
  the host is taken down, every unit is started and verified again, and then the return
  fails; with more it cannot even be stopped (`LargeHostsCannotReturn`).
* **The guard's phase is not looked at.** A host can be ready to stop without an active guard
  (`ReadyWithoutGuard`), and a maintenance can complete with the cluster's setting still
  overridden (`CompletedButStillGuarding`). Exactly when each does not happen, in terms of the
  answers: `ReadyIsGuardedExactlyWhen`, `ReturnGivesBackExactlyWhen`.
* **A container's preparation does not ask whether its workload is free.** Its mark may replace
  that of another plan (`PrepareMarksOverExactlyWhen`), but only in the open transaction: an
  owned workload is claimed at all times, the claim that follows refuses, and nothing of the
  attempt survives (`OwnedIsClaimed`, `PrepareTakesNothingOver`).
* **An `active` guard row can be stale** after a crash between a restoring write and its row
  (`ActiveIsTrueExactlyWhen`, `ActiveCanBeStale`).
* **Zoning exceptions are not walked back**, and a later apply can report success over the
  workload they left behind (`SkippedAfterRaise`). Exactly when records still agree with
  reality: `AgreesExactlyWhen`, `RaiseKeepsAgreementExactlyWhen`, `HostChangeUndoneExactlyWhen`.
* **A failed host zone change restores the old zone unchecked.** The new zone is committed
  before the workloads follow, and a catalog edit in between may drop the old one
  (`RestoreAfterEditBreaks`). Exactly when the catalogs hold: `CatalogsHoldExactlyWhen`; a
  check on each request that would be enough: `ZonesStayInCatalogs`.
* **Illegal close.** A never started plan that is cancelled and answered `recovery_required`
  is the only accepted answer that the lifecycle table refuses (`IllegalExactlyWhen`).
* Key activation relies on its check being in the same transaction (`SeparatedCheckBreaks`).

## Model

| member | source | states |
|---|---|---|
| AllocationSettings.RenderedLayerIsRead | app/modules/maintenance/elasticsearch.py:441-459 | A layer rendered in flat or nested form among any other settings reads back as the value written, or as absent |
| AllocationSettings.CaptureReadsTheLayers | app/modules/maintenance/elasticsearch.py:462-473 | Capturing any faithful rendering of the two layers gives exactly those layers |
| AllocationSettings.RestorationRoundTrip | app/modules/maintenance/elasticsearch.py:430-439 | Applying the restoration payload of a capture, to any state of the setting, and capturing again gives the captured layers back |
| AllocationSettings.GuardPutTakesEffect | app/modules/maintenance/elasticsearch.py:566-575 | The guard's write sets the persistent layer to `primaries` and leaves the transient one; it takes effect exactly when no other transient value stands above it |
| AllocationGuard.AllocationGuardController.Capture | app/modules/maintenance/elasticsearch.py:548-558 | Succeeds exactly when the settings can be read, and then holds the layers in force |
| AllocationGuard.AllocationGuardController.Activate | app/modules/maintenance/elasticsearch.py:560-609 | `Activated` implies the verifying read saw the guard in force, `Failed` that cleanup saw the captured layers; every other answer carries cleanup evidence; the result validators accept every result |
| AllocationGuard.AllocationGuardController.Restore | app/modules/maintenance/elasticsearch.py:611-687 | Restored if and only if the verifying read saw both captured layers, whether or not the write reported an error; the result validator accepts every result |
| AllocationGuard.GuardRepository.Create | app/modules/maintenance/store.py:1581-1620 | A guard row is created unless another guard of the cluster is outstanding; the same capture again is accepted unchanged |
| AllocationGuard.GuardRepository.Transition | app/modules/maintenance/store.py:1622-1663 | A guard row moves under its owner, at its revision, along the phases that the table's trigger allows |
| AllocationGuard.AllocationGuardService.Capture | app/modules/maintenance/allocation_guards.py:35-60 | Capture against the durable row: owner's row returned, others refused, a new row only from a readable setting |
| AllocationGuard.AllocationGuardService.Activate | app/modules/maintenance/allocation_guards.py:62-78 | Activation recorded after the remote write; an error that escapes the controller is recorded as recovery required and raised again |
| AllocationGuard.AllocationGuardService.Restore | app/modules/maintenance/allocation_guards.py:80-92 | Restoration recorded after the remote write, a restored row being left alone |
| AllocationGuardRuns.SettingIsNeverLost | app/modules/maintenance/allocation_guards.py:35-133 | After any run by any plans, with lost writes and crashes: the setting is the original or the original with persistent `primaries`, the original when no guard is outstanding; one guard at most is outstanding; every capture is the original; the store refuses no next operation |
| AllocationGuardRuns.CapturesNeverChange | app/modules/maintenance/allocation_guards.py:121-133 | A guard row is never dropped, its capture never rewritten, a restored row never touched again |
| AllocationGuardRuns.OthersChangeNothing | app/modules/maintenance/allocation_guards.py:94-111 | While one plan's guard is outstanding no operation of another plan changes the setting or a row |
| AllocationGuardRuns.OneHealthyRestoreIsEnough | app/modules/maintenance/allocation_guards.py:80-92 | From every reachable state one restoration whose write and read work gives the owner the original setting back |
| AllocationGuardRuns.ActiveIsTrueExactlyWhen | app/modules/maintenance/allocation_guards.py:62-92 | An `active` row is true if and only if no restoring write has reached the cluster since that activation from a controller that then died (or the original setting was itself guarding) |
| AllocationGuardRuns.ActiveCanBeStale | app/modules/maintenance/allocation_guards.py:68-72 | A run after which the row says `active`, the setting is back at the original, and activating again reports success without a write |
| Lifecycle.TerminalIsFinal | app/modules/maintenance/lifecycle.py:71-81 | A plan state is terminal exactly when the transition table lets nothing leave it |
| Store.RecordStepFrame | app/modules/maintenance/store.py:1427-1540 | Recording a step changes steps and checkpoints only, keeps every earlier checkpoint, content included, and puts the announced one in place; a key recorded before is accepted only with the same content |
| Execution.MaintenanceExecutionService.CurrentToken | app/modules/maintenance/execution.py:151-160 | The plan's owner token, present exactly when it holds an active lock |
| Execution.MaintenanceExecutionService.Prepare | app/modules/maintenance/execution.py:133-205 | Opening an action: state, checks, stale locks, run, all locks under one token, and the move to executing, as one function of the tables; and what a refused opening leaves in the open transaction |
| Execution.MaintenanceExecutionService.RecoverStaleLocks | app/modules/maintenance/execution.py:482-514 | Every expired lock needs its own evidence; then all are dropped and the whole lock set is taken again; if that is refused they stay dropped in the open transaction |
| Execution.MaintenanceExecutionService.ReleaseActiveLocks | app/modules/maintenance/execution.py:516-536 | Releases all locks of the plan's token; refuses while one has expired; a refusal changes nothing |
| Execution.MaintenanceExecutionService.Finalize | app/modules/maintenance/execution.py:207-242 | Closing an action, and what a refused close leaves in the open transaction |
| Execution.MaintenanceExecutionService.Settle | app/modules/maintenance/execution.py:224-229 | The plan takes the adapter's state and a terminal plan gives up its locks; on a refusal the lifecycle move already stands |
| Execution.MaintenanceExecutionService.Fail | app/modules/maintenance/execution.py:244-279 | Executing and paused plans go to recovery, ready ones are blocked, others stay |
| ExecutionRuns.LocksFollowTheLifecycle | app/modules/maintenance/execution.py:151-242 | After any run of open, close and fail: a plan in flight owns its full lock set under one token, any other plan owns none, and terminal states are never left |
| ExecutionRuns.InvariantGivesTokens | app/modules/maintenance/execution.py:158-160 | One owner uses one token, so the token of a plan's first lock speaks for all of its locks |
| ExecutionRuns.IllegalExactlyWhen | app/modules/maintenance/execution.py:436-480 | Open then close is refused as an illegal transition exactly when a draft, ready or blocked plan is cancelled and the adapter answers `recovery_required` |
| ExecutionRuns.ClosedState | app/modules/maintenance/execution.py:470-480 | A close takes single table steps to the adapter's state, except that cancelling an executing plan passes through `paused` |
| ExecutionRuns.SuccessNeedsFreshLocks | app/modules/maintenance/execution.py:516-536 | A finished execution is accepted as succeeded if and only if none of its locks has expired |
| SagaRecovery.RecoveryIsComplete | app/modules/maintenance/host_maintenance.py:775-815 | Wherever before the close a host action breaks off: the owned host, every owned target and the plan end in recovery, other plans' assignments are untouched, and no attempted transition is refused, so the exception handlers hide nothing |
| SagaRecovery.CloseWithExpiredLocks | app/modules/maintenance/host_maintenance.py:483-495 | The close is refused exactly when a lock has expired, and then recovery leaves a succeeded plan that owns a host in recovery |
| SagaRecovery.ContainerRecoveryIsComplete | app/modules/maintenance/container_maintenance.py:433-460 | The same failure result for one workload that no other plan owns |
| SagaRecovery.PrepareMarksOverExactlyWhen | app/modules/maintenance/container_maintenance.py:351-361 | Inside its open transaction a container's preparation marks a workload over from another plan exactly when that workload is blocked or in recovery |
| SagaClaims.OwnedIsClaimed | app/modules/workloads/repository.py:324-354 | After any run of any plans' host and container actions, broken off anywhere, with reconciliations and other work in between: every workload whose maintenance a plan owns is claimed |
| SagaClaims.ClaimedIsRefused | app/modules/maintenance/container_maintenance.py:175-178 | On a claimed workload a container's preparation raises at the claim at the latest, and nothing it wrote survives, wherever it breaks off |
| SagaClaims.PrepareTakesNothingOver | app/modules/maintenance/container_maintenance.py:318-361 | After any such run a container's preparation takes no workload over from a plan: on an owned workload it cannot complete and the committed tables stay as they were; one that completes found its workload available, under no plan and unclaimed |
| SagaRecovery.HostPrepareRefuses | app/modules/maintenance/host_maintenance.py:618-623 | The host workflow refuses any target that is not available |
| SagaWriteAhead.ActionCovers | app/modules/maintenance/host_maintenance.py:821-824 | Inside any host or container action, at any statement: every request made is announced by what is committed |
| SagaWriteAhead.EveryEffectIsAnnounced | app/modules/maintenance/host_maintenance.py:319-329 | After any run of actions broken off anywhere, and at any point of a further one: every stop, start, reboot, cleanup, verification and settings write is covered by a committed `may_have_started` checkpoint or guard row |
| SagaMaintenance.SortedMembers | app/modules/maintenance/host_maintenance.py:319-319 | Sorting the targets neither drops nor repeats one |
| SagaMaintenance.LoopStops | app/modules/maintenance/host_maintenance.py:319-336 | When the stop loop has finished every target is in maintenance under the plan with a confirmed stop |
| SagaMaintenance.ActionKeepsReady | app/modules/maintenance/host_maintenance.py:308-411 | At every point of every admitted host action: a host in maintenance under a plan has every workload of the plan's manifest in maintenance under it, with its stop confirmed |
| SagaMaintenance.ContainerKeepsReady | app/modules/maintenance/container_maintenance.py:169-284 | At every point of every admitted container action of another plan: the same, a preparation being unable to move a workload out of maintenance |
| SagaMaintenance.ReconciledKeeps | app/modules/maintenance/workflow_recovery.py:88-157 | Reconciling an interrupted plan keeps it too: the host goes to recovery with its workloads |
| SagaMaintenance.DurableIsEarlier | app/modules/platform/db.py:15-27 | What survives an exception is the tables from before the action or as some earlier point of it had them |
| SagaMaintenance.RebootPredicatesPass | app/modules/maintenance/host_reboot.py:66-94 | After any run of any plans' host and container actions, broken off anywhere, with reconciliations in between, whenever a reboot is under way, both predicates pass at each of its points, on the open transaction and on what is durable |
| SagaRoundTrip.RoundTrip | app/modules/maintenance/host_maintenance.py:272-495 | Prepare, stop, optional reboot and return that complete: targets available under no plan, claims exactly as before, host available, plan succeeded without locks, each unit stopped once in stop order and started once in start order |
| SagaRoundTrip.HostPrepareClaims | app/modules/maintenance/host_maintenance.py:630-637 | A preparation that completes has claimed exactly its targets, all distinct and unclaimed before |
| SagaRoundTrip.ReturnCompletes | app/modules/maintenance/host_maintenance.py:648-668 | A return that completes leaves the targets free, their claims released and the plan succeeded without locks |
| SagaGuards.ActivationTells | app/modules/maintenance/elasticsearch.py:560-609 | From a captured setting the workflow goes on exactly when no other transient value stands above the guard and the read is not garbled; the row is then active exactly when the write was acknowledged and read back, else restored exactly when the cleanup worked, else in recovery |
| SagaGuards.ReadyIsGuardedExactlyWhen | app/modules/maintenance/host_maintenance.py:291-302 | A completed preparation has an active guard on a data cluster if and only if there was one or its activation was acknowledged and read back, for every data cluster and whatever guard operations went before; a guard it activated is in force |
| SagaGuards.ReadyWithoutGuard | app/modules/maintenance/host_maintenance.py:296-301 | From any host that can be prepared: a lost guard write with a working cleanup lets the whole preparation complete with the row restored and the setting never changed |
| SagaGuards.ReturnGivesBackExactlyWhen | app/modules/maintenance/host_maintenance.py:434-437 | A completed return has put a data cluster's captured setting back if and only if it was back already or the restoring write reached the cluster; the row says restored if and only if a read verified it |
| SagaGuards.CompletedButStillGuarding | app/modules/maintenance/host_maintenance.py:434-491 | A whole maintenance that completes, host available and plan succeeded, and leaves the cluster overridden with its row in recovery, because the phase is not looked at |
| SagaCompletion.ReturnedMeansVerified | app/modules/maintenance/host_maintenance.py:392-482 | A return that completes had confirmed answers from the host, every start, readiness and companions, the final verification and, after a reboot, the cleanup |
| SagaCompletion.RecoveryMarksAreLost | app/modules/maintenance/host_actions.py:73-91 | What survives a failed host action is the tables from before it or as an earlier point of it had them: the plan as it was opened or before, and no host and no assignment in recovery that was not so already |
| SagaCompletion.ContainerMarksAreLost | app/modules/maintenance/container_maintenance.py:433-460 | The same for a failed container action |
| SagaOrder.PrioritiesMirror | app/modules/maintenance/host_maintenance.py:196-237 | Stop and start priority of any role, known or not, sum to 60 |
| SagaOrder.StartsInReverse | app/modules/maintenance/host_maintenance.py:196-237 | Targets of different classes start in exactly the reverse of their stop order; ties go by assignment id both times |
| SagaOrder.DistinctExactlyUpTo99 | app/modules/maintenance/host_maintenance.py:724-741 | With n targets all step numbers of a host run differ if and only if n is at most 99 |
| SagaOrder.LargeHostsCannotReturn | app/modules/maintenance/host_maintenance.py:742-768 | No host with more than 99 workloads completes its return, none with more than 100 its stop, whatever the adapters answer |
| SagaJourney.PrepareCompletes | app/modules/maintenance/host_maintenance.py:272-302 | A free host with free, unclaimed, distinct targets and unguarded clusters is prepared to the end, for any number of targets, whatever its activations report short of raising |
| SagaJourney.MaintenanceCompletesExactlyUpTo99 | app/modules/maintenance/host_maintenance.py:713-768 | With free targets, unexpired locks, guards that do not raise and adapters that confirm, prepare, stop, reboot and return all complete if and only if the host has at most 99 workloads; with exactly 100 every unit is started and verified again before the return fails |
| SagaConnection.Connection.TransitionHostState | app/modules/maintenance/store.py:1815-1850 | Moves the host and its workflow together at the revision given, or refuses and changes nothing |
| SagaConnection.Connection.TransitionHostWorkflowState | app/modules/maintenance/store.py:1852-1877 | Moves the host's workflow at its revision along the table, or refuses and changes nothing |
| SagaConnection.Connection.TransitionAssignmentState | app/modules/maintenance/store.py:1690-1724 | Moves an assignment at the revision given along the table, or refuses and changes nothing |
| SagaConnection.Connection.ClaimAssignment | app/modules/workloads/repository.py:324-339 | Claims one unchanged, active, unclaimed workload, or changes nothing |
| SagaConnection.Connection.ReleaseAssignment | app/modules/workloads/repository.py:341-354 | Releases only the run's own claim, or changes nothing |
| SagaConnection.Workflow.RecordHostStep | app/modules/maintenance/host_maintenance.py:713-768 | Step and checkpoint of a host action under its number, as the program's statement does |
| SagaConnection.Workflow.RecordStartedStep | app/modules/maintenance/container_maintenance.py:393-404 | Intent of a container step, as the program's statement does |
| SagaConnection.Workflow.RecordVerifiedStep | app/modules/maintenance/container_maintenance.py:406-431 | Verified container step, as the program's statement does |
| SagaConnection.Connection.DurableBoundary | app/modules/maintenance/host_maintenance.py:821-824 | Commits the open transaction |
| SagaConnection.Connection.GuardOperation | app/modules/maintenance/allocation_guards.py:35-92 | One guard service call and the settings write it sends |
| HostMaintenance.HostMaintenanceService.PrepareAssignments | app/modules/maintenance/host_maintenance.py:607-646 | Four loops over the targets: check all, mark all, claim all, make all ready; stops at the first refusal |
| HostMaintenance.HostMaintenanceService.PrepareWork | app/modules/maintenance/host_maintenance.py:279-302 | The preparation ends exactly as its program does, for any number of targets and clusters |
| HostMaintenance.HostMaintenanceService.StopTargets | app/modules/maintenance/host_maintenance.py:319-336 | The stop loop ends exactly as the stop program of the sorted targets does |
| HostMaintenance.HostMaintenanceService.ReturnTargets | app/modules/maintenance/host_maintenance.py:408-433 | The return loop ends exactly as the return program of the sorted targets does |
| HostMaintenance.HostMaintenanceService.CompleteAssignments | app/modules/maintenance/host_maintenance.py:648-668 | The completion loop ends exactly as its program does |
| HostMaintenance.HostMaintenanceService.ReturnAndClose | app/modules/maintenance/host_maintenance.py:396-491 | The whole return, finalization before the assignments, ends exactly as its program does |
| HostMaintenance.HostMaintenanceService.Recover | app/modules/maintenance/host_maintenance.py:775-815 | Host, targets one by one, then the plan; refused marks are passed over |
| HostMaintenance.HostMaintenanceService.Prepare | app/modules/maintenance/host_maintenance.py:272-306 | Refused before the ticket nothing happens; after it the action completes as its program, or raises and recovers what it owns |
| HostMaintenance.HostMaintenanceService.StopWorkloads | app/modules/maintenance/host_maintenance.py:308-352 | Admission by host state, run and locks; then as its program, or recovered |
| HostMaintenance.HostMaintenanceService.RebootTheHost | app/modules/maintenance/host_maintenance.py:369-390 | Admission also needs a reboot executor; then as its program, or recovered |
| HostMaintenance.HostMaintenanceService.ReturnToService | app/modules/maintenance/host_maintenance.py:392-495 | Admission, then the return with cleanup exactly when a reboot was recorded complete; or recovered |
| HostMaintenance.HostMaintenanceService.PerformPrepare | app/modules/maintenance/host_actions.py:62-91 | One preparation in its connection: committed if it returns, else reduced to its last durable boundary |
| HostMaintenance.HostMaintenanceService.PerformStop | app/modules/maintenance/host_actions.py:62-91 | One stop in its connection: committed if it returns, else reduced to its last durable boundary |
| HostMaintenance.HostMaintenanceService.PerformReboot | app/modules/maintenance/host_actions.py:62-91 | One reboot in its connection: committed if it returns, else reduced to its last durable boundary |
| HostMaintenance.HostMaintenanceService.PerformReturn | app/modules/maintenance/host_actions.py:62-91 | One return in its connection: committed if it returns, else reduced to its last durable boundary |
| ContainerMaintenance.ContainerMaintenanceService.Prepare | app/modules/maintenance/container_maintenance.py:169-197 | A container preparation ends as its program, or raises and recovers what it owns |
| ContainerMaintenance.ContainerMaintenanceService.Stop | app/modules/maintenance/container_maintenance.py:199-226 | A container stop ends as its program, or raises and recovers what it owns |
| ContainerMaintenance.ContainerMaintenanceService.ReturnToService | app/modules/maintenance/container_maintenance.py:228-284 | A container return, the plan closed last, ends as its program, or raises and recovers what it owns |
| ContainerMaintenance.ContainerMaintenanceService.Recover | app/modules/maintenance/container_maintenance.py:433-460 | The target, then the plan; refused marks are passed over |
| Zoning.ZoningWorker.RunApply | app/modules/clusters/zoning.py:176-240 | The walk over the workloads with skips, the settings change, and the walk back on a refusal but not on an exception |
| Zoning.ZoningWorker.RollbackWith | app/modules/clusters/zoning.py:242-249 | Walks back over the completed workloads in reverse; a refusal is noted and the walk goes on |
| Zoning.AllOrPrevious | app/modules/clusters/zoning.py:176-240 | With honest reports and records that agree with reality: success makes actual and recorded zones the desired ones for every workload, skipped ones included; a completed walk back leaves both as before |
| Zoning.AgreementSurvives | app/modules/clusters/repository.py:238-266 | Records agree with reality after any sequence of clean applies |
| Zoning.AgreesExactlyWhen | app/modules/clusters/zoning.py:176-249 | However an apply ends: records and reality agree afterwards if and only if it succeeded or every workload whose call took effect was put back, both read off the answers alone |
| Zoning.RaiseKeepsAgreementExactlyWhen | app/modules/clusters/zoning.py:205-232 | When the call of the first workload neither skipped nor accepted raises, agreement holds if and only if all before it were skipped and that call took no effect; when the settings call raises, if and only if all were skipped |
| Zoning.SkippedAfterRaise | app/modules/clusters/zoning.py:200-201 | A later apply for the recorded zones skips the workload that moved and reports success over it |
| Zoning.HostZoneWorker.RunHostZoneChange | app/modules/clusters/zoning.py:285-334 | The host's workloads follow one by one; any failure restores the host's zone |
| Zoning.HostChangeAllOrPrevious | app/modules/clusters/zoning.py:285-334 | Success puts every workload in the new zone and on the records; a completed walk back leaves every workload where it was |
| Zoning.HostChangeUndoneExactlyWhen | app/modules/clusters/zoning.py:300-330 | After a host zone change that does not succeed, refused or raising, every workload is in the old zone if and only if each whose call took effect was put back |
| ZoneCatalog.ClusterPolicyService.ValidateZoningCatalogUpdate | app/modules/clusters/policy.py:44-57 | Accepts if and only if every zone in use by a member fits the new zoning |
| ZoneCatalog.ClusterPolicyService.ValidateHostZoneChange | app/modules/clusters/policy.py:59-102 | Accepts if and only if the zone is defined, fits every associated cluster, none is busy, and forced clusters stay covered |
| ZoneCatalog.ClusterPolicyService.RequireCoverage | app/modules/clusters/policy.py:85-102 | A role that is present still covers every zone of the catalog after the move, or the missing ones are named |
| ZoneCatalog.RestoreKeepsExactlyWhen | app/modules/clusters/zoning.py:326-330 | Restoring a host's earlier zone keeps every zoned member in its catalogs if and only if that zone is still one of every known cluster of the host |
| ZoneCatalog.CatalogsHoldExactlyWhen | app/modules/hosts/http.py:288-346 | For any requests and background tasks in any order: every zoned member is in a zone of each zone-aware cluster it belongs to, at every point, if and only if each zone that a failed change restores still fits when it is restored |
| ZoneCatalog.ZonesStayInCatalogs | app/modules/clusters/membership.py:35-43 | If every zoning edit and every new membership also fits the zones that may yet be restored, the catalogs hold at every point of the run |
| ZoneCatalog.CoverageIsLostExactlyWhen | app/modules/clusters/policy.py:85-102 | Moving a host loses a covered role's coverage if and only if the host is the last of the role in the zone it leaves |
| ZoneCatalog.ChangeAcceptedExactlyWhen | app/modules/clusters/policy.py:59-102 | From covered tables a host zone change is accepted if and only if the zone is defined, fits every cluster of the host, none is busy, and the host is not the last of a hot or warm role of a forced cluster in the zone it leaves |
| ZoneCatalog.RestoreAfterEditBreaks | app/modules/clusters/http.py:248-260 | A run of accepted requests that breaks the catalogs: a zone is set, the catalog edited, and the old zone restored |
| Ports.AllocationIsFirstFree | app/modules/clusters/ports.py:57-63 | With a usable fallback: the least free port at or above the preferred one when there is one, always in range, none exactly when all 65535 are taken |
| Ports.UsedPorts.NextAvailablePort | app/modules/clusters/ports.py:57-63 | Finds the first-free port and adds exactly that port to the shared set |
| Ports.ValidRolePorts | app/modules/clusters/ports.py:96-110 | Accepts if and only if every role has exactly its ports, all in range and none twice |
| Ports.DefaultRolePorts | app/modules/clusters/ports.py:66-79 | Never fails on any legacy profile, and gives a valid profile if and only if the three service ports differ |
| Ports.StoredRolePorts | app/modules/clusters/ports.py:113-120 | Keeps a valid stored profile, otherwise rebuilds one; valid exactly when one of the two is |
| PortPolicy.ProfileConflict | app/modules/clusters/policy.py:104-128 | Reports no conflict if and only if no two clusters share a port on a host after the update |
| PortPolicy.ConflictMessage | app/main.py:734-752 | Reports no conflict if and only if the new workload shares no port with another cluster's on its host |
| PortPolicy.ValidateFinalWorkloadPorts | app/main.py:1085-1094 | Accepts if and only if no two workloads of the cluster share a port on a host |
| PortPolicy.DifferentRolesApart | app/modules/clusters/ports.py:96-110 | In a valid profile two roles share no port |
| PortPolicy.PortsStayExclusive | app/main.py:734-752 | After any accepted port updates, additions and change sets: no two workloads on one host share a port, within or across clusters |
| KeyRotation.ControllerIdentityService.Stage | app/modules/controller_identity/service.py:23-51 | Stages a candidate, or makes the key active when no host is enabled; refused while a candidate is installed or the key is known |
| KeyRotation.ControllerIdentityService.CandidateActivation | app/modules/controller_identity/service.py:53-66 | The newest candidate, if every enabled host carries it |
| KeyRotation.ControllerIdentityService.Activate | app/modules/controller_identity/service.py:68-76 | Retires, activates and promotes the hosts that carry the candidate |
| KeyRotation.ControllerIdentityService.Rotate | app/modules/controller_identity/http.py:91-96 | Check, then activate; a refusal changes nothing |
| KeyRotation.RotationStrandsNoHost | app/modules/controller_identity/service.py:23-76 | After any run: one active and one candidate key at most; the active key changes only when no host is enabled or every enabled host carries the new one; a rotation leaves every enabled host on the active key |
| KeyRotation.RotateKeeps | app/modules/hosts/repository.py:158-175 | A rotation activates the candidate, leaves none staged and moves exactly the hosts that carry it |
| KeyRotation.SeparatedCheckBreaks | app/modules/controller_identity/service.py:53-76 | With a staging between check and activation two keys end up active |
| Planning.DumpIsInvisible | app/modules/maintenance/planning.py:30-47 | The canonical form of a value is that of its dump, however deep its records lie |
| Planning.NormalFormForgetsOrder | app/modules/maintenance/models.py:362-389 | Reordering any collection of a snapshot, or repeating a conflict, leaves its normal form as it is; repeated identifiers are refused in every order |
| Planning.CompiledPlansVerify | app/modules/maintenance/planning.py:64-100 | Every plan that compiles verifies against its own hash |
| Planning.PlanForgetsOrder | app/modules/maintenance/planning.py:64-96 | Steps and snapshot collections may come in any order: same plan, same hash, same refusals |
| Planning.BoundaryOrderMattersExactlyWhen | app/modules/maintenance/planning.py:91-93 | A plan that compiles is the same, hash included, for another list of rollback boundaries if and only if before every step the same boundaries stand in the same order |

## Left out

- Transports, SSH, Podman, Ansible and HTTP: an adapter's answer is a parameter (confirmed, unconfirmed, raised), and each request is made at most once per action.
- Effects that arrive late: a settings write that fails either took effect by then or never does; edits of the setting by others are not modelled.
- Two actions interleaved inside one remote call: each action is a step between commits; the locks of the coordinator are what keeps actions on one host apart.
- Guard rows are modelled per cluster, so one plan guarding two clusters is two independent runs.
- Timestamps, audit rows, run records and progress text: none decides a transition; clocks are integers given to the operations. A checkpoint's payload and observation are one number.
- Plan validations that read other tables (hash, safe checkpoint, snapshot, current revisions, conflicting operations, run state): their answers are parameters of opening an action.
- The post-return expectations of a host plan and the companion, verification and reboot internals: remote answers; the reboot orchestrator and the coordinator's signed request are not part of this model.
- The operator-handoff marker and manual maintenance: they start no remote effect, and manual mode does not check the plan kind.
- SagaConnection.Connection.RecordStep: a record that is refused half way leaves its first half in the open transaction in the source and nothing here; the action raises on it, and the half record is lost with the transaction.
- HostMaintenance.HostMaintenanceService.ReturnToService: whether a reboot completed is read from the checkpoints when the return starts, not when it reaches the cleanup; no statement in between records it.
- SagaRoundTrip.RoundTrip: the four actions follow one another with no other work on the tables in between.
- Zoning preflight, payload files and settings payload: they only check or compute; a run starts with its sorted workloads and desired zones.
- ZoneCatalog: cluster deletion and the removal of a host are not requests of the runs; they only remove rows. Refusals for other reasons (maintenance conflicts, workloads already claimed) are left out; a refused request is as good as none.
- PortPolicy: which of the batch's other rules refuse a change set (versions, masters, dependencies) is not modelled; they only refuse more.
- KeyRotation: installing keys on hosts is any change of the host table; key material, sealing and passwords are left out.
- Planning: hashing is an injective wrapper of the canonical form; names are ordered by their place in the string order; a text that looks like a timestamp is kept apart from a timestamp; validation for execution only lists failed comparisons.
- redact_structure, status views, provider matrix, evacuation preview and certificates: only easy or finite claims.
