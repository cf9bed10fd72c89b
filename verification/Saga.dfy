/** The maintenance workflows as programs over the durable tables and the
    remote adapters, and what running one does. A controller that dies has run a
    prefix of its program and keeps only what the last commit made durable. */
module Saga {
  import opened Wrappers
  import opened AllocationSettings
  import opened Lifecycle
  import opened Store
  import E = Execution
  import G = AllocationGuard

  datatype Target = Target(id: AssignmentId, cluster: ClusterId, role: string, dataBearing: bool, revision: nat)

  /** One remote request, by the adapter method it goes to. */
  datatype RemoteOp =
    | StopUnit(id: AssignmentId)
    | StartUnit(id: AssignmentId)
    | UnitReady(id: AssignmentId)
    | ReconcileCompanions(id: AssignmentId)
    | HostReady
    | RebootHost
    | VerifyReturn
    | CleanupExecutor

  datatype Answer = Confirmed | Unconfirmed | RemoteRaised

  datatype GuardOp = GuardCapture | GuardActivate | GuardRestore

  /** A request that left the controller, whatever came of it. */
  datatype Call = Remote(plan: PlanId, op: RemoteOp, answer: Answer) | GuardPut(plan: PlanId, cluster: ClusterId)

  /** Every adapter answer of one action: each request is made at most once. */
  datatype Env = Env(
    remote: RemoteOp -> Answer,
    captureRead: ClusterId -> G.ReadAnswer,
    activate: ClusterId -> G.ActivateAnswers,
    restorePut: ClusterId -> G.PutAnswer,
    restoreRead: ClusterId -> G.ReadAnswer,
    executorConfigured: bool,
    content: CheckpointKey -> nat,
    sameContent: bool,
    now: int,
    ttl: nat)

  datatype Ctx = Ctx(plan: PlanId, node: NodeId, ticket: E.Ticket, env: Env)

  /** The records an action carries from one statement to the next. */
  datatype Locals = Locals(
    host: HostRow,
    collected: map<AssignmentId, AssignmentRow>,
    current: AssignmentId, row: AssignmentRow,
    complete: bool)

  datatype Sys = Sys(db: Db, durable: Db, calls: seq<Call>, layers: map<ClusterId, Layers>, locals: Locals)

  datatype Act =
    | ReadHost
    | SetHost(state: HostState)
    | SetHostWorkflow(workflow: WorkflowState)
    | Collect(id: AssignmentId)
    | PrepareCollected(id: AssignmentId)
    | ClaimTarget(id: AssignmentId, revision: nat)
    | Load(id: AssignmentId)
    | Require(id: AssignmentId, workflow: WorkflowState)
    | SetState(workflow: WorkflowState)
    | ReleaseTarget(id: AssignmentId)
    | Record(key: StepKey, sequence: nat, checkpoint: CheckpointKey, checkpointSequence: nat, effect: SideEffect)
    | Commit
    | Ask(op: RemoteOp)
    | AskReturn
    | RecordReturn
    | RequireReturn
    | RequireExecutor
    | Guard(guard: GuardOp, cluster: ClusterId)
    | FinalizePlan

  datatype Outcome = Running(sys: Sys) | Raised(sys: Sys)

  function LayersOf(s: Sys, cluster: ClusterId): Layers {
    if cluster in s.layers then s.layers[cluster] else Layers(None, None)
  }

  function GuardState(s: Sys, cluster: ClusterId): G.ClusterState {
    G.ClusterState(LayersOf(s, cluster), GuardsOf(s.db, cluster))
  }

  function Tables(s: Sys, r: Result<Db, StoreError>): Outcome {
    if r.Ok? then Running(s.(db := r.value)) else Raised(s)
  }

  /** Answers that let the program go on. */
  function Answered(s: Sys, ctx: Ctx, op: RemoteOp): Sys {
    s.(calls := s.calls + [Remote(ctx.plan, op, ctx.env.remote(op))])
  }

  /** Whether a guard operation sends a settings write. */
  predicate Writes(records: G.Records, plan: PlanId, op: GuardOp) {
    && plan in records
    && match op
       case GuardCapture => false
       case GuardActivate => records[plan].phase == G.Captured && !G.Overridden(records[plan].checkpoint.captured)
       case GuardRestore => records[plan].phase != G.Restored
  }

  function GuardOutcome(ctx: Ctx, state: G.ClusterState, op: GuardOp, cluster: ClusterId): (G.ClusterState, G.Outcome) {
    match op
    case GuardCapture => G.CaptureSpec(state, ctx.plan, ctx.env.captureRead(cluster), G.Survives)
    case GuardActivate => G.ActivateSpec(state, ctx.plan, ctx.env.activate(cluster), G.Survives)
    case GuardRestore =>
      G.RestoreSpec(state, ctx.plan, G.OnSuccess, ctx.env.restorePut(cluster), ctx.env.restoreRead(cluster), G.Survives)
  }

  function Guarded(ctx: Ctx, s: Sys, op: GuardOp, cluster: ClusterId): Outcome {
    var before := GuardState(s, cluster);
    var (after, outcome) := GuardOutcome(ctx, before, op, cluster);
    var next := s.(db := s.db.(guards := s.db.guards[cluster := after.records]),
                   layers := s.layers[cluster := after.layers],
                   calls := s.calls + if Writes(before.records, ctx.plan, op) then [GuardPut(ctx.plan, cluster)] else []);
    if outcome.Returned? then Running(next) else Raised(next)
  }

  function HostMoved(s: Sys, ctx: Ctx, r: Result<Db, StoreError>): Outcome {
    if r.Ok? then Running(s.(db := r.value, locals := s.locals.(host := HostOf(r.value, ctx.node)))) else Raised(s)
  }

  ghost function Finalized(ctx: Ctx, s: Sys): Outcome {
    var result := E.AdapterResult(Some(Succeeded), {});
    match E.FinalizeSpec(s.db, ctx.ticket, result, ctx.env.sameContent, ctx.env.now, ctx.env.ttl)
    case Ok(db) => Running(s.(db := db))
    case Err(_) => Raised(s.(db := E.FinalizeView(s.db, ctx.ticket, result, ctx.env.sameContent, ctx.env.now, ctx.env.ttl)))
  }

  predicate Records(act: Act) {
    act.Record? || act.RecordReturn?
  }

  /** What a statement records; the final verification says whether it passed. */
  function EntryOf(ctx: Ctx, l: Locals, act: Act): StepEntry
    requires Records(act)
  {
    match act
    case Record(key, sequence, checkpoint, checkpointSequence, effect) =>
      StepEntry(sequence, checkpoint, CheckpointRow(key, checkpointSequence, effect, ctx.env.content(checkpoint)))
    case RecordReturn =>
      var key, sequence := HostStep(PostReturn, None), HostSequence(PostReturn, 0);
      var effect := if l.complete then EffectVerified else MayHaveStarted;
      StepEntry(sequence, OfStep(key), CheckpointRow(key, sequence, effect, ctx.env.content(OfStep(key))))
  }

  ghost function Step(ctx: Ctx, s: Sys, act: Act): Outcome {
    match act
    case ReadHost => Running(s.(locals := s.locals.(host := HostOf(s.db, ctx.node))))
    case SetHost(state) => HostMoved(s, ctx, TransitionHost(s.db, ctx.node, s.locals.host.revision, state, Some(ctx.plan)))
    case SetHostWorkflow(workflow) =>
      HostMoved(s, ctx, TransitionHostWorkflow(s.db, ctx.node, s.locals.host.workflowRevision, workflow))
    case Collect(id) =>
      var row := AssignmentOf(s.db, id);
      if row.workflow != Available then Raised(s)
      else Running(s.(locals := s.locals.(collected := s.locals.collected[id := row])))
    case PrepareCollected(id) =>
      if id !in s.locals.collected then Raised(s)
      else Tables(s, TransitionAssignment(s.db, id, s.locals.collected[id].revision, Preparing, Some(ctx.plan)))
    case ClaimTarget(id, revision) => Tables(s, Claim(s.db, id, revision, ctx.ticket.run))
    case Load(id) => Running(s.(locals := s.locals.(current := id, row := AssignmentOf(s.db, id))))
    case Require(id, workflow) =>
      var row := AssignmentOf(s.db, id);
      if row.plan != Some(ctx.plan) || row.workflow != workflow then Raised(s)
      else Running(s.(locals := s.locals.(current := id, row := row)))
    case SetState(workflow) =>
      var r := TransitionAssignment(s.db, s.locals.current, s.locals.row.revision, workflow, Some(ctx.plan));
      if r.Err? then Raised(s)
      else Running(s.(db := r.value, locals := s.locals.(row := AssignmentOf(r.value, s.locals.current))))
    case ReleaseTarget(id) => Tables(s, Release(s.db, id, ctx.ticket.run))
    case Record(_, _, _, _, _) => Tables(s, RecordStep(s.db, ctx.plan, EntryOf(ctx, s.locals, act)))
    case Commit => Running(s.(durable := s.db))
    case Ask(op) => if ctx.env.remote(op).Confirmed? then Running(Answered(s, ctx, op)) else Raised(Answered(s, ctx, op))
    case AskReturn =>
      var asked := Answered(s, ctx, VerifyReturn);
      var answer := ctx.env.remote(VerifyReturn);
      if answer.RemoteRaised? then Raised(asked) else Running(asked.(locals := s.locals.(complete := answer.Confirmed?)))
    case RecordReturn => Tables(s, RecordStep(s.db, ctx.plan, EntryOf(ctx, s.locals, act)))
    case RequireReturn => if s.locals.complete then Running(s) else Raised(s)
    case RequireExecutor => if ctx.env.executorConfigured then Running(s) else Raised(s)
    case Guard(op, cluster) => Guarded(ctx, s, op, cluster)
    case FinalizePlan => Finalized(ctx, s)
  }

  ghost function Exec(ctx: Ctx, acts: seq<Act>, s: Sys): Outcome
    decreases |acts|
  {
    if acts == [] then Running(s)
    else
      match Step(ctx, s, acts[0])
      case Raised(after) => Raised(after)
      case Running(after) => Exec(ctx, acts[1..], after)
  }

  /** The locals an action starts with. */
  function Fresh(host: HostRow): Locals {
    Locals(host, map[], 0, AssignmentRow(Available, None, 1), false)
  }

  /** ... on one assignment. */
  function FreshFor(id: AssignmentId, row: AssignmentRow): Locals {
    Locals(HostRow(HostAvailable, None, 1, Available, 1), map[], id, row, false)
  }

  /** The connection's exit: commit after success; after an exception it is
      closed and the open transaction is lost. */
  function Exited(o: Outcome): Sys {
    match o
    case Running(end) => end.(durable := end.db)
    case Raised(broken) => broken.(db := broken.durable)
  }

  // The programs.

  function HostBase(name: HostStepName): nat {
    match name
    case Prepare => 100
    case Stop => 200
    case StopComplete => 300
    case OperatorHandoff => 400
    case Reboot => 450
    case RebootComplete => 460
    case HostRediscovery => 7000
    case HostRediscoveryComplete => 7010
    case Return => 7100
    case ReturnComplete => 7200
    case Verification => 7300
    case PostReturnStarted => 7400
    case PostReturn => 7410
    case ExecutorCleanup => 7500
    case ExecutorCleanupComplete => 7510
  }

  function HostSequence(name: HostStepName, index: nat): nat {
    HostBase(name) + index
  }

  function HostRecord(name: HostStepName, target: Option<AssignmentId>, index: nat, effect: SideEffect): Act {
    var key := HostStep(name, target);
    Record(key, HostSequence(name, index), OfStep(key), HostSequence(name, index), effect)
  }

  function ContainerBase(name: ContainerStepName): nat {
    match name
    case CPrepare => 100
    case CStop => 200
    case CReturn => 300
    case CVerify => 400
    case CCompanions => 500
  }

  function Started(name: ContainerStepName): Act {
    Record(ContainerStep(name), ContainerBase(name), Intent(name), ContainerBase(name), MayHaveStarted)
  }

  function Finished(name: ContainerStepName): Act {
    Record(ContainerStep(name), ContainerBase(name), Verified(name), ContainerBase(name) + 1, EffectVerified)
  }

  function StopPriority(role: string): nat {
    if role in {"elastic-agent", "filebeat", "metricbeat"} then 10
    else if role in {"kibana", "fleet-server", "logstash"} then 20
    else if role in {"coordinating", "ingest", "ml"} then 30
    else if role in {"hot", "warm", "cold", "frozen", "content"} then 40
    else if role == "master" then 50
    else 25
  }

  function StartPriority(role: string): nat {
    if role == "master" then 10
    else if role in {"hot", "warm", "cold", "frozen", "content"} then 20
    else if role in {"coordinating", "ingest", "ml"} then 30
    else if role in {"kibana", "fleet-server", "logstash"} then 40
    else if role in {"elastic-agent", "filebeat", "metricbeat"} then 50
    else 35
  }

  /** Python's order on (priority, assignment id). */
  predicate Before(priority: string -> nat, a: Target, b: Target) {
    priority(a.role) < priority(b.role) || (priority(a.role) == priority(b.role) && a.id <= b.id)
  }

  function Inserted(priority: string -> nat, t: Target, sorted: seq<Target>): seq<Target> {
    if sorted == [] then [t]
    else if Before(priority, t, sorted[0]) then [t] + sorted
    else [sorted[0]] + Inserted(priority, t, sorted[1..])
  }

  function Sorted(priority: string -> nat, targets: seq<Target>): seq<Target> {
    if targets == [] then [] else Inserted(priority, targets[0], Sorted(priority, targets[1..]))
  }

  function StopOrder(targets: seq<Target>): seq<Target> { Sorted(StopPriority, targets) }

  function StartOrder(targets: seq<Target>): seq<Target> { Sorted(StartPriority, targets) }

  function InsertedCluster(c: ClusterId, sorted: seq<ClusterId>): seq<ClusterId> {
    if sorted == [] || c < sorted[0] then [c] + sorted
    else if c == sorted[0] then sorted
    else [sorted[0]] + InsertedCluster(c, sorted[1..])
  }

  /** The clusters of data-bearing targets, each once, in order. */
  function DataClusters(targets: seq<Target>): seq<ClusterId> {
    if targets == [] then []
    else if targets[0].dataBearing then InsertedCluster(targets[0].cluster, DataClusters(targets[1..]))
    else DataClusters(targets[1..])
  }

  function CollectAll(targets: seq<Target>): seq<Act> {
    if targets == [] then [] else [Collect(targets[0].id)] + CollectAll(targets[1..])
  }

  function PrepareAll(targets: seq<Target>): seq<Act> {
    if targets == [] then [] else [PrepareCollected(targets[0].id)] + PrepareAll(targets[1..])
  }

  function ClaimAll(targets: seq<Target>): seq<Act> {
    if targets == [] then [] else [ClaimTarget(targets[0].id, targets[0].revision)] + ClaimAll(targets[1..])
  }

  function ReadyAll(targets: seq<Target>): seq<Act> {
    if targets == [] then [] else [Load(targets[0].id), SetState(ReadyToStop)] + ReadyAll(targets[1..])
  }

  function GuardAll(clusters: seq<ClusterId>): seq<Act> {
    if clusters == [] then []
    else [Commit, Guard(GuardCapture, clusters[0]), Commit, Guard(GuardActivate, clusters[0])] + GuardAll(clusters[1..])
  }

  function UnguardAll(clusters: seq<ClusterId>): seq<Act> {
    if clusters == [] then [] else [Commit, Guard(GuardRestore, clusters[0])] + UnguardAll(clusters[1..])
  }

  function StopOne(t: Target, index: nat): seq<Act> {
    [Require(t.id, ReadyToStop), SetState(Stopping), HostRecord(Stop, Some(t.id), index, MayHaveStarted),
     Commit, Ask(StopUnit(t.id)), HostRecord(StopComplete, Some(t.id), index, EffectVerified), SetState(Maintenance)]
  }

  function StopAll(targets: seq<Target>, index: nat): seq<Act>
    decreases |targets|
  {
    if targets == [] then [] else StopOne(targets[0], index) + StopAll(targets[1..], index + 1)
  }

  function ReturnOne(t: Target, index: nat): seq<Act> {
    [Require(t.id, Maintenance), SetState(Returning), HostRecord(Return, Some(t.id), index, MayHaveStarted),
     Commit, Ask(StartUnit(t.id)), HostRecord(ReturnComplete, Some(t.id), index, EffectVerified), SetState(Verifying),
     Commit, Ask(UnitReady(t.id)), Commit, Ask(ReconcileCompanions(t.id)),
     HostRecord(Verification, Some(t.id), index, EffectVerified)]
  }

  function ReturnAll(targets: seq<Target>, index: nat): seq<Act>
    decreases |targets|
  {
    if targets == [] then [] else ReturnOne(targets[0], index) + ReturnAll(targets[1..], index + 1)
  }

  function CompleteAll(targets: seq<Target>): seq<Act> {
    if targets == [] then []
    else [Require(targets[0].id, Verifying), SetState(Available), ReleaseTarget(targets[0].id)] + CompleteAll(targets[1..])
  }

  function PrepareAssignments(targets: seq<Target>): seq<Act> {
    CollectAll(targets) + PrepareAll(targets) + ClaimAll(targets) + ReadyAll(targets)
  }

  function HostPrepare(targets: seq<Target>): seq<Act> {
    [ReadHost, SetHost(HostPlanning)] + PrepareAssignments(targets) + [HostRecord(Prepare, None, 0, EffectVerified)]
    + GuardAll(DataClusters(targets)) + [SetHostWorkflow(ReadyToStop)]
  }

  function HostStop(targets: seq<Target>): seq<Act> {
    [SetHostWorkflow(Stopping)] + StopAll(StopOrder(targets), 1) + [SetHostWorkflow(Maintenance), SetHost(HostMaintenance)]
  }

  function HostReboot(): seq<Act> {
    [HostRecord(Reboot, None, 0, MayHaveStarted), Commit, Ask(RebootHost), HostRecord(RebootComplete, None, 0, EffectVerified)]
  }

  function Rediscovery(): seq<Act> {
    [SetHostWorkflow(Returning), HostRecord(HostRediscovery, None, 0, MayHaveStarted), Commit, Ask(HostReady),
     HostRecord(HostRediscoveryComplete, None, 0, EffectVerified)]
  }

  function VerifyAll(): seq<Act> {
    [HostRecord(PostReturnStarted, None, 0, MayHaveStarted), Commit, AskReturn, RecordReturn, RequireReturn]
  }

  function Cleanup(rebooted: bool): seq<Act> {
    if rebooted then
      [RequireExecutor, HostRecord(ExecutorCleanup, None, 0, MayHaveStarted), Commit, Ask(CleanupExecutor),
       HostRecord(ExecutorCleanupComplete, None, 0, EffectVerified)]
    else []
  }

  /** The return up to the point where the plan is finalized. */
  function HostReturnWork(targets: seq<Target>, rebooted: bool): seq<Act> {
    Rediscovery() + ReturnAll(StartOrder(targets), 1) + UnguardAll(DataClusters(targets)) + VerifyAll() + Cleanup(rebooted)
  }

  function HostReturn(targets: seq<Target>, rebooted: bool): seq<Act> {
    HostReturnWork(targets, rebooted) + [FinalizePlan] + CompleteAll(targets) + [SetHost(HostAvailable)]
  }

  function ContainerPrepare(t: Target): seq<Act> {
    [Load(t.id), SetState(Preparing), ClaimTarget(t.id, t.revision), Finished(CPrepare)]
    + (if t.dataBearing then GuardAll([t.cluster]) else []) + [SetState(ReadyToStop)]
  }

  function ContainerStop(t: Target): seq<Act> {
    [SetState(Stopping), Started(CStop), Commit, Ask(StopUnit(t.id)), Finished(CStop), SetState(Maintenance)]
  }

  function ContainerStart(t: Target): seq<Act> {
    [SetState(Returning), Started(CReturn), Commit, Ask(StartUnit(t.id)), Finished(CReturn), SetState(Verifying)]
  }

  function ContainerReady(t: Target): seq<Act> {
    [Started(CVerify), Commit, Ask(UnitReady(t.id)), Finished(CVerify)]
  }

  function ContainerCompanions(t: Target): seq<Act> {
    [Started(CCompanions), Commit, Ask(ReconcileCompanions(t.id)), Finished(CCompanions)]
  }

  function ContainerReturnWork(t: Target): seq<Act> {
    ContainerStart(t) + ContainerReady(t) + ContainerCompanions(t)
    + (if t.dataBearing then UnguardAll([t.cluster]) else [])
    + [ReleaseTarget(t.id), SetState(Available)]
  }

  function ContainerReturn(t: Target): seq<Act> {
    ContainerReturnWork(t) + [FinalizePlan]
  }

  // Running one program after another.

  lemma {:induction false} ExecAppend(ctx: Ctx, a: seq<Act>, b: seq<Act>, s: Sys)
    ensures Exec(ctx, a + b, s) == match Exec(ctx, a, s) case Raised(after) => Raised(after) case Running(after) => Exec(ctx, b, after)
    decreases |a|
  {
    if a == [] {
      assert a + b == b;
    } else {
      assert (a + b)[0] == a[0] && (a + b)[1..] == a[1..] + b;
      var first := Step(ctx, s, a[0]);
      if first.Running? {
        ExecAppend(ctx, a[1..], b, first.sys);
      }
    }
  }
}
