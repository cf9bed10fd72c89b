/** The durable maintenance tables as values, and each repository operation as
    a function that gives the new tables or the reason it refused. */
module Store {
  import opened Wrappers
  import opened Lifecycle
  import G = AllocationGuard

  type PlanId = nat
  type NodeId = nat
  type AssignmentId = nat
  type ClusterId = nat
  type RunId = nat
  type Token = nat

  datatype StoreError =
    | RevisionConflict | IllegalTransition | MissingPlan | RecordNotFound | IdempotencyConflict
    | LockRefused | LockOwnership | StaleLock | Validation | NotConfirmed | RemoteFailure | GuardRaised

  /** The immutable part of a plan that decides its locks and claims. */
  datatype PlanContent = PlanContent(
    node: Option<NodeId>, clusters: set<ClusterId>, revisions: map<AssignmentId, nat>)

  datatype PlanRow = PlanRow(content: PlanContent, state: PlanState, revision: nat, run: Option<RunId>)

  datatype HostRow = HostRow(
    state: HostState, plan: Option<PlanId>, revision: nat, workflow: WorkflowState, workflowRevision: nat)

  datatype AssignmentRow = AssignmentRow(workflow: WorkflowState, plan: Option<PlanId>, revision: nat)

  datatype WorkloadRow = WorkloadRow(active: bool, revision: nat, operation: Option<RunId>)

  datatype HostStepName =
    | Prepare | Stop | StopComplete | OperatorHandoff | Reboot | RebootComplete
    | HostRediscovery | HostRediscoveryComplete | Return | ReturnComplete | Verification
    | PostReturnStarted | PostReturn | ExecutorCleanup | ExecutorCleanupComplete

  datatype ContainerStepName = CPrepare | CStop | CReturn | CVerify | CCompanions

  datatype StepKey =
    | HostStep(name: HostStepName, target: Option<AssignmentId>)
    | ContainerStep(step: ContainerStepName)

  datatype CheckpointKey =
    | OfStep(key: StepKey)
    | Intent(step: ContainerStepName)
    | Verified(step: ContainerStepName)

  datatype StepRow = StepRow(sequence: nat, state: StepState, revision: nat)

  /** `content` stands for the payload and the observation. */
  datatype CheckpointRow = CheckpointRow(step: StepKey, sequence: nat, effect: SideEffect, content: nat)

  /** What recording a step writes: its number and its checkpoint. */
  datatype StepEntry = StepEntry(sequence: nat, checkpoint: CheckpointKey, row: CheckpointRow)

  datatype LockScope =
    | HostLock(node: NodeId) | ClusterLock(cluster: ClusterId)
    | AssignmentLock(assignment: AssignmentId) | RecoveryLock(plan: PlanId)

  /** An active lock; released locks leave the table. */
  datatype LockRow = LockRow(owner: PlanId, token: Token, expires: int)

  datatype Db = Db(
    plans: map<PlanId, PlanRow>,
    hosts: map<NodeId, HostRow>,
    assignments: map<AssignmentId, AssignmentRow>,
    workloads: map<AssignmentId, WorkloadRow>,
    steps: map<(PlanId, StepKey), StepRow>,
    checkpoints: map<(PlanId, CheckpointKey), CheckpointRow>,
    locks: map<LockScope, LockRow>,
    guards: map<ClusterId, G.Records>,
    nextToken: Token)

  // Reading a host or assignment row creates the default row on first use.

  function HostOf(db: Db, node: NodeId): HostRow {
    if node in db.hosts then db.hosts[node] else HostRow(HostAvailable, None, 1, Available, 1)
  }

  function AssignmentOf(db: Db, id: AssignmentId): AssignmentRow {
    if id in db.assignments then db.assignments[id] else AssignmentRow(Available, None, 1)
  }

  function GuardsOf(db: Db, cluster: ClusterId): G.Records {
    if cluster in db.guards then db.guards[cluster] else map[]
  }

  function TransitionPlan(db: Db, plan: PlanId, revision: nat, target: PlanState): Result<Db, StoreError> {
    if plan !in db.plans then Err(RecordNotFound)
    else
      var row := db.plans[plan];
      if row.revision != revision then Err(RevisionConflict)
      else if !LegalPlan(row.state, target) then Err(IllegalTransition)
      else Ok(db.(plans := db.plans[plan := row.(state := target, revision := row.revision + 1)]))
  }

  /** Moves the host and, with it, the workflow to the state that belongs to the
      new host state; a workflow jump outside its own table is refused. */
  function TransitionHost(db: Db, node: NodeId, revision: nat, target: HostState, plan: Option<PlanId>): Result<Db, StoreError> {
    var row := HostOf(db, node);
    var workflow := HostWorkflowState(target);
    if row.revision != revision then Err(RevisionConflict)
    else if !LegalHost(row.state, target) then Err(IllegalTransition)
    else if target != HostAvailable && plan.None? then Err(MissingPlan)
    else if row.workflow != workflow && !LegalWorkflow(row.workflow, workflow) then Err(IllegalTransition)
    else Ok(db.(hosts := db.hosts[node := HostRow(
        target, if target == HostAvailable then None else plan, row.revision + 1, workflow, row.workflowRevision + 1)]))
  }

  function TransitionHostWorkflow(db: Db, node: NodeId, revision: nat, target: WorkflowState): Result<Db, StoreError> {
    var row := HostOf(db, node);
    if row.workflowRevision != revision then Err(RevisionConflict)
    else if !LegalWorkflow(row.workflow, target) then Err(IllegalTransition)
    else Ok(db.(hosts := db.hosts[node := row.(workflow := target, workflowRevision := row.workflowRevision + 1)]))
  }

  function TransitionAssignment(db: Db, id: AssignmentId, revision: nat, target: WorkflowState, plan: Option<PlanId>): Result<Db, StoreError> {
    var row := AssignmentOf(db, id);
    if row.revision != revision then Err(RevisionConflict)
    else if !LegalWorkflow(row.workflow, target) then Err(IllegalTransition)
    else if target != Available && plan.None? then Err(MissingPlan)
    else Ok(db.(assignments := db.assignments[id := AssignmentRow(
        target, if target == Available then None else plan, row.revision + 1)]))
  }

  function Claim(db: Db, id: AssignmentId, revision: nat, run: RunId): Result<Db, StoreError> {
    if id in db.workloads && db.workloads[id] == WorkloadRow(true, revision, None) then
      Ok(db.(workloads := db.workloads[id := WorkloadRow(true, revision, Some(run))]))
    else Err(Validation)
  }

  function Release(db: Db, id: AssignmentId, run: RunId): Result<Db, StoreError> {
    if id in db.workloads && db.workloads[id].operation == Some(run) then
      Ok(db.(workloads := db.workloads[id := db.workloads[id].(operation := None)]))
    else Err(Validation)
  }

  // Steps and checkpoints: a key names one row, and within a plan no two rows
  // may share a sequence number.

  predicate StepSequenceTaken(db: Db, plan: PlanId, sequence: nat) {
    exists id :: id in db.steps && id.0 == plan && db.steps[id].sequence == sequence
  }

  predicate CheckpointSequenceTaken(db: Db, plan: PlanId, sequence: nat) {
    exists id :: id in db.checkpoints && id.0 == plan && db.checkpoints[id].sequence == sequence
  }

  function CreateStep(db: Db, plan: PlanId, key: StepKey, sequence: nat): Result<Db, StoreError> {
    if (plan, key) in db.steps then
      if db.steps[(plan, key)].sequence == sequence then Ok(db) else Err(IdempotencyConflict)
    else if StepSequenceTaken(db, plan, sequence) then Err(IdempotencyConflict)
    else Ok(db.(steps := db.steps[(plan, key) := StepRow(sequence, StepPending, 1)]))
  }

  function TransitionStep(db: Db, plan: PlanId, key: StepKey, target: StepState): Result<Db, StoreError> {
    if (plan, key) !in db.steps then Err(RecordNotFound)
    else
      var row := db.steps[(plan, key)];
      if !LegalStep(row.state, target) then Err(IllegalTransition)
      else Ok(db.(steps := db.steps[(plan, key) := row.(state := target, revision := row.revision + 1)]))
  }

  function RecordCheckpoint(db: Db, plan: PlanId, key: CheckpointKey, row: CheckpointRow): Result<Db, StoreError> {
    if (plan, key) in db.checkpoints then
      if db.checkpoints[(plan, key)] == row then Ok(db) else Err(IdempotencyConflict)
    else if CheckpointSequenceTaken(db, plan, row.sequence) then Err(IdempotencyConflict)
    else Ok(db.(checkpoints := db.checkpoints[(plan, key) := row]))
  }

  function BeginStep(db: Db, plan: PlanId, key: StepKey): Result<Db, StoreError> {
    if (plan, key) in db.steps && db.steps[(plan, key)].state == StepPending then TransitionStep(db, plan, key, StepExecuting) else Ok(db)
  }

  function EndStep(db: Db, plan: PlanId, key: StepKey, effect: SideEffect): Result<Db, StoreError> {
    if effect == EffectVerified && (plan, key) in db.steps && db.steps[(plan, key)].state == StepExecuting
    then TransitionStep(db, plan, key, StepVerified) else Ok(db)
  }

  /** A step brought to `executing`, to `verified` too when its effect is
      verified, and its checkpoint. */
  function RecordStep(db: Db, plan: PlanId, e: StepEntry): Result<Db, StoreError> {
    var created := CreateStep(db, plan, e.row.step, e.sequence);
    if created.Err? then created
    else
      var begun := BeginStep(created.value, plan, e.row.step);
      if begun.Err? then begun
      else
        var ended := EndStep(begun.value, plan, e.row.step, e.row.effect);
        if ended.Err? then ended else RecordCheckpoint(ended.value, plan, e.checkpoint, e.row)
  }

  lemma RecordShape(db: Db, plan: PlanId, e: StepEntry, after: Db) returns (created: Db, begun: Db, ended: Db)
    requires RecordStep(db, plan, e) == Ok(after)
    ensures CreateStep(db, plan, e.row.step, e.sequence) == Ok(created) && BeginStep(created, plan, e.row.step) == Ok(begun)
    ensures EndStep(begun, plan, e.row.step, e.row.effect) == Ok(ended)
    ensures RecordCheckpoint(ended, plan, e.checkpoint, e.row) == Ok(after)
  {
    created := CreateStep(db, plan, e.row.step, e.sequence).value;
    begun := BeginStep(created, plan, e.row.step).value;
    ended := EndStep(begun, plan, e.row.step, e.row.effect).value;
  }

  lemma StepsOnly(db: Db, plan: PlanId, key: StepKey, sequence: nat, effect: SideEffect, created: Db, begun: Db, ended: Db)
    requires CreateStep(db, plan, key, sequence) == Ok(created) && BeginStep(created, plan, key) == Ok(begun)
    requires EndStep(begun, plan, key, effect) == Ok(ended)
    ensures ended == db.(steps := ended.steps)
  {
    hide CreateStep, BeginStep, EndStep;
    CreateOnly(db, plan, key, sequence, created);
    BeginOnly(created, plan, key, begun);
    EndOnly(begun, plan, key, effect, ended);
  }

  lemma CreateOnly(db: Db, plan: PlanId, key: StepKey, sequence: nat, after: Db)
    requires CreateStep(db, plan, key, sequence) == Ok(after)
    ensures after == db.(steps := after.steps)
  {
  }

  lemma BeginOnly(db: Db, plan: PlanId, key: StepKey, after: Db)
    requires BeginStep(db, plan, key) == Ok(after)
    ensures after == db.(steps := after.steps)
  {
  }

  lemma EndOnly(db: Db, plan: PlanId, key: StepKey, effect: SideEffect, after: Db)
    requires EndStep(db, plan, key, effect) == Ok(after)
    ensures after == db.(steps := after.steps)
  {
  }

  lemma CheckpointOnly(db: Db, plan: PlanId, key: CheckpointKey, row: CheckpointRow, after: Db)
    requires RecordCheckpoint(db, plan, key, row) == Ok(after)
    ensures after == db.(checkpoints := after.checkpoints) && after.checkpoints == db.checkpoints[(plan, key) := row]
    ensures (plan, key) in db.checkpoints ==> after.checkpoints == db.checkpoints
  {
    if (plan, key) in db.checkpoints {
      assert db.checkpoints[(plan, key) := db.checkpoints[(plan, key)]] == db.checkpoints;
    }
  }

  /** Recording changes no table but steps and checkpoints, keeps every earlier
      checkpoint as it was and leaves the one asked for in place. */
  lemma RecordStepFrame(db: Db, plan: PlanId, e: StepEntry)
    ensures var r := RecordStep(db, plan, e);
      r.Ok? ==>
        && r.value == db.(steps := r.value.steps, checkpoints := r.value.checkpoints)
        && r.value.checkpoints == db.checkpoints[(plan, e.checkpoint) := e.row]
        && ((plan, e.checkpoint) in db.checkpoints ==> r.value.checkpoints == db.checkpoints)
  {
    hide CreateStep, BeginStep, EndStep, RecordCheckpoint;
    var r := RecordStep(db, plan, e);
    if r.Ok? {
      var created, begun, ended := RecordShape(db, plan, e, r.value);
      StepsOnly(db, plan, e.row.step, e.sequence, e.row.effect, created, begun, ended);
      CheckpointOnly(ended, plan, e.checkpoint, e.row, r.value);
    }
  }

  // Locks.

  predicate Expired(lock: LockRow, now: int) {
    lock.expires <= now
  }

  function ActiveLocks(db: Db, plan: PlanId): set<LockScope> {
    set scope | scope in db.locks && db.locks[scope].owner == plan
  }

  /** All or nothing: an expired lock or another owner's lock on any scope
      refuses the whole request; a lock already held under the token is kept. */
  function AcquireLocks(db: Db, scopes: set<LockScope>, plan: PlanId, token: Token, now: int, ttl: nat): Result<Db, StoreError> {
    var held := scopes * db.locks.Keys;
    if scopes == {} then Err(Validation)
    else if exists scope :: scope in held && Expired(db.locks[scope], now) then Err(StaleLock)
    else if exists scope :: scope in held && !HeldBy(db.locks[scope], plan, token) then Err(LockRefused)
    else
      Ok(db.(locks := map scope | scope in db.locks.Keys + scopes ::
                        if scope in db.locks then db.locks[scope] else LockRow(plan, token, now + ttl)))
  }

  predicate HeldBy(lock: LockRow, plan: PlanId, token: Token) {
    lock.owner == plan && lock.token == token
  }

  function ReleaseLocks(db: Db, token: Token, now: int): Result<Db, StoreError> {
    if forall scope :: scope in db.locks ==> db.locks[scope].token != token then Err(LockOwnership)
    else if exists scope :: scope in db.locks && db.locks[scope].token == token && Expired(db.locks[scope], now) then Err(StaleLock)
    else Ok(db.(locks := map scope | scope in db.locks && db.locks[scope].token != token :: db.locks[scope]))
  }

  /** Takes one expired lock out of the table, on evidence. */
  function RecoverStaleLock(db: Db, scope: LockScope, now: int): Result<Db, StoreError> {
    if scope !in db.locks then Err(LockOwnership)
    else if !Expired(db.locks[scope], now) then Err(LockRefused)
    else Ok(db.(locks := map s | s in db.locks && s != scope :: db.locks[s]))
  }
}
