/** When a host maintenance completes. A forecast says what matters of the tables
    for the statements still to come; a program that a forecast accepts, one
    statement after the other, runs to its end. */
module SagaProgress {
  import opened Wrappers
  import opened AllocationSettings
  import opened Lifecycle
  import opened Store
  import opened Saga
  import E = Execution
  import G = AllocationGuard
  import R = SagaRecovery
  import X = ExecutionRuns

  datatype Claim = Idle(revision: nat) | Held

  /** A cluster's guard: not taken yet, captured, or past its activation. */
  datatype Stage = Unguarded | JustCaptured | Kept

  /** The host's row, and whether the action has it in hand. */
  datatype HostView = HostView(state: HostState, workflow: WorkflowState, read: bool)

  /** The targets' rows, those collected, and the one in hand. */
  datatype RowsView = RowsView(states: map<AssignmentId, WorkflowState>, collected: set<AssignmentId>, current: Option<AssignmentId>)

  datatype Forecast = Forecast(
    host: HostView, rows: RowsView, claims: map<AssignmentId, Claim>, marks: set<(StepKey, nat)>,
    guards: map<ClusterId, Stage>, verified: bool, open: bool)

  // What a forecast says, table by table.

  predicate HostAs(v: HostView, hosts: map<NodeId, HostRow>, node: NodeId, inHand: HostRow) {
    var row := if node in hosts then hosts[node] else HostRow(HostAvailable, None, 1, Available, 1);
    row.state == v.state && row.workflow == v.workflow && (v.read ==> inHand == row)
  }

  function RowIn(assignments: map<AssignmentId, AssignmentRow>, id: AssignmentId): AssignmentRow {
    if id in assignments then assignments[id] else AssignmentRow(Available, None, 1)
  }

  predicate RowAs(workflow: WorkflowState, row: AssignmentRow, plan: PlanId) {
    row.workflow == workflow && (workflow != Available ==> row.plan == Some(plan))
  }

  predicate RowsAs(v: RowsView, assignments: map<AssignmentId, AssignmentRow>, plan: PlanId, l: Locals) {
    && (forall id :: id in v.states ==> RowAs(v.states[id], RowIn(assignments, id), plan))
    && (forall id :: id in v.collected ==> id in v.states && id in l.collected && l.collected[id] == RowIn(assignments, id))
    && (v.current.Some? ==> v.current.value in v.states && l.current == v.current.value && l.row == RowIn(assignments, l.current))
  }

  predicate ClaimAs(claim: Claim, row: WorkloadRow, run: RunId) {
    match claim case Idle(revision) => row == WorkloadRow(true, revision, None) case Held => row.operation == Some(run)
  }

  predicate ClaimsAs(claims: map<AssignmentId, Claim>, workloads: map<AssignmentId, WorkloadRow>, run: RunId) {
    forall id :: id in claims ==> id in workloads && ClaimAs(claims[id], workloads[id], run)
  }

  predicate StepsAs(marks: set<(StepKey, nat)>, steps: map<(PlanId, StepKey), StepRow>, plan: PlanId) {
    forall id :: id in steps && id.0 == plan ==> (id.1, steps[id].sequence) in marks
  }

  predicate CheckpointsAs(marks: set<(StepKey, nat)>, checkpoints: map<(PlanId, CheckpointKey), CheckpointRow>, plan: PlanId) {
    forall id :: id in checkpoints && id.0 == plan ==> id.1.OfStep? && (id.1.key, checkpoints[id].sequence) in marks
  }

  /** An activation from these layers does not raise. */
  predicate Activates(ctx: Ctx, cluster: ClusterId, layers: Layers) {
    !G.Overridden(layers) && !(ctx.env.activate(cluster).put.Acknowledged? && ctx.env.activate(cluster).read.Garbled?)
  }

  predicate GuardAs(stage: Stage, ctx: Ctx, cluster: ClusterId, records: G.Records, layers: Layers) {
    match stage
    case Unguarded => ctx.plan !in records && !G.HasUnrestored(records) && Activates(ctx, cluster, layers)
    case JustCaptured =>
      && ctx.plan in records && records[ctx.plan] == G.GuardRecord(G.Captured, G.Checkpoint(ctx.plan, G.Captured, layers, Some(layers)), 1)
      && Activates(ctx, cluster, layers)
    case Kept =>
      ctx.plan in records && records[ctx.plan].checkpoint.plan == ctx.plan && records[ctx.plan].checkpoint.phase == records[ctx.plan].phase
  }

  predicate GuardsAs(stages: map<ClusterId, Stage>, ctx: Ctx, guards: map<ClusterId, G.Records>, layers: map<ClusterId, Layers>) {
    forall c :: c in stages ==>
      GuardAs(stages[c], ctx, c, if c in guards then guards[c] else map[], if c in layers then layers[c] else Layers(None, None))
  }

  predicate PlansAs(open: bool, db: Db, start: Db) {
    open ==> db.plans == start.plans && db.locks == start.locks && db.nextToken == start.nextToken
  }

  ghost predicate As(ctx: Ctx, start: Db, f: Forecast, s: Sys) {
    && HostAs(f.host, s.db.hosts, ctx.node, s.locals.host)
    && RowsAs(f.rows, s.db.assignments, ctx.plan, s.locals)
    && ClaimsAs(f.claims, s.db.workloads, ctx.ticket.run)
    && StepsAs(f.marks, s.db.steps, ctx.plan) && CheckpointsAs(f.marks, s.db.checkpoints, ctx.plan)
    && GuardsAs(f.guards, ctx, s.db.guards, s.layers)
    && f.verified == s.locals.complete
    && PlansAs(f.open, s.db, start)
  }

  /** The plan can be closed as it was opened: its locks have not expired. */
  ghost predicate Closable(ctx: Ctx, start: Db) {
    && E.TicketMatches(start, ctx.ticket, ctx.env.sameContent) && ctx.plan in start.plans && start.plans[ctx.plan].state == Executing
    && E.StaleLocks(start, ctx.plan, ctx.env.now) == {} && exists keys :: X.LockInv(start, keys)
  }

  // What a forecast accepts, and what it says afterwards.

  predicate Unused(f: Forecast, key: StepKey, sequence: nat) {
    forall m :: m in f.marks ==> m.0 != key && m.1 != sequence
  }

  ghost predicate Accepts(ctx: Ctx, start: Db, f: Forecast, act: Act) {
    match act
    case ReadHost => true
    case SetHost(state) =>
      var workflow := HostWorkflowState(state);
      f.host.read && LegalHost(f.host.state, state) && (f.host.workflow == workflow || LegalWorkflow(f.host.workflow, workflow))
    case SetHostWorkflow(workflow) => f.host.read && LegalWorkflow(f.host.workflow, workflow)
    case Collect(id) => id in f.rows.states && f.rows.states[id] == Available
    case PrepareCollected(id) => id in f.rows.collected && id in f.rows.states && f.rows.states[id] == Available
    case ClaimTarget(id, revision) => id in f.claims && f.claims[id] == Idle(revision)
    case Load(id) => id in f.rows.states
    case Require(id, workflow) => id in f.rows.states && f.rows.states[id] == workflow && workflow != Available
    case SetState(workflow) =>
      var v := f.rows; v.current.Some? && v.current.value in v.states && LegalWorkflow(v.states[v.current.value], workflow)
    case ReleaseTarget(id) => id in f.claims && f.claims[id] == Held
    case Record(key, sequence, checkpoint, checkpointSequence, _) =>
      Unused(f, key, sequence) && checkpoint == OfStep(key) && checkpointSequence == sequence
    case Commit => true
    case Ask(op) => ctx.env.remote(op).Confirmed?
    case AskReturn => !ctx.env.remote(VerifyReturn).RemoteRaised?
    case RecordReturn => Unused(f, HostStep(PostReturn, None), HostSequence(PostReturn, 0))
    case RequireReturn => f.verified
    case RequireExecutor => ctx.env.executorConfigured
    case Guard(GuardCapture, cluster) => cluster in f.guards && f.guards[cluster] == Unguarded && ctx.env.captureRead(cluster).Shows?
    case Guard(GuardActivate, cluster) => cluster in f.guards && f.guards[cluster] == JustCaptured
    case Guard(GuardRestore, cluster) => cluster in f.guards && f.guards[cluster] == Kept
    case FinalizePlan => f.open && Closable(ctx, start)
  }

  function WithRow(v: RowsView, id: AssignmentId, workflow: WorkflowState): RowsView {
    v.(states := v.states[id := workflow], collected := v.collected - {id})
  }

  function After(ctx: Ctx, f: Forecast, act: Act): Forecast {
    match act
    case ReadHost => f.(host := f.host.(read := true))
    case SetHost(state) => f.(host := HostView(state, HostWorkflowState(state), true))
    case SetHostWorkflow(workflow) => f.(host := HostView(f.host.state, workflow, true))
    case Collect(id) => f.(rows := f.rows.(collected := f.rows.collected + {id}))
    case PrepareCollected(id) => f.(rows := WithRow(f.rows, id, Preparing).(current := None))
    case ClaimTarget(id, _) => f.(claims := f.claims[id := Held])
    case Load(id) => f.(rows := f.rows.(current := Some(id)))
    case Require(id, _) => f.(rows := f.rows.(current := Some(id)))
    case SetState(workflow) => if f.rows.current.Some? then f.(rows := WithRow(f.rows, f.rows.current.value, workflow)) else f
    case ReleaseTarget(id) => f.(claims := f.claims - {id})
    case Record(key, sequence, _, _, _) => f.(marks := f.marks + {(key, sequence)})
    case RecordReturn => f.(marks := f.marks + {(HostStep(PostReturn, None), HostSequence(PostReturn, 0))})
    case AskReturn => f.(verified := ctx.env.remote(VerifyReturn).Confirmed?)
    case Guard(GuardCapture, cluster) => f.(guards := f.guards[cluster := JustCaptured])
    case Guard(GuardActivate, cluster) => f.(guards := f.guards[cluster := Kept])
    case FinalizePlan => f.(open := false)
    case _ => f
  }

  // Each kind of statement, by the table that it touches.

  lemma HostForetold(ctx: Ctx, start: Db, f: Forecast, s: Sys, act: Act)
    requires act.ReadHost? || act.SetHost? || act.SetHostWorkflow?
    requires As(ctx, start, f, s) && Accepts(ctx, start, f, act)
    ensures Step(ctx, s, act).Running? && As(ctx, start, After(ctx, f, act), Step(ctx, s, act).sys)
  {
    hide RowsAs, ClaimsAs, StepsAs, CheckpointsAs, GuardsAs, HostAs;
    HostShape(ctx, start, f, s, act);
    RowsElsewhere(f.rows, s.db.assignments, ctx.plan, s.locals, Step(ctx, s, act).sys.locals);
  }

  lemma HostShape(ctx: Ctx, start: Db, f: Forecast, s: Sys, act: Act)
    requires act.ReadHost? || act.SetHost? || act.SetHostWorkflow?
    requires HostAs(f.host, s.db.hosts, ctx.node, s.locals.host) && Accepts(ctx, start, f, act)
    ensures Step(ctx, s, act).Running?
    ensures var after := Step(ctx, s, act).sys;
      && after == s.(db := s.db.(hosts := after.db.hosts), locals := s.locals.(host := after.locals.host))
      && HostAs(After(ctx, f, act).host, after.db.hosts, ctx.node, after.locals.host)
  {
    hide HostAs, TransitionHost, TransitionHostWorkflow, HostOf;
    match act
    case SetHost(state) => HostMoves(f.host, s.db, ctx.node, s.locals.host, state, ctx.plan);
    case SetHostWorkflow(workflow) => WorkflowMoves(f.host, s.db, ctx.node, s.locals.host, workflow);
    case ReadHost => HostRead(f.host, s.db, ctx.node, s.locals.host);
  }

  lemma HostRead(v: HostView, db: Db, node: NodeId, inHand: HostRow)
    requires HostAs(v, db.hosts, node, inHand)
    ensures HostAs(v.(read := true), db.hosts, node, HostOf(db, node))
  {
  }

  lemma HostMoves(v: HostView, db: Db, node: NodeId, inHand: HostRow, state: HostState, plan: PlanId)
    requires HostAs(v, db.hosts, node, inHand) && v.read && LegalHost(v.state, state)
    requires v.workflow == HostWorkflowState(state) || LegalWorkflow(v.workflow, HostWorkflowState(state))
    ensures var r := TransitionHost(db, node, inHand.revision, state, Some(plan));
      && r.Ok? && r.value == db.(hosts := r.value.hosts)
      && HostAs(HostView(state, HostWorkflowState(state), true), r.value.hosts, node, HostOf(r.value, node))
  {
    hide HostTransitions, WorkflowTransitions, HostWorkflowState;
  }

  lemma WorkflowMoves(v: HostView, db: Db, node: NodeId, inHand: HostRow, workflow: WorkflowState)
    requires HostAs(v, db.hosts, node, inHand) && v.read && LegalWorkflow(v.workflow, workflow)
    ensures var r := TransitionHostWorkflow(db, node, inHand.workflowRevision, workflow);
      && r.Ok? && r.value == db.(hosts := r.value.hosts)
      && HostAs(HostView(v.state, workflow, true), r.value.hosts, node, HostOf(r.value, node))
  {
    hide WorkflowTransitions;
  }

  /** The host in hand is no business of the rows. */
  lemma RowsElsewhere(v: RowsView, assignments: map<AssignmentId, AssignmentRow>, plan: PlanId, l: Locals, next: Locals)
    requires RowsAs(v, assignments, plan, l)
    requires next.collected == l.collected && next.current == l.current && next.row == l.row
    ensures RowsAs(v, assignments, plan, next)
  {
  }

  lemma RowForetold(ctx: Ctx, start: Db, f: Forecast, s: Sys, act: Act)
    requires act.Collect? || act.PrepareCollected? || act.Load? || act.Require? || act.SetState?
    requires As(ctx, start, f, s) && Accepts(ctx, start, f, act)
    ensures Step(ctx, s, act).Running? && As(ctx, start, After(ctx, f, act), Step(ctx, s, act).sys)
  {
    hide HostAs, RowsAs, ClaimsAs, StepsAs, CheckpointsAs, GuardsAs;
    if act.PrepareCollected? || act.SetState? {
      RowMoveShape(ctx, start, f, s, act);
    } else {
      RowReadShape(ctx, start, f, s, act);
    }
  }

  lemma RowReadShape(ctx: Ctx, start: Db, f: Forecast, s: Sys, act: Act)
    requires act.Collect? || act.Load? || act.Require?
    requires RowsAs(f.rows, s.db.assignments, ctx.plan, s.locals) && Accepts(ctx, start, f, act)
    ensures Step(ctx, s, act).Running?
    ensures var after := Step(ctx, s, act).sys;
      && after == s.(locals := s.locals.(collected := after.locals.collected, current := after.locals.current, row := after.locals.row))
      && RowsAs(After(ctx, f, act).rows, s.db.assignments, ctx.plan, after.locals)
  {
  }

  lemma RowMoveShape(ctx: Ctx, start: Db, f: Forecast, s: Sys, act: Act)
    requires act.PrepareCollected? || act.SetState?
    requires RowsAs(f.rows, s.db.assignments, ctx.plan, s.locals) && Accepts(ctx, start, f, act)
    ensures Step(ctx, s, act).Running?
    ensures var after := Step(ctx, s, act).sys;
      && after == s.(db := s.db.(assignments := after.db.assignments), locals := s.locals.(row := after.locals.row))
      && RowsAs(After(ctx, f, act).rows, after.db.assignments, ctx.plan, after.locals)
  {
    assert LegalWorkflow(Available, Preparing);
    hide TransitionAssignment, RowAs, WithRow, LegalWorkflow;
    match act
    case PrepareCollected(id) => RowMoves(f.rows, s.db, ctx.plan, s.locals, id, s.locals.collected[id].revision, Preparing);
    case SetState(workflow) => RowMoves(f.rows, s.db, ctx.plan, s.locals, s.locals.current, s.locals.row.revision, workflow);
  }

  /** A row moved at its revision: what was collected or in hand is only out of
      date for that row. */
  lemma RowMoves(v: RowsView, db: Db, plan: PlanId, l: Locals, id: AssignmentId, revision: nat, workflow: WorkflowState)
    requires RowsAs(v, db.assignments, plan, l) && id in v.states && LegalWorkflow(v.states[id], workflow)
    requires revision == RowIn(db.assignments, id).revision
    ensures var r := TransitionAssignment(db, id, revision, workflow, Some(plan));
      && r.Ok? && r.value == db.(assignments := r.value.assignments)
      && RowsAs(WithRow(v, id, workflow).(current := None), r.value.assignments, plan, l)
      && (v.current == Some(id) ==> RowsAs(WithRow(v, id, workflow), r.value.assignments, plan, l.(row := AssignmentOf(r.value, id))))
  {
    MoveGoes(db, id, RowIn(db.assignments, id).workflow, revision, workflow, plan);
    var after := TransitionAssignment(db, id, revision, workflow, Some(plan)).value.assignments;
    hide TransitionAssignment, LegalWorkflow;
    RowUpdated(v, db.assignments, plan, l, id, workflow, after[id]);
  }

  lemma MoveGoes(db: Db, id: AssignmentId, from: WorkflowState, revision: nat, workflow: WorkflowState, plan: PlanId)
    requires RowIn(db.assignments, id).workflow == from && RowIn(db.assignments, id).revision == revision && LegalWorkflow(from, workflow)
    ensures var r := TransitionAssignment(db, id, revision, workflow, Some(plan));
      && r.Ok? && id in r.value.assignments && r.value == db.(assignments := db.assignments[id := r.value.assignments[id]])
      && RowAs(workflow, r.value.assignments[id], plan)
  {
    hide WorkflowTransitions;
  }

  lemma RowUpdated(v: RowsView, assignments: map<AssignmentId, AssignmentRow>, plan: PlanId, l: Locals,
                   id: AssignmentId, workflow: WorkflowState, row: AssignmentRow)
    requires RowsAs(v, assignments, plan, l) && id in v.states && RowAs(workflow, row, plan)
    ensures RowsAs(WithRow(v, id, workflow).(current := None), assignments[id := row], plan, l)
    ensures v.current == Some(id) ==> RowsAs(WithRow(v, id, workflow), assignments[id := row], plan, l.(row := row))
  {
    hide RowAs;
  }

  lemma ClaimForetold(ctx: Ctx, start: Db, f: Forecast, s: Sys, act: Act)
    requires act.ClaimTarget? || act.ReleaseTarget?
    requires As(ctx, start, f, s) && Accepts(ctx, start, f, act)
    ensures Step(ctx, s, act).Running? && As(ctx, start, After(ctx, f, act), Step(ctx, s, act).sys)
  {
    hide HostAs, RowsAs, StepsAs, CheckpointsAs, GuardsAs;
    var after := Step(ctx, s, act).sys;
    assert after.db == s.db.(workloads := after.db.workloads) && after.layers == s.layers && after.locals == s.locals;
  }

  lemma PlainForetold(ctx: Ctx, start: Db, f: Forecast, s: Sys, act: Act)
    requires act.Commit? || act.Ask? || act.AskReturn? || act.RequireReturn? || act.RequireExecutor?
    requires As(ctx, start, f, s) && Accepts(ctx, start, f, act)
    ensures Step(ctx, s, act).Running? && As(ctx, start, After(ctx, f, act), Step(ctx, s, act).sys)
  {
    hide HostAs, RowsAs, ClaimsAs, StepsAs, CheckpointsAs, GuardsAs;
    var after := Step(ctx, s, act).sys;
    RowsElsewhereIf(f.rows, s.db.assignments, ctx.plan, s.locals, after.locals);
  }

  lemma RowsElsewhereIf(v: RowsView, assignments: map<AssignmentId, AssignmentRow>, plan: PlanId, l: Locals, next: Locals)
    ensures RowsAs(v, assignments, plan, l) && next == l.(complete := next.complete) ==> RowsAs(v, assignments, plan, next)
  {
  }

  /** A step with a fresh key and a fresh number is recorded. */
  lemma RecordRuns(db: Db, plan: PlanId, e: StepEntry, marks: set<(StepKey, nat)>)
    requires StepsAs(marks, db.steps, plan) && CheckpointsAs(marks, db.checkpoints, plan)
    requires forall m :: m in marks ==> m.0 != e.row.step && m.1 != e.sequence
    requires e.checkpoint == OfStep(e.row.step) && e.row.sequence == e.sequence
    ensures var r := RecordStep(db, plan, e);
      r.Ok? && StepsAs(marks + {(e.row.step, e.sequence)}, r.value.steps, plan)
      && CheckpointsAs(marks + {(e.row.step, e.sequence)}, r.value.checkpoints, plan)
  {
    hide StepsAs, CheckpointsAs, CreateStep, BeginStep, EndStep, RecordCheckpoint;
    var key := e.row.step;
    var created := CreateRuns(db, plan, key, e.sequence, marks);
    var ended := WorkRuns(created, plan, key, e.row.effect, marks + {(key, e.sequence)});
    CheckpointRuns(ended, plan, e, marks);
  }

  lemma CreateRuns(db: Db, plan: PlanId, key: StepKey, sequence: nat, marks: set<(StepKey, nat)>) returns (created: Db)
    requires StepsAs(marks, db.steps, plan) && forall m :: m in marks ==> m.0 != key && m.1 != sequence
    ensures CreateStep(db, plan, key, sequence) == Ok(created) && created.checkpoints == db.checkpoints
    ensures (plan, key) in created.steps && created.steps[(plan, key)].state == StepPending
    ensures StepsAs(marks + {(key, sequence)}, created.steps, plan)
  {
    assert (plan, key) !in db.steps && !StepSequenceTaken(db, plan, sequence);
    created := CreateStep(db, plan, key, sequence).value;
  }

  lemma WorkRuns(db: Db, plan: PlanId, key: StepKey, effect: SideEffect, marks: set<(StepKey, nat)>) returns (ended: Db)
    requires StepsAs(marks, db.steps, plan) && (plan, key) in db.steps && db.steps[(plan, key)].state == StepPending
    ensures var begun := BeginStep(db, plan, key); begun.Ok? && EndStep(begun.value, plan, key, effect) == Ok(ended)
    ensures ended.checkpoints == db.checkpoints && StepsAs(marks, ended.steps, plan)
  {
    var begun := BeginStep(db, plan, key).value;
    assert begun.steps == db.steps[(plan, key) := begun.steps[(plan, key)]];
    ended := EndStep(begun, plan, key, effect).value;
  }

  lemma CheckpointRuns(db: Db, plan: PlanId, e: StepEntry, marks: set<(StepKey, nat)>)
    requires CheckpointsAs(marks, db.checkpoints, plan) && forall m :: m in marks ==> m.0 != e.row.step && m.1 != e.sequence
    requires e.checkpoint == OfStep(e.row.step) && e.row.sequence == e.sequence
    ensures var r := RecordCheckpoint(db, plan, e.checkpoint, e.row);
      r.Ok? && r.value.steps == db.steps && CheckpointsAs(marks + {(e.row.step, e.sequence)}, r.value.checkpoints, plan)
  {
    assert (plan, e.checkpoint) !in db.checkpoints && !CheckpointSequenceTaken(db, plan, e.sequence);
  }

  lemma RecordForetold(ctx: Ctx, start: Db, f: Forecast, s: Sys, act: Act)
    requires Records(act)
    requires As(ctx, start, f, s) && Accepts(ctx, start, f, act)
    ensures Step(ctx, s, act).Running? && As(ctx, start, After(ctx, f, act), Step(ctx, s, act).sys)
  {
    hide HostAs, RowsAs, ClaimsAs, StepsAs, CheckpointsAs, GuardsAs, RecordStep;
    var after := Step(ctx, s, act).sys;
    RecordRuns(s.db, ctx.plan, EntryOf(ctx, s.locals, act), f.marks);
    R.RecordTables(ctx, s, act);
    assert after.layers == s.layers && after.locals == s.locals;
  }

  // The guard of one cluster.

  lemma CaptureRuns(ctx: Ctx, cluster: ClusterId, state: G.ClusterState)
    requires GuardAs(Unguarded, ctx, cluster, state.records, state.layers) && ctx.env.captureRead(cluster).Shows?
    ensures var (after, outcome) := GuardOutcome(ctx, state, GuardCapture, cluster);
      outcome.Returned? && after.layers == state.layers && GuardAs(JustCaptured, ctx, cluster, after.records, after.layers)
  {
  }

  lemma ActivateRuns(ctx: Ctx, cluster: ClusterId, state: G.ClusterState)
    requires GuardAs(JustCaptured, ctx, cluster, state.records, state.layers)
    ensures var (after, outcome) := GuardOutcome(ctx, state, GuardActivate, cluster);
      outcome.Returned? && GuardAs(Kept, ctx, cluster, after.records, after.layers)
  {
    GuardingApplied(state.layers);
    hide G.CleanupVerdict, G.Guarding;
    CleanupFacts(state, ctx, cluster);
  }

  /** Where nothing transient stands above it the guard's write takes effect. */
  lemma GuardingApplied(layers: Layers)
    ensures !G.Overridden(layers) ==> G.Guarding(ApplyPut(layers, GUARD_PUT))
  {
  }

  lemma CleanupFacts(state: G.ClusterState, ctx: Ctx, cluster: ClusterId)
    ensures forall after, cp, put, read :: var r := G.CleanupVerdict(after, cp, G.OnFailure, put, read);
      r.checkpoint.plan == cp.plan && r.checkpoint.phase in {G.Restored, G.RecoveryRequired}
  {
  }

  lemma RestoreRuns(ctx: Ctx, cluster: ClusterId, state: G.ClusterState)
    requires GuardAs(Kept, ctx, cluster, state.records, state.layers)
    ensures var (after, outcome) := GuardOutcome(ctx, state, GuardRestore, cluster);
      outcome.Returned? && GuardAs(Kept, ctx, cluster, after.records, after.layers)
  {
    hide G.RestoredLayers;
  }

  lemma OperationRuns(ctx: Ctx, cluster: ClusterId, state: G.ClusterState, op: GuardOp, stage: Stage)
    requires GuardAs(stage, ctx, cluster, state.records, state.layers)
    requires match op
             case GuardCapture => stage == Unguarded && ctx.env.captureRead(cluster).Shows?
             case GuardActivate => stage == JustCaptured
             case GuardRestore => stage == Kept
    ensures var (after, outcome) := GuardOutcome(ctx, state, op, cluster);
      outcome.Returned? && GuardAs(if op == GuardCapture then JustCaptured else Kept, ctx, cluster, after.records, after.layers)
  {
    match op
    case GuardCapture => CaptureRuns(ctx, cluster, state);
    case GuardActivate => ActivateRuns(ctx, cluster, state);
    case GuardRestore => RestoreRuns(ctx, cluster, state);
  }

  lemma GuardShape(ctx: Ctx, s: Sys, op: GuardOp, cluster: ClusterId)
    requires GuardOutcome(ctx, GuardState(s, cluster), op, cluster).1.Returned?
    ensures var o, after := Step(ctx, s, Guard(op, cluster)), GuardOutcome(ctx, GuardState(s, cluster), op, cluster).0;
      && o.Running? && o.sys.locals == s.locals && o.sys.layers == s.layers[cluster := after.layers]
      && o.sys.db == s.db.(guards := s.db.guards[cluster := after.records])
  {
    hide GuardOutcome, Writes;
  }

  lemma GuardsUpdated(stages: map<ClusterId, Stage>, ctx: Ctx, guards: map<ClusterId, G.Records>, layers: map<ClusterId, Layers>,
                      cluster: ClusterId, stage: Stage, after: G.ClusterState)
    requires GuardsAs(stages, ctx, guards, layers) && GuardAs(stage, ctx, cluster, after.records, after.layers)
    ensures GuardsAs(stages[cluster := stage], ctx, guards[cluster := after.records], layers[cluster := after.layers])
  {
    hide GuardAs;
  }

  lemma GuardForetold(ctx: Ctx, start: Db, f: Forecast, s: Sys, op: GuardOp, cluster: ClusterId)
    requires As(ctx, start, f, s) && Accepts(ctx, start, f, Guard(op, cluster))
    ensures Step(ctx, s, Guard(op, cluster)).Running? && As(ctx, start, After(ctx, f, Guard(op, cluster)), Step(ctx, s, Guard(op, cluster)).sys)
  {
    var state := GuardState(s, cluster);
    var stage := if op == GuardCapture then JustCaptured else Kept;
    assert GuardAs(f.guards[cluster], ctx, cluster, state.records, state.layers);
    hide HostAs, RowsAs, ClaimsAs, StepsAs, CheckpointsAs, GuardsAs, GuardAs, GuardOutcome, Writes, Saga.Step;
    OperationRuns(ctx, cluster, state, op, f.guards[cluster]);
    GuardShape(ctx, s, op, cluster);
    GuardsUpdated(f.guards, ctx, s.db.guards, s.layers, cluster, stage, GuardOutcome(ctx, state, op, cluster).0);
    assert op == GuardRestore ==> f.guards[cluster := stage] == f.guards;
  }

  lemma CloseForetold(ctx: Ctx, start: Db, f: Forecast, s: Sys)
    requires R.Proper(ctx)
    requires As(ctx, start, f, s) && Accepts(ctx, start, f, FinalizePlan)
    ensures Step(ctx, s, FinalizePlan).Running? && As(ctx, start, After(ctx, f, FinalizePlan), Step(ctx, s, FinalizePlan).sys)
  {
    hide HostAs, RowsAs, ClaimsAs, StepsAs, CheckpointsAs, GuardsAs, Saga.Finalized;
    CloseRuns(ctx, start, s);
    R.FinalizeTables(ctx, s);
    FinalizedElsewhere(ctx, s);
  }

  lemma FinalizedElsewhere(ctx: Ctx, s: Sys)
    ensures Finalized(ctx, s).sys.locals == s.locals && Finalized(ctx, s).sys.layers == s.layers
  {
  }

  lemma CloseRuns(ctx: Ctx, start: Db, s: Sys)
    requires R.Proper(ctx) && PlansAs(true, s.db, start) && Closable(ctx, start)
    ensures Finalized(ctx, s).Running?
  {
    var keys :| X.LockInv(start, keys);
    assert X.OwnersOk(s.db, keys) && X.NoIdleLocks(s.db) && X.FullLocks(s.db);
    assert E.StaleLocks(s.db, ctx.plan, ctx.env.now) == E.StaleLocks(start, ctx.plan, ctx.env.now);
    X.SuccessNeedsFreshLocks(s.db, keys, ctx.ticket, ctx.env.now, ctx.env.ttl);
  }

  /** A statement that the forecast accepts runs, and the forecast goes on. */
  lemma StepForetold(ctx: Ctx, start: Db, f: Forecast, s: Sys, act: Act)
    requires R.Proper(ctx) && As(ctx, start, f, s) && Accepts(ctx, start, f, act)
    ensures Step(ctx, s, act).Running? && As(ctx, start, After(ctx, f, act), Step(ctx, s, act).sys)
  {
    hide As, Accepts, After, Saga.Step;
    if act.Guard? {
      GuardForetold(ctx, start, f, s, act.guard, act.cluster);
    } else if act.FinalizePlan? {
      CloseForetold(ctx, start, f, s);
    } else if Records(act) {
      RecordForetold(ctx, start, f, s, act);
    } else if act.ReadHost? || act.SetHost? || act.SetHostWorkflow? {
      HostForetold(ctx, start, f, s, act);
    } else if act.ClaimTarget? || act.ReleaseTarget? {
      ClaimForetold(ctx, start, f, s, act);
    } else if act.Commit? || act.Ask? || act.AskReturn? || act.RequireReturn? || act.RequireExecutor? {
      PlainForetold(ctx, start, f, s, act);
    } else {
      RowForetold(ctx, start, f, s, act);
    }
  }

  // Programs.

  ghost predicate AcceptsAll(ctx: Ctx, start: Db, f: Forecast, acts: seq<Act>)
    decreases |acts|
  {
    acts == [] || (Accepts(ctx, start, f, acts[0]) && AcceptsAll(ctx, start, After(ctx, f, acts[0]), acts[1..]))
  }

  function AfterAll(ctx: Ctx, f: Forecast, acts: seq<Act>): Forecast
    decreases |acts|
  {
    if acts == [] then f else AfterAll(ctx, After(ctx, f, acts[0]), acts[1..])
  }

  /** A program that the forecast accepts runs to its end. */
  lemma {:induction false} ProgramForetold(ctx: Ctx, start: Db, f: Forecast, s: Sys, acts: seq<Act>)
    requires R.Proper(ctx) && As(ctx, start, f, s) && AcceptsAll(ctx, start, f, acts)
    ensures Exec(ctx, acts, s).Running? && As(ctx, start, AfterAll(ctx, f, acts), Exec(ctx, acts, s).sys)
    decreases |acts|
  {
    hide As, Accepts, After, Saga.Step;
    if acts != [] {
      StepForetold(ctx, start, f, s, acts[0]);
      ProgramForetold(ctx, start, After(ctx, f, acts[0]), Step(ctx, s, acts[0]).sys, acts[1..]);
    }
  }

  lemma {:induction false} AcceptsAppend(ctx: Ctx, start: Db, f: Forecast, a: seq<Act>, b: seq<Act>)
    ensures AcceptsAll(ctx, start, f, a + b) <==> AcceptsAll(ctx, start, f, a) && AcceptsAll(ctx, start, AfterAll(ctx, f, a), b)
    ensures AfterAll(ctx, f, a + b) == AfterAll(ctx, AfterAll(ctx, f, a), b)
    decreases |a|
  {
    hide Accepts, After;
    if a == [] {
      assert a + b == b;
    } else {
      assert (a + b)[0] == a[0] && (a + b)[1..] == a[1..] + b;
      AcceptsAppend(ctx, start, After(ctx, f, a[0]), a[1..], b);
    }
  }
}
