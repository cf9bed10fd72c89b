/** What a failed action leaves in the open transaction, and what survives when
    the exception leaves the action boundary. */
module SagaRecovery {
  import opened Wrappers
  import opened Lifecycle
  import opened Store
  import opened Saga
  import E = Execution
  import R = ExecutionRuns

  // The recovery of one failed action: three tables, each write on its own and
  // every refusal swallowed.

  function OrElse(r: Result<Db, StoreError>, db: Db): Db {
    if r.Ok? then r.value else db
  }

  predicate HostToRecover(db: Db, plan: PlanId, node: NodeId) {
    HostOf(db, node).plan == Some(plan) && HostOf(db, node).state != HostRecovery
  }

  function HostRecovered(db: Db, plan: PlanId, node: NodeId): Result<Db, StoreError> {
    TransitionHost(db, node, HostOf(db, node).revision, HostRecovery, Some(plan))
  }

  function RecoverHost(db: Db, plan: PlanId, node: NodeId): Db {
    if HostToRecover(db, plan, node) then OrElse(HostRecovered(db, plan, node), db) else db
  }

  predicate AssignmentToRecover(db: Db, plan: PlanId, id: AssignmentId) {
    AssignmentOf(db, id).plan == Some(plan) && AssignmentOf(db, id).workflow != RecoveryRequired
  }

  function AssignmentRecovered(db: Db, plan: PlanId, id: AssignmentId): Result<Db, StoreError> {
    TransitionAssignment(db, id, AssignmentOf(db, id).revision, RecoveryRequired, Some(plan))
  }

  function RecoverAssignment(db: Db, plan: PlanId, id: AssignmentId): Db {
    if AssignmentToRecover(db, plan, id) then OrElse(AssignmentRecovered(db, plan, id), db) else db
  }

  function RecoverAssignments(db: Db, plan: PlanId, targets: seq<Target>): Db
    decreases |targets|
  {
    if targets == [] then db else RecoverAssignments(RecoverAssignment(db, plan, targets[0].id), plan, targets[1..])
  }

  predicate PlanToRecover(db: Db, plan: PlanId) {
    plan in db.plans && db.plans[plan].state in {Executing, Ready}
  }

  function RecoverPlan(db: Db, ticket: E.Ticket, sameContent: bool): Db {
    if PlanToRecover(db, ticket.plan) then OrElse(E.FailSpec(db, ticket, sameContent), db) else db
  }

  function Recovered(db: Db, ctx: Ctx, targets: seq<Target>, host: bool): Db {
    var first := if host then RecoverHost(db, ctx.plan, ctx.node) else db;
    RecoverPlan(RecoverAssignments(first, ctx.plan, targets), ctx.ticket, ctx.env.sameContent)
  }

  // The tables' own invariant: an owned host or assignment is never `available`.

  predicate HostRowOk(row: HostRow) {
    (row.plan.None? <==> row.state == HostAvailable) && (row.state != HostAvailable ==> row.workflow != Available)
  }

  predicate AssignmentRowOk(row: AssignmentRow) {
    row.plan.None? <==> row.workflow == Available
  }

  ghost predicate RowsOk(db: Db) {
    && (forall n :: n in db.hosts ==> HostRowOk(db.hosts[n]))
    && (forall a :: a in db.assignments ==> AssignmentRowOk(db.assignments[a]))
  }

  lemma RowsOkAt(db: Db, node: NodeId, id: AssignmentId)
    requires RowsOk(db)
    ensures HostRowOk(HostOf(db, node)) && AssignmentRowOk(AssignmentOf(db, id))
  {
  }

  /** No workflow of this model moves a host's workflow to `available` by itself. */
  predicate KeepsWorkflowOwned(act: Act) {
    act.SetHostWorkflow? ==> act.workflow != Available
  }

  // What each statement may touch.

  predicate Proper(ctx: Ctx) {
    ctx.ticket.plan == ctx.plan && ctx.ticket.action == E.Execute
  }

  lemma MoveTables(db: Db, plan: PlanId, after: Db)
    requires plan in db.plans && E.TransitionForResult(db, plan, Succeeded) == Ok(after)
    ensures after == db.(plans := after.plans)
  {
    assert TransitionPlan(db, plan, db.plans[plan].revision, Succeeded) == Ok(after);
  }

  lemma ReleaseTables(db: Db, plan: PlanId, now: int, after: Db)
    requires E.ReleaseActiveSpec(db, plan, now) == Ok(after)
    ensures after == db.(locks := after.locks)
  {
  }

  lemma SettledTables(db: Db, plan: PlanId, now: int)
    requires plan in db.plans
    ensures var after := E.SettledView(db, plan, Some(Succeeded), now); after == db.(plans := after.plans, locks := after.locks)
    ensures E.Settled(db, plan, Some(Succeeded), now).Ok? ==>
              E.Settled(db, plan, Some(Succeeded), now).value == E.SettledView(db, plan, Some(Succeeded), now)
  {
    if E.TransitionForResult(db, plan, Succeeded).Ok? {
      var moved := E.TransitionForResult(db, plan, Succeeded).value;
      MoveTables(db, plan, moved);
      if E.ReleaseActiveSpec(moved, plan, now).Ok? {
        ReleaseTables(moved, plan, now, E.ReleaseActiveSpec(moved, plan, now).value);
      }
    }
    if db.plans[plan].state == Succeeded && E.ReleaseActiveSpec(db, plan, now).Ok? {
      ReleaseTables(db, plan, now, E.ReleaseActiveSpec(db, plan, now).value);
    }
  }

  lemma FinalizeTables(ctx: Ctx, s: Sys)
    requires Proper(ctx)
    ensures var after := Finalized(ctx, s).sys.db; after == s.db.(plans := after.plans, locks := after.locks)
  {
    if E.TicketMatches(s.db, ctx.ticket, ctx.env.sameContent) {
      SettledTables(s.db, ctx.plan, ctx.env.now);
    }
  }

  /** Statements that leave host and assignment rows alone. */
  predicate ElsewhereOnly(act: Act) {
    act.Guard? || act.FinalizePlan? || Records(act) || act.ClaimTarget? || act.ReleaseTarget?
  }

  lemma RecordTables(ctx: Ctx, s: Sys, act: Act)
    requires Records(act)
    ensures var after := Step(ctx, s, act).sys.db;
      after == s.db.(steps := after.steps, checkpoints := after.checkpoints)
  {
    hide RecordStep;
    RecordStepFrame(s.db, ctx.plan, EntryOf(ctx, s.locals, act));
  }

  lemma GuardTables(ctx: Ctx, s: Sys, op: GuardOp, cluster: ClusterId)
    ensures var after := Guarded(ctx, s, op, cluster).sys.db; after == s.db.(guards := after.guards)
  {
  }

  lemma OtherTables(ctx: Ctx, s: Sys, act: Act)
    requires Proper(ctx) && ElsewhereOnly(act)
    ensures var after := Step(ctx, s, act).sys.db;
      after.hosts == s.db.hosts && after.assignments == s.db.assignments && (!act.FinalizePlan? ==> after.plans == s.db.plans)
  {
    if act.FinalizePlan? {
      FinalizeTables(ctx, s);
    } else if act.Guard? {
      GuardTables(ctx, s, act.guard, act.cluster);
    } else if Records(act) {
      RecordTables(ctx, s, act);
    }
  }

  /** Statements that move a host or an assignment row. */
  predicate MovesRow(act: Act) {
    act.SetHost? || act.SetHostWorkflow? || act.PrepareCollected? || act.SetState?
  }

  lemma MoveKeepsRows(ctx: Ctx, s: Sys, act: Act)
    requires RowsOk(s.db) && KeepsWorkflowOwned(act) && MovesRow(act)
    ensures RowsOk(Step(ctx, s, act).sys.db) && Step(ctx, s, act).sys.db.plans == s.db.plans
  {
    RowsOkAt(s.db, ctx.node, s.locals.current);
  }

  lemma StepKeepsRows(ctx: Ctx, s: Sys, act: Act)
    requires Proper(ctx) && RowsOk(s.db) && KeepsWorkflowOwned(act)
    ensures RowsOk(Step(ctx, s, act).sys.db)
    ensures !act.FinalizePlan? ==> Step(ctx, s, act).sys.db.plans == s.db.plans
  {
    if ElsewhereOnly(act) {
      OtherTables(ctx, s, act);
    } else if MovesRow(act) {
      MoveKeepsRows(ctx, s, act);
    }
  }

  // Any point of any action before the plan is finalized.

  /** Statements of an action before its close; none of them is a recovery mark. */
  predicate BeforeClose(act: Act) {
    && KeepsWorkflowOwned(act) && !act.FinalizePlan? && act != SetHost(HostAvailable)
    && MarksNothing(act)
  }

  lemma {:induction false} ExecKeepsRows(ctx: Ctx, acts: seq<Act>, s: Sys)
    requires Proper(ctx) && RowsOk(s.db) && forall act :: act in acts ==> BeforeClose(act)
    ensures RowsOk(Exec(ctx, acts, s).sys.db) && Exec(ctx, acts, s).sys.db.plans == s.db.plans
    decreases |acts|
  {
    if acts != [] {
      assert acts[0] in acts;
      StepKeepsRows(ctx, s, acts[0]);
      if Step(ctx, s, acts[0]).Running? {
        ExecKeepsRows(ctx, acts[1..], Step(ctx, s, acts[0]).sys);
      }
    }
  }

  // The actions themselves put nothing in recovery.

  predicate MarksNothing(act: Act) {
    act != SetHost(HostRecovery) && act != SetState(RecoveryRequired)
  }

  predicate HostMarked(db: Db, node: NodeId) { HostOf(db, node).state == HostRecovery }

  predicate AssignmentMarked(db: Db, id: AssignmentId) { AssignmentOf(db, id).workflow == RecoveryRequired }

  /** No host and no assignment is in recovery that was not so before. */
  ghost predicate NoNewMarks(before: Db, after: Db) {
    && (forall n :: HostMarked(after, n) ==> HostMarked(before, n))
    && (forall a :: AssignmentMarked(after, a) ==> AssignmentMarked(before, a))
  }

  lemma StepMarksNothing(ctx: Ctx, s: Sys, act: Act)
    requires Proper(ctx) && MarksNothing(act)
    ensures NoNewMarks(s.db, Step(ctx, s, act).sys.db)
  {
    if ElsewhereOnly(act) {
      hide Saga.Step;
      OtherTables(ctx, s, act);
    } else if MovesRow(act) {
      MoveMarksNothing(ctx, s, act);
    }
  }

  lemma MoveMarksNothing(ctx: Ctx, s: Sys, act: Act)
    requires MovesRow(act) && MarksNothing(act)
    ensures NoNewMarks(s.db, Step(ctx, s, act).sys.db)
  {
    hide LegalHost, LegalWorkflow;
  }

  lemma {:induction false} ExecMarksNothing(ctx: Ctx, acts: seq<Act>, s: Sys)
    requires Proper(ctx) && forall act :: act in acts ==> MarksNothing(act)
    ensures NoNewMarks(s.db, Exec(ctx, acts, s).sys.db)
    decreases |acts|
  {
    hide Saga.Step, HostMarked, AssignmentMarked;
    if acts != [] {
      assert acts[0] in acts;
      StepMarksNothing(ctx, s, acts[0]);
      if Step(ctx, s, acts[0]).Running? {
        ExecMarksNothing(ctx, acts[1..], Step(ctx, s, acts[0]).sys);
      }
    }
  }

  // Recovery itself: no attempted transition is refused.

  /** The same recovery with the exception handlers taken out. */
  function Unhandled(db: Db, ctx: Ctx, targets: seq<Target>, host: bool): Result<Db, StoreError> {
    var first := if host && HostToRecover(db, ctx.plan, ctx.node) then HostRecovered(db, ctx.plan, ctx.node) else Ok(db);
    if first.Err? then first
    else
      var second := UnhandledAssignments(first.value, ctx.plan, targets);
      if second.Ok? && PlanToRecover(second.value, ctx.plan)
      then E.FailSpec(second.value, ctx.ticket, ctx.env.sameContent) else second
  }

  function UnhandledAssignments(db: Db, plan: PlanId, targets: seq<Target>): Result<Db, StoreError>
    decreases |targets|
  {
    if targets == [] then Ok(db)
    else if !AssignmentToRecover(db, plan, targets[0].id) then UnhandledAssignments(db, plan, targets[1..])
    else
      var next := AssignmentRecovered(db, plan, targets[0].id);
      if next.Err? then next else UnhandledAssignments(next.value, plan, targets[1..])
  }

  lemma HostRecovers(db: Db, plan: PlanId, node: NodeId)
    requires RowsOk(db)
    ensures HostToRecover(db, plan, node) ==> HostRecovered(db, plan, node) == Ok(RecoverHost(db, plan, node))
    ensures var after := RecoverHost(db, plan, node);
      && RowsOk(after) && after == db.(hosts := after.hosts)
      && HostOf(after, node).plan == HostOf(db, node).plan
      && (HostOf(db, node).plan == Some(plan) ==> HostOf(after, node).state == HostRecovery)
  {
    RowsOkAt(db, node, 0);
  }

  lemma AssignmentRecovers(db: Db, plan: PlanId, id: AssignmentId)
    requires RowsOk(db)
    ensures AssignmentToRecover(db, plan, id) ==> AssignmentRecovered(db, plan, id) == Ok(RecoverAssignment(db, plan, id))
    ensures var after := RecoverAssignment(db, plan, id);
      && RowsOk(after) && after == db.(assignments := after.assignments)
      && (forall a :: AssignmentOf(after, a).plan == AssignmentOf(db, a).plan)
      && (forall a :: a != id || AssignmentOf(db, a).plan != Some(plan) ==> AssignmentOf(after, a) == AssignmentOf(db, a))
      && (AssignmentOf(db, id).plan == Some(plan) ==> AssignmentOf(after, id).workflow == RecoveryRequired)
  {
    RowsOkAt(db, 0, id);
  }

  /** All of a plan's targets that it owns, whatever their number and order. */
  lemma {:induction false} AssignmentsRecover(db: Db, plan: PlanId, targets: seq<Target>)
    requires RowsOk(db)
    ensures UnhandledAssignments(db, plan, targets) == Ok(RecoverAssignments(db, plan, targets))
    ensures var after := RecoverAssignments(db, plan, targets);
      && RowsOk(after) && after == db.(assignments := after.assignments)
      && (forall a :: AssignmentOf(after, a).plan == AssignmentOf(db, a).plan)
      && (forall a :: AssignmentOf(db, a).plan != Some(plan) ==> AssignmentOf(after, a) == AssignmentOf(db, a))
      && (forall a :: AssignmentOf(db, a).plan == Some(plan) && AssignmentOf(db, a).workflow == RecoveryRequired ==>
            AssignmentOf(after, a).workflow == RecoveryRequired)
      && (forall t :: t in targets && AssignmentOf(db, t.id).plan == Some(plan) ==>
            AssignmentOf(after, t.id).workflow == RecoveryRequired)
    decreases |targets|
  {
    if targets != [] {
      AssignmentRecovers(db, plan, targets[0].id);
      AssignmentsRecover(RecoverAssignment(db, plan, targets[0].id), plan, targets[1..]);
    }
  }

  // Assignments of other plans. A statement writes an assignment row only after
  // the action has seen that row unowned or its own.

  datatype Checked = Checked(ids: set<AssignmentId>, current: Option<AssignmentId>)

  function Follow(c: Checked, act: Act): Checked {
    match act
    case Collect(id) => c.(ids := c.ids + {id})
    case Require(id, _) => Checked(c.ids + {id}, Some(id))
    case Load(id) => c.(current := Some(id))
    case _ => c
  }

  function FollowAll(c: Checked, acts: seq<Act>): Checked
    decreases |acts|
  {
    if acts == [] then c else FollowAll(Follow(c, acts[0]), acts[1..])
  }

  predicate CarefulStep(c: Checked, act: Act) {
    match act
    case PrepareCollected(id) => id in c.ids
    case SetState(_) => c.current.Some? && c.current.value in c.ids
    case _ => true
  }

  predicate Careful(c: Checked, acts: seq<Act>)
    decreases |acts|
  {
    acts == [] || (CarefulStep(c, acts[0]) && Careful(Follow(c, acts[0]), acts[1..]))
  }

  lemma {:induction false} CarefulAppend(c: Checked, a: seq<Act>, b: seq<Act>)
    ensures Careful(c, a + b) <==> Careful(c, a) && Careful(FollowAll(c, a), b)
    ensures FollowAll(c, a + b) == FollowAll(FollowAll(c, a), b)
    decreases |a|
  {
    if a == [] {
      assert a + b == b;
    } else {
      assert (a + b)[0] == a[0] && (a + b)[1..] == a[1..] + b;
      CarefulAppend(Follow(c, a[0]), a[1..], b);
    }
  }

  function ForeignIds(db: Db, plan: PlanId): set<AssignmentId> {
    set a | a in db.assignments && db.assignments[a].plan.Some? && db.assignments[a].plan != Some(plan)
  }

  ghost predicate ForeignKept(start: Db, db: Db, plan: PlanId) {
    forall a :: a in ForeignIds(start, plan) ==> a in db.assignments && db.assignments[a] == start.assignments[a]
  }

  ghost predicate Apart(start: Db, plan: PlanId, c: Checked, s: Sys) {
    && ForeignKept(start, s.db, plan)
    && c.ids * ForeignIds(start, plan) == {}
    && (c.current.Some? ==> s.locals.current == c.current.value)
  }

  lemma StepKeepsApart(start: Db, ctx: Ctx, c: Checked, s: Sys, act: Act)
    requires Proper(ctx) && RowsOk(s.db) && Apart(start, ctx.plan, c, s) && CarefulStep(c, act)
    ensures ForeignKept(start, Step(ctx, s, act).sys.db, ctx.plan)
    ensures Step(ctx, s, act).Running? ==> Apart(start, ctx.plan, Follow(c, act), Step(ctx, s, act).sys)
  {
    if ElsewhereOnly(act) {
      OtherTables(ctx, s, act);
    } else if act.Collect? {
      RowsOkAt(s.db, ctx.node, act.id);
    }
  }

  lemma {:induction false} ExecKeepsApart(start: Db, ctx: Ctx, c: Checked, acts: seq<Act>, s: Sys)
    requires Proper(ctx) && RowsOk(s.db) && Apart(start, ctx.plan, c, s) && Careful(c, acts)
    requires forall act :: act in acts ==> KeepsWorkflowOwned(act)
    ensures ForeignKept(start, Exec(ctx, acts, s).sys.db, ctx.plan)
    decreases |acts|
  {
    if acts != [] {
      assert acts[0] in acts;
      StepKeepsApart(start, ctx, c, s, acts[0]);
      StepKeepsRows(ctx, s, acts[0]);
      if Step(ctx, s, acts[0]).Running? {
        ExecKeepsApart(start, ctx, Follow(c, acts[0]), acts[1..], Step(ctx, s, acts[0]).sys);
      }
    }
  }

  // The four actions of a host, up to the close, are such programs.

  ghost predicate Sound(c: Checked, acts: seq<Act>) {
    Careful(c, acts) && forall act :: act in acts ==> BeforeClose(act)
  }

  lemma SoundAppend(c: Checked, a: seq<Act>, b: seq<Act>)
    requires Sound(c, a) && Sound(FollowAll(c, a), b)
    ensures Sound(c, a + b) && FollowAll(c, a + b) == FollowAll(FollowAll(c, a), b)
  {
    CarefulAppend(c, a, b);
  }

  lemma SoundPrefix(c: Checked, acts: seq<Act>, k: nat)
    requires Sound(c, acts) && k <= |acts|
    ensures Sound(c, acts[..k])
  {
    assert acts == acts[..k] + acts[k..];
    CarefulAppend(c, acts[..k], acts[k..]);
  }

  /** Statements that pick no new assignment. */
  predicate Steady(act: Act) {
    BeforeClose(act) && !act.Collect? && !act.PrepareCollected? && !act.Load? && !act.Require?
  }

  lemma {:induction false} SteadySound(c: Checked, acts: seq<Act>)
    requires forall act :: act in acts ==> Steady(act)
    requires (forall act :: act in acts ==> !act.SetState?) || (c.current.Some? && c.current.value in c.ids)
    ensures Sound(c, acts) && FollowAll(c, acts) == c
    decreases |acts|
  {
    if acts != [] {
      assert acts[0] in acts;
      SteadySound(c, acts[1..]);
    }
  }

  lemma RequiredSound(c: Checked, id: AssignmentId, workflow: WorkflowState, rest: seq<Act>)
    requires forall act :: act in rest ==> Steady(act)
    ensures Sound(c, [Require(id, workflow)] + rest)
  {
    var next := Follow(c, Require(id, workflow));
    SteadySound(next, rest);
    assert ([Require(id, workflow)] + rest)[1..] == rest;
  }

  lemma {:induction false} StopAllSound(c: Checked, targets: seq<Target>, index: nat)
    ensures Sound(c, StopAll(targets, index))
    decreases |targets|
  {
    if targets != [] {
      var one := StopOne(targets[0], index);
      assert one == [Require(targets[0].id, ReadyToStop)] + one[1..];
      RequiredSound(c, targets[0].id, ReadyToStop, one[1..]);
      StopAllSound(FollowAll(c, one), targets[1..], index + 1);
      SoundAppend(c, one, StopAll(targets[1..], index + 1));
    }
  }

  lemma {:induction false} ReturnAllSound(c: Checked, targets: seq<Target>, index: nat)
    ensures Sound(c, ReturnAll(targets, index))
    decreases |targets|
  {
    if targets != [] {
      var one := ReturnOne(targets[0], index);
      assert one == [Require(targets[0].id, Maintenance)] + one[1..];
      RequiredSound(c, targets[0].id, Maintenance, one[1..]);
      ReturnAllSound(FollowAll(c, one), targets[1..], index + 1);
      SoundAppend(c, one, ReturnAll(targets[1..], index + 1));
    }
  }

  predicate AllIn(targets: seq<Target>, ids: set<AssignmentId>) {
    forall t :: t in targets ==> t.id in ids
  }

  lemma {:induction false} CollectAllSound(c: Checked, targets: seq<Target>)
    ensures Sound(c, CollectAll(targets))
    ensures c.ids <= FollowAll(c, CollectAll(targets)).ids && AllIn(targets, FollowAll(c, CollectAll(targets)).ids)
    decreases |targets|
  {
    if targets != [] {
      CollectAllSound(Follow(c, Collect(targets[0].id)), targets[1..]);
      assert CollectAll(targets)[1..] == CollectAll(targets[1..]);
    }
  }

  lemma {:induction false} PrepareAllSound(c: Checked, targets: seq<Target>)
    requires AllIn(targets, c.ids)
    ensures Sound(c, PrepareAll(targets)) && FollowAll(c, PrepareAll(targets)) == c
    decreases |targets|
  {
    if targets != [] {
      PrepareAllSound(c, targets[1..]);
      assert PrepareAll(targets)[1..] == PrepareAll(targets[1..]);
    }
  }

  lemma {:induction false} ClaimAllSteady(targets: seq<Target>)
    ensures forall act :: act in ClaimAll(targets) ==> act.ClaimTarget?
    decreases |targets|
  {
    if targets != [] {
      ClaimAllSteady(targets[1..]);
    }
  }

  lemma {:induction false} ReadyAllSound(c: Checked, targets: seq<Target>)
    requires AllIn(targets, c.ids)
    ensures Sound(c, ReadyAll(targets))
    decreases |targets|
  {
    if targets != [] {
      var one := [Load(targets[0].id), SetState(ReadyToStop)];
      var next := c.(current := Some(targets[0].id));
      SteadySound(next, one[1..]);
      assert Sound(c, one) && FollowAll(c, one) == next;
      ReadyAllSound(next, targets[1..]);
      SoundAppend(c, one, ReadyAll(targets[1..]));
    }
  }

  lemma {:induction false} GuardsSteady(clusters: seq<ClusterId>)
    ensures forall act :: act in GuardAll(clusters) ==> act.Guard? || act.Commit?
    ensures forall act :: act in UnguardAll(clusters) ==> act.Guard? || act.Commit?
    decreases |clusters|
  {
    if clusters != [] {
      GuardsSteady(clusters[1..]);
    }
  }

  lemma PrepareAssignmentsSound(c: Checked, targets: seq<Target>)
    ensures Sound(c, PrepareAssignments(targets))
  {
    CollectAllSound(c, targets);
    var a := CollectAll(targets);
    var seen := FollowAll(c, a);
    PrepareAllSound(seen, targets);
    SoundAppend(c, a, PrepareAll(targets));
    ClaimAllSteady(targets);
    SteadySound(seen, ClaimAll(targets));
    SoundAppend(c, a + PrepareAll(targets), ClaimAll(targets));
    ReadyAllSound(seen, targets);
    SoundAppend(c, a + PrepareAll(targets) + ClaimAll(targets), ReadyAll(targets));
  }

  const NOTHING := Checked({}, None)

  lemma HostPrepareSound(targets: seq<Target>)
    ensures Sound(NOTHING, HostPrepare(targets))
  {
    hide Careful, FollowAll;
    var start := [ReadHost, SetHost(HostPlanning)];
    SteadySound(NOTHING, start);
    PrepareAssignmentsSound(NOTHING, targets);
    SoundAppend(NOTHING, start, PrepareAssignments(targets));
    GuardsSteady(DataClusters(targets));
    var tail := [HostRecord(Prepare, None, 0, EffectVerified)] + GuardAll(DataClusters(targets)) + [SetHostWorkflow(ReadyToStop)];
    SteadySound(FollowAll(NOTHING, start + PrepareAssignments(targets)), tail);
    SoundAppend(NOTHING, start + PrepareAssignments(targets), tail);
    assert HostPrepare(targets) == start + PrepareAssignments(targets) + tail;
  }

  lemma HostStopSound(targets: seq<Target>)
    ensures Sound(NOTHING, HostStop(targets))
  {
    var start := [SetHostWorkflow(Stopping)];
    var tail := [SetHostWorkflow(Maintenance), SetHost(HostMaintenance)];
    var all := StopAll(StopOrder(targets), 1);
    SteadySound(NOTHING, start);
    StopAllSound(NOTHING, StopOrder(targets), 1);
    SoundAppend(NOTHING, start, all);
    SteadySound(FollowAll(NOTHING, start + all), tail);
    SoundAppend(NOTHING, start + all, tail);
  }

  lemma HostReturnWorkSound(targets: seq<Target>, rebooted: bool)
    ensures Sound(NOTHING, HostReturnWork(targets, rebooted))
  {
    hide Careful, FollowAll;
    var start, all, guards := Rediscovery(), ReturnAll(StartOrder(targets), 1), UnguardAll(DataClusters(targets));
    SteadySound(NOTHING, start);
    ReturnAllSound(NOTHING, StartOrder(targets), 1);
    SoundAppend(NOTHING, start, all);
    GuardsSteady(DataClusters(targets));
    SteadySound(FollowAll(NOTHING, start + all), guards);
    SoundAppend(NOTHING, start + all, guards);
    ClosingSteady(FollowAll(NOTHING, start + all + guards), rebooted);
    SoundAppend(NOTHING, start + all + guards, VerifyAll());
    SoundAppend(NOTHING, start + all + guards + VerifyAll(), Cleanup(rebooted));
  }

  lemma ClosingSteady(c: Checked, rebooted: bool)
    ensures Sound(c, VerifyAll()) && FollowAll(c, VerifyAll()) == c
    ensures Sound(c, Cleanup(rebooted)) && FollowAll(c, Cleanup(rebooted)) == c
  {
    SteadySound(c, VerifyAll());
    SteadySound(c, Cleanup(rebooted));
  }

  datatype HostAction = PrepareAction | StopAction | RebootAction | ReturnAction(rebooted: bool)

  /** What an action does before its plan is closed. */
  function Work(action: HostAction, targets: seq<Target>): seq<Act> {
    match action
    case PrepareAction => HostPrepare(targets)
    case StopAction => HostStop(targets)
    case RebootAction => HostReboot()
    case ReturnAction(rebooted) => HostReturnWork(targets, rebooted)
  }

  /** The whole action, the close included. */
  function HostProgram(action: HostAction, targets: seq<Target>): seq<Act> {
    if action.ReturnAction? then HostReturn(targets, action.rebooted) else Work(action, targets)
  }

  lemma WorkSound(action: HostAction, targets: seq<Target>)
    ensures Sound(NOTHING, Work(action, targets))
  {
    match action
    case PrepareAction => HostPrepareSound(targets);
    case StopAction => HostStopSound(targets);
    case RebootAction => SteadySound(NOTHING, HostReboot());
    case ReturnAction(rebooted) => HostReturnWorkSound(targets, rebooted);
  }

  /** Main result on failure. Whatever was started, with any number of targets
      and any adapter answers, and wherever before the close it breaks off:
      recovery leaves the host, every target and the plan that the action owns
      in recovery, touches no assignment of another plan, and is never refused,
      so its exception handlers have nothing to hide. */
  lemma RecoveryIsComplete(ctx: Ctx, s: Sys, action: HostAction, targets: seq<Target>, k: nat, broken: Db, left: Db)
    requires Proper(ctx) && RowsOk(s.db) && ctx.env.sameContent
    requires E.TicketMatches(s.db, ctx.ticket, true) && s.db.plans[ctx.plan].state == Executing
    requires k <= |Work(action, targets)|
    requires broken == Exec(ctx, Work(action, targets)[..k], s).sys.db && left == Recovered(broken, ctx, targets, true)
    ensures HostOf(broken, ctx.node).plan == Some(ctx.plan) ==>
              HostOf(left, ctx.node).plan == Some(ctx.plan) && HostOf(left, ctx.node).state == HostRecovery
    ensures forall t :: t in targets && AssignmentOf(broken, t.id).plan == Some(ctx.plan) ==>
              AssignmentOf(left, t.id).plan == Some(ctx.plan) && AssignmentOf(left, t.id).workflow == RecoveryRequired
    ensures ctx.plan in left.plans && left.plans[ctx.plan].state == PlanRecovery
    ensures ForeignKept(s.db, left, ctx.plan)
    ensures Unhandled(broken, ctx, targets, true) == Ok(left)
  {
    var acts := Work(action, targets)[..k];
    WorkSound(action, targets);
    SoundPrefix(NOTHING, Work(action, targets), k);
    ExecKeepsRows(ctx, acts, s);
    ExecKeepsApart(s.db, ctx, NOTHING, acts, s);
    RecoveredFrom(s.db, Exec(ctx, acts, s).sys.db, ctx, targets);
  }

  lemma RecoveredFrom(start: Db, broken: Db, ctx: Ctx, targets: seq<Target>)
    requires Proper(ctx) && RowsOk(broken) && ctx.env.sameContent && ForeignKept(start, broken, ctx.plan)
    requires E.TicketMatches(broken, ctx.ticket, true) && broken.plans[ctx.plan].state == Executing
    ensures
      var left := Recovered(broken, ctx, targets, true);
      && (HostOf(broken, ctx.node).plan == Some(ctx.plan) ==>
            HostOf(left, ctx.node).plan == Some(ctx.plan) && HostOf(left, ctx.node).state == HostRecovery)
      && (forall t :: t in targets && AssignmentOf(broken, t.id).plan == Some(ctx.plan) ==>
            AssignmentOf(left, t.id).plan == Some(ctx.plan) && AssignmentOf(left, t.id).workflow == RecoveryRequired)
      && ctx.plan in left.plans && left.plans[ctx.plan].state == PlanRecovery
      && ForeignKept(start, left, ctx.plan)
      && Unhandled(broken, ctx, targets, true) == Ok(left)
  {
    HostRecovers(broken, ctx.plan, ctx.node);
    var second := RecoverHost(broken, ctx.plan, ctx.node);
    AssignmentsRecover(second, ctx.plan, targets);
    var third := RecoverAssignments(second, ctx.plan, targets);
    assert third.plans == broken.plans;
    PlanRecovers(third, ctx);
    forall a | a in ForeignIds(start, ctx.plan) ensures AssignmentOf(third, a) == start.assignments[a] {
    }
  }

  lemma PlanRecovers(db: Db, ctx: Ctx)
    requires Proper(ctx) && ctx.env.sameContent
    requires E.TicketMatches(db, ctx.ticket, true) && db.plans[ctx.plan].state == Executing
    ensures var after := RecoverPlan(db, ctx.ticket, ctx.env.sameContent);
      && E.FailSpec(db, ctx.ticket, ctx.env.sameContent) == Ok(after) && after == db.(plans := after.plans)
      && ctx.plan in after.plans && after.plans[ctx.plan].state == PlanRecovery
  {
  }

  // Where that promise ends.

  /** The close is refused exactly when one of the plan's locks has expired, and
      by then the plan already reads `succeeded`: recovery marks the host and
      leaves the plan, so the open transaction holds a finished plan that still
      owns a host in recovery. */
  lemma CloseWithExpiredLocks(ctx: Ctx, s: Sys, keys: R.Keys, targets: seq<Target>)
    requires Proper(ctx) && RowsOk(s.db) && ctx.env.sameContent && R.LockInv(s.db, keys)
    requires E.TicketMatches(s.db, ctx.ticket, true) && s.db.plans[ctx.plan].state == Executing
    requires HostOf(s.db, ctx.node).plan == Some(ctx.plan)
    ensures Finalized(ctx, s).Raised? <==> E.StaleLocks(s.db, ctx.plan, ctx.env.now) != {}
    ensures Finalized(ctx, s).Raised? ==>
      var left := Recovered(Finalized(ctx, s).sys.db, ctx, targets, true);
      && ctx.plan in left.plans && left.plans[ctx.plan].state == Succeeded
      && HostOf(left, ctx.node).plan == Some(ctx.plan) && HostOf(left, ctx.node).state == HostRecovery
  {
    R.SuccessNeedsFreshLocks(s.db, keys, ctx.ticket, ctx.env.now, ctx.env.ttl);
    if Finalized(ctx, s).Raised? {
      var broken := Finalized(ctx, s).sys.db;
      FinalizeTables(ctx, s);
      SucceededView(ctx, s);
      assert HostOf(broken, ctx.node) == HostOf(s.db, ctx.node);
      HostRecovers(broken, ctx.plan, ctx.node);
      AssignmentsRecover(RecoverHost(broken, ctx.plan, ctx.node), ctx.plan, targets);
    }
  }

  lemma SucceededView(ctx: Ctx, s: Sys)
    requires Proper(ctx) && ctx.env.sameContent && Finalized(ctx, s).Raised?
    requires E.TicketMatches(s.db, ctx.ticket, true) && s.db.plans[ctx.plan].state == Executing
    ensures var after := Finalized(ctx, s).sys.db; ctx.plan in after.plans && after.plans[ctx.plan].state == Succeeded
  {
  }

  // The container workflow: one target, no host row.

  datatype ContainerAction = PrepareContainer | StopContainer | ReturnContainer

  function ContainerWork(action: ContainerAction, t: Target): seq<Act> {
    match action
    case PrepareContainer => ContainerPrepare(t)
    case StopContainer => ContainerStop(t)
    case ReturnContainer => ContainerReturnWork(t)
  }

  function InHand(t: Target): Checked {
    Checked({t.id}, Some(t.id))
  }

  lemma ContainerPrepareSound(t: Target)
    ensures Sound(InHand(t), ContainerPrepare(t))
  {
    var guards := if t.dataBearing then GuardAll([t.cluster]) else [];
    var rest := [SetState(Preparing), ClaimTarget(t.id, t.revision), Finished(CPrepare)] + guards + [SetState(ReadyToStop)];
    GuardsSteady([t.cluster]);
    SteadySound(InHand(t), rest);
    assert ContainerPrepare(t) == [Load(t.id)] + rest;
    assert ([Load(t.id)] + rest)[1..] == rest && Follow(InHand(t), Load(t.id)) == InHand(t);
  }

  lemma ContainerReturnSound(t: Target)
    ensures Sound(InHand(t), ContainerReturnWork(t))
  {
    var guards := if t.dataBearing then UnguardAll([t.cluster]) else [];
    var asks, end := ContainerReady(t) + ContainerCompanions(t), guards + [ReleaseTarget(t.id), SetState(Available)];
    GuardsSteady([t.cluster]);
    ReturnSteady(t);
    hide Careful, FollowAll, BeforeClose;
    SteadySound(InHand(t), ContainerStart(t));
    SteadySound(InHand(t), asks);
    SteadySound(InHand(t), end);
    SoundAppend(InHand(t), ContainerStart(t), asks);
    SoundAppend(InHand(t), ContainerStart(t) + asks, end);
    assert ContainerReturnWork(t) == ContainerStart(t) + asks + end;
  }

  lemma ReturnSteady(t: Target)
    ensures forall act :: act in ContainerStart(t) ==> Steady(act)
    ensures forall act :: act in ContainerReady(t) + ContainerCompanions(t) ==> Steady(act)
    ensures Steady(ReleaseTarget(t.id)) && Steady(SetState(Available)) && Steady(Commit)
    ensures forall op, c :: Steady(Guard(op, c))
  {
  }

  lemma ContainerWorkSound(action: ContainerAction, t: Target)
    ensures Sound(InHand(t), ContainerWork(action, t))
  {
    match action
    case PrepareContainer => ContainerPrepareSound(t);
    case StopContainer => SteadySound(InHand(t), ContainerStop(t));
    case ReturnContainer => ContainerReturnSound(t);
  }

  /** The same failure result for one workload, provided that another plan does
      not own it when the action starts. */
  lemma ContainerRecoveryIsComplete(ctx: Ctx, s: Sys, action: ContainerAction, t: Target, k: nat)
    requires Proper(ctx) && RowsOk(s.db) && ctx.env.sameContent
    requires E.TicketMatches(s.db, ctx.ticket, true) && s.db.plans[ctx.plan].state == Executing
    requires AssignmentOf(s.db, t.id).plan in {None, Some(ctx.plan)} && s.locals.current == t.id
    requires k <= |ContainerWork(action, t)|
    ensures
      var broken := Exec(ctx, ContainerWork(action, t)[..k], s).sys.db;
      var left := Recovered(broken, ctx, [t], false);
      && (AssignmentOf(broken, t.id).plan == Some(ctx.plan) ==>
            AssignmentOf(left, t.id).plan == Some(ctx.plan) && AssignmentOf(left, t.id).workflow == RecoveryRequired)
      && ctx.plan in left.plans && left.plans[ctx.plan].state == PlanRecovery
      && ForeignKept(s.db, left, ctx.plan)
      && Unhandled(broken, ctx, [t], false) == Ok(left)
  {
    var acts := ContainerWork(action, t)[..k];
    ContainerWorkSound(action, t);
    SoundPrefix(InHand(t), ContainerWork(action, t), k);
    ExecKeepsRows(ctx, acts, s);
    ExecKeepsApart(s.db, ctx, InHand(t), acts, s);
    ContainerRecoveredFrom(s.db, Exec(ctx, acts, s).sys.db, ctx, t);
  }

  lemma ContainerRecoveredFrom(start: Db, broken: Db, ctx: Ctx, t: Target)
    requires Proper(ctx) && RowsOk(broken) && ctx.env.sameContent && ForeignKept(start, broken, ctx.plan)
    requires E.TicketMatches(broken, ctx.ticket, true) && broken.plans[ctx.plan].state == Executing
    ensures
      var left := Recovered(broken, ctx, [t], false);
      && (AssignmentOf(broken, t.id).plan == Some(ctx.plan) ==>
            AssignmentOf(left, t.id).plan == Some(ctx.plan) && AssignmentOf(left, t.id).workflow == RecoveryRequired)
      && ctx.plan in left.plans && left.plans[ctx.plan].state == PlanRecovery
      && ForeignKept(start, left, ctx.plan)
      && Unhandled(broken, ctx, [t], false) == Ok(left)
  {
    AssignmentsRecover(broken, ctx.plan, [t]);
    assert t in [t];
    var third := RecoverAssignments(broken, ctx.plan, [t]);
    assert third.plans == broken.plans;
    PlanRecovers(third, ctx);
    forall a | a in ForeignIds(start, ctx.plan) ensures AssignmentOf(third, a) == start.assignments[a] {
    }
  }

  /** That proviso is needed: unlike the host workflow, a container's prepare does
      not ask whether its workload is available. In the open transaction its mark
      replaces that of another plan exactly when the workload is blocked or in
      recovery; the claim that follows is what refuses it. */
  lemma PrepareMarksOverExactlyWhen(ctx: Ctx, s: Sys, t: Target)
    requires RowsOk(s.db) && AssignmentOf(s.db, t.id).plan.Some? && AssignmentOf(s.db, t.id).plan != Some(ctx.plan)
    ensures AssignmentOf(Exec(ctx, ContainerPrepare(t)[..2], s).sys.db, t.id).plan == Some(ctx.plan)
       <==> AssignmentOf(s.db, t.id).workflow in {WorkflowBlocked, RecoveryRequired}
  {
    hide Saga.Exec;
    RowsOkAt(s.db, ctx.node, t.id);
    PrepareStarts(ctx, s, t);
  }

  lemma PrepareStarts(ctx: Ctx, s: Sys, t: Target)
    ensures Exec(ctx, ContainerPrepare(t)[..2], s) == Step(ctx, Step(ctx, s, Load(t.id)).sys, SetState(Preparing))
  {
    var two := [Load(t.id), SetState(Preparing)];
    assert ContainerPrepare(t)[..2] == two;
    assert two[1..] == [SetState(Preparing)] && [SetState(Preparing)][1..] == [];
    var loaded := Step(ctx, s, Load(t.id)).sys;
    assert Exec(ctx, two, s) == Exec(ctx, [SetState(Preparing)], loaded);
  }

  /** The host workflow refuses any workload that is not available. */
  lemma {:induction false} HostPrepareRefuses(ctx: Ctx, s: Sys, targets: seq<Target>, t: Target)
    requires t in targets && AssignmentOf(s.db, t.id).workflow != Available
    ensures Exec(ctx, CollectAll(targets), s).Raised?
    decreases |targets|
  {
    assert CollectAll(targets)[1..] == CollectAll(targets[1..]);
    var first := Step(ctx, s, Collect(targets[0].id));
    if first.Running? {
      assert t in targets[1..];
      HostPrepareRefuses(ctx, first.sys, targets[1..], t);
    }
  }
}
