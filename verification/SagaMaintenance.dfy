/** A host in maintenance has every workload of its plan confirmed stopped. */
module SagaMaintenance {
  import opened Wrappers
  import opened Lifecycle
  import opened Store
  import opened Saga
  import R = SagaRecovery

  // What a running program leaves in the call log.

  lemma StepLogs(ctx: Ctx, s: Sys, act: Act)
    ensures var after := Step(ctx, s, act).sys;
      && |s.calls| <= |after.calls| && after.calls[..|s.calls|] == s.calls
      && (Step(ctx, s, act).Running? && act.Ask? ==> after.calls == s.calls + [Remote(ctx.plan, act.op, Confirmed)])
  {
  }

  lemma {:induction false} ExecLogs(ctx: Ctx, acts: seq<Act>, s: Sys)
    ensures var after := Exec(ctx, acts, s).sys;
      && |s.calls| <= |after.calls| && after.calls[..|s.calls|] == s.calls
      && (Exec(ctx, acts, s).Running? ==> forall op :: Ask(op) in acts ==> Remote(ctx.plan, op, Confirmed) in after.calls)
    decreases |acts|
  {
    if acts != [] {
      StepLogs(ctx, s, acts[0]);
      var next := Step(ctx, s, acts[0]);
      if next.Running? {
        ExecLogs(ctx, acts[1..], next.sys);
        var after := Exec(ctx, acts, s).sys;
        assert after.calls[..|s.calls|] == after.calls[..|next.sys.calls|][..|s.calls|];
        if acts[0].Ask? && Exec(ctx, acts, s).Running? {
          assert after.calls[..|next.sys.calls|][|s.calls|] == Remote(ctx.plan, acts[0].op, Confirmed);
        }
      }
    }
  }

  // Stopping one target, and all of them.

  predicate InMaintenance(db: Db, plan: PlanId, id: AssignmentId) {
    AssignmentOf(db, id).workflow == Maintenance && AssignmentOf(db, id).plan == Some(plan)
  }

  /** Statements that leave rows and the record in hand alone. */
  predicate Aside(act: Act) {
    act.Record? || act.Commit? || act.Ask?
  }

  lemma {:induction false} AsideKeeps(ctx: Ctx, acts: seq<Act>, s: Sys)
    requires forall act :: act in acts ==> Aside(act)
    ensures var after := Exec(ctx, acts, s).sys;
      after.db.assignments == s.db.assignments && after.db.hosts == s.db.hosts && after.locals == s.locals
    decreases |acts|
  {
    if acts != [] {
      assert Aside(acts[0]);
      if acts[0].Record? {
        R.RecordTables(ctx, s, acts[0]);
      }
      if Step(ctx, s, acts[0]).Running? {
        AsideKeeps(ctx, acts[1..], Step(ctx, s, acts[0]).sys);
      }
    }
  }

  lemma Holding(ctx: Ctx, s: Sys, id: AssignmentId, from: WorkflowState, to: WorkflowState)
    requires Exec(ctx, [Require(id, from), SetState(to)], s).Running?
    ensures var after := Exec(ctx, [Require(id, from), SetState(to)], s).sys;
      && AssignmentOf(s.db, id).workflow == from && AssignmentOf(s.db, id).plan == Some(ctx.plan)
      && after.locals.current == id && after.locals.row == AssignmentOf(after.db, id)
      && after.locals.row.workflow == to && after.locals.row.plan == (if to == Available then None else Some(ctx.plan))
      && after.db == s.db.(assignments := s.db.assignments[id := after.locals.row])
  {
    var acts := [Require(id, from), SetState(to)];
    var s1 := Step(ctx, s, acts[0]).sys;
    assert Exec(ctx, acts, s) == Exec(ctx, acts[1..], s1);
    assert acts[1..][0] == SetState(to);
    assert Exec(ctx, acts[1..], s1) == Exec(ctx, acts[1..][1..], Step(ctx, s1, SetState(to)).sys);
  }

  lemma Setting(ctx: Ctx, s: Sys, to: WorkflowState)
    requires Exec(ctx, [SetState(to)], s).Running?
    ensures var after := Exec(ctx, [SetState(to)], s).sys;
      && after.locals.current == s.locals.current && after.locals.row == AssignmentOf(after.db, s.locals.current)
      && after.locals.row.workflow == to && (to != Available ==> after.locals.row.plan == Some(ctx.plan))
      && after.db == s.db.(assignments := s.db.assignments[s.locals.current := after.locals.row])
      && after.calls == s.calls
  {
    assert Exec(ctx, [SetState(to)], s) == Exec(ctx, [SetState(to)][1..], Step(ctx, s, SetState(to)).sys);
  }

  lemma StopOneStops(ctx: Ctx, s: Sys, t: Target, index: nat)
    requires Exec(ctx, StopOne(t, index), s).Running?
    ensures var after := Exec(ctx, StopOne(t, index), s).sys;
      && AssignmentOf(s.db, t.id).workflow == ReadyToStop
      && InMaintenance(after.db, ctx.plan, t.id)
      && (forall id :: id != t.id ==> AssignmentOf(after.db, id) == AssignmentOf(s.db, id))
      && after.db.hosts == s.db.hosts
  {
    var one := StopOne(t, index);
    var head, mid, tail := [Require(t.id, ReadyToStop), SetState(Stopping)], one[2..6], [SetState(Maintenance)];
    assert one == head + mid + tail;
    ExecAppend(ctx, head + mid, tail, s);
    ExecAppend(ctx, head, mid, s);
    Holding(ctx, s, t.id, ReadyToStop, Stopping);
    var s1 := Exec(ctx, head, s).sys;
    AsideKeeps(ctx, mid, s1);
    Setting(ctx, Exec(ctx, mid, s1).sys, Maintenance);
  }

  lemma {:induction false} StopAllStops(ctx: Ctx, s: Sys, targets: seq<Target>, index: nat)
    requires Exec(ctx, StopAll(targets, index), s).Running?
    ensures var after := Exec(ctx, StopAll(targets, index), s).sys;
      && (forall t :: t in targets ==> InMaintenance(after.db, ctx.plan, t.id))
      && (forall id :: InMaintenance(s.db, ctx.plan, id) ==> InMaintenance(after.db, ctx.plan, id))
      && after.db.hosts == s.db.hosts
    decreases |targets|
  {
    if targets != [] {
      var one, rest := StopOne(targets[0], index), StopAll(targets[1..], index + 1);
      ExecAppend(ctx, one, rest, s);
      StopOneStops(ctx, s, targets[0], index);
      StopAllStops(ctx, Exec(ctx, one, s).sys, targets[1..], index + 1);
    }
  }

  lemma {:induction false} StopAllAsks(targets: seq<Target>, index: nat)
    ensures forall t :: t in targets ==> Ask(StopUnit(t.id)) in StopAll(targets, index)
    decreases |targets|
  {
    if targets != [] {
      assert StopOne(targets[0], index)[4] == Ask(StopUnit(targets[0].id));
      StopAllAsks(targets[1..], index + 1);
    }
  }

  lemma {:induction false} InsertedMembers(priority: string -> nat, t: Target, sorted: seq<Target>)
    ensures multiset(Inserted(priority, t, sorted)) == multiset(sorted) + multiset{t}
    decreases |sorted|
  {
    if sorted != [] && !Before(priority, t, sorted[0]) {
      InsertedMembers(priority, t, sorted[1..]);
      assert sorted == [sorted[0]] + sorted[1..];
    }
  }

  /** Sorting reorders and neither drops nor repeats a target. */
  lemma {:induction false} SortedMembers(priority: string -> nat, targets: seq<Target>)
    ensures multiset(Sorted(priority, targets)) == multiset(targets)
    decreases |targets|
  {
    if targets != [] {
      SortedMembers(priority, targets[1..]);
      InsertedMembers(priority, targets[0], Sorted(priority, targets[1..]));
      assert targets == [targets[0]] + targets[1..];
    }
  }

  // The reboot predicates and the invariant that makes them pass.

  /** What each plan is for: a host with all of its workloads, or one workload. */
  datatype World = World(ofHost: PlanId -> bool, manifest: PlanId -> seq<Target>, node: PlanId -> NodeId, target: PlanId -> Target)

  datatype Decisions = Decisions(hostReady: bool, workloadsStopped: bool)

  /** What the reboot orchestrator asks at each of its stages. */
  function Evaluate(db: Db, plan: PlanId, planNode: NodeId, node: NodeId, expected: seq<AssignmentId>): Decisions {
    Decisions(
      planNode == node && HostOf(db, node).plan == Some(plan) && HostOf(db, node).workflow == Maintenance,
      forall i :: 0 <= i < |expected| ==> InMaintenance(db, plan, expected[i]))
  }

  predicate Stopped(db: Db, calls: seq<Call>, plan: PlanId, id: AssignmentId) {
    InMaintenance(db, plan, id) && Remote(plan, StopUnit(id), Confirmed) in calls
  }

  predicate AllStopped(db: Db, calls: seq<Call>, plan: PlanId, targets: seq<Target>) {
    forall t :: t in targets ==> Stopped(db, calls, plan, t.id)
  }

  predicate RowReady(w: World, db: Db, calls: seq<Call>, node: NodeId, row: HostRow) {
    row.plan.Some? ==>
      && w.ofHost(row.plan.value) && w.node(row.plan.value) == node
      && (row.workflow == Maintenance ==> AllStopped(db, calls, row.plan.value, w.manifest(row.plan.value)))
  }

  /** A host belongs to the host plan that targets it, and a host in maintenance has
      every workload of its plan's manifest in maintenance under that same plan,
      with its stop confirmed. */
  ghost predicate HostsReady(w: World, db: Db, calls: seq<Call>) {
    forall n :: n in db.hosts ==> RowReady(w, db, calls, n, db.hosts[n])
  }

  // What one action leaves alone.

  ghost predicate OthersKept(start: Sys, s: Sys, plan: PlanId, node: NodeId) {
    && R.ForeignKept(start.db, s.db, plan)
    && (forall n :: n != node ==> HostOf(s.db, n) == HostOf(start.db, n))
    && (forall n :: n in s.db.hosts && n != node ==> n in start.db.hosts)
    && |start.calls| <= |s.calls| && s.calls[..|start.calls|] == start.calls
  }

  lemma CallsKept(start: Sys, s: Sys, plan: PlanId, node: NodeId)
    requires OthersKept(start, s, plan, node)
    ensures forall call :: call in start.calls ==> call in s.calls
  {
    forall call | call in start.calls ensures call in s.calls {
      assert call in s.calls[..|start.calls|];
    }
  }

  /** Another plan's stopped workloads stay stopped. */
  lemma OthersStayStopped(start: Sys, s: Sys, plan: PlanId, node: NodeId, other: PlanId, targets: seq<Target>)
    requires OthersKept(start, s, plan, node) && other != plan && AllStopped(start.db, start.calls, other, targets)
    ensures AllStopped(s.db, s.calls, other, targets)
  {
    CallsKept(start, s, plan, node);
    forall t | t in targets ensures Stopped(s.db, s.calls, other, t.id) {
      assert Stopped(start.db, start.calls, other, t.id);
      assert t.id in R.ForeignIds(start.db, plan);
    }
  }

  /** The invariant after part of an action, from what became of its own host. */
  lemma ReadyAfter(w: World, start: Sys, s: Sys, plan: PlanId)
    requires w.ofHost(plan) && HostsReady(w, start.db, start.calls) && OthersKept(start, s, plan, w.node(plan))
    requires var row := HostOf(s.db, w.node(plan));
      && (row.plan != Some(plan) ==> row.plan == None || s.db.hosts == start.db.hosts)
      && (row.plan == Some(plan) && row.workflow == Maintenance ==> AllStopped(s.db, s.calls, plan, w.manifest(plan)))
    ensures HostsReady(w, s.db, s.calls)
  {
    forall n | n in s.db.hosts ensures RowReady(w, s.db, s.calls, n, s.db.hosts[n]) {
      var row := s.db.hosts[n];
      if row.plan.Some? && (row.plan != Some(plan) || n != w.node(plan)) {
        assert n in start.db.hosts && start.db.hosts[n] == HostOf(start.db, n) == row;
        assert RowReady(w, start.db, start.calls, n, row);
        if row.workflow == Maintenance {
          OthersStayStopped(start, s, plan, w.node(plan), row.plan.value, w.manifest(row.plan.value));
        }
      }
    }
  }

  lemma StepKeepsOthers(start: Sys, ctx: Ctx, c: R.Checked, s: Sys, act: Act)
    requires R.Proper(ctx) && R.RowsOk(s.db) && R.Apart(start.db, ctx.plan, c, s) && R.CarefulStep(c, act)
    requires OthersKept(start, s, ctx.plan, ctx.node)
    ensures OthersKept(start, Step(ctx, s, act).sys, ctx.plan, ctx.node)
  {
    R.StepKeepsApart(start.db, ctx, c, s, act);
    StepLogs(ctx, s, act);
    StepHosts(ctx, s, act);
    var after := Step(ctx, s, act).sys;
    assert after.calls[..|start.calls|] == after.calls[..|s.calls|][..|start.calls|];
  }

  /** Only the action's own host row moves, and it stays nobody else's. */
  lemma StepHosts(ctx: Ctx, s: Sys, act: Act)
    requires R.Proper(ctx)
    ensures var after := Step(ctx, s, act).sys;
      && (forall n :: n != ctx.node ==> HostOf(after.db, n) == HostOf(s.db, n))
      && (forall n :: n in after.db.hosts && n != ctx.node ==> n in s.db.hosts)
      && HostOf(after.db, ctx.node).plan in {HostOf(s.db, ctx.node).plan, Some(ctx.plan), None}
      && (!act.SetHost? && !act.SetHostWorkflow? ==> after.db.hosts == s.db.hosts)
      && (act.SetHost? || act.SetHostWorkflow? ==> after.db.assignments == s.db.assignments)
  {
    if R.ElsewhereOnly(act) {
      R.OtherTables(ctx, s, act);
    }
  }

  lemma {:induction false} ExecKeepsOthers(start: Sys, ctx: Ctx, c: R.Checked, acts: seq<Act>, s: Sys)
    requires R.Proper(ctx) && R.RowsOk(s.db) && R.Apart(start.db, ctx.plan, c, s) && R.Careful(c, acts)
    requires OthersKept(start, s, ctx.plan, ctx.node)
    requires forall act :: act in acts ==> R.KeepsWorkflowOwned(act)
    ensures OthersKept(start, Exec(ctx, acts, s).sys, ctx.plan, ctx.node) && R.RowsOk(Exec(ctx, acts, s).sys.db)
    decreases |acts|
  {
    if acts != [] {
      assert acts[0] in acts;
      StepKeepsOthers(start, ctx, c, s, acts[0]);
      R.StepKeepsRows(ctx, s, acts[0]);
      if Step(ctx, s, acts[0]).Running? {
        R.StepKeepsApart(start.db, ctx, c, s, acts[0]);
        ExecKeepsOthers(start, ctx, R.Follow(c, acts[0]), acts[1..], Step(ctx, s, acts[0]).sys);
      }
    }
  }

  // The host's own workflow: only the last two statements of a stop make it
  // `maintenance`.

  predicate NoMaintenance(act: Act) {
    act != SetHostWorkflow(Maintenance) && act != SetHost(HostMaintenance)
  }

  /** Under way: the action's own host is its plan's or free, and not in maintenance. */
  predicate UnderWay(db: Db, ctx: Ctx) {
    HostOf(db, ctx.node).plan in {Some(ctx.plan), None} && HostOf(db, ctx.node).workflow != Maintenance
  }

  lemma {:induction false} ExecUnderWay(ctx: Ctx, acts: seq<Act>, s: Sys)
    requires R.Proper(ctx) && UnderWay(s.db, ctx) && forall act :: act in acts ==> NoMaintenance(act)
    ensures UnderWay(Exec(ctx, acts, s).sys.db, ctx)
    decreases |acts|
  {
    if acts != [] {
      assert NoMaintenance(acts[0]);
      StepHosts(ctx, s, acts[0]);
      if Step(ctx, s, acts[0]).Running? {
        ExecUnderWay(ctx, acts[1..], Step(ctx, s, acts[0]).sys);
      }
    }
  }

  // The programs.

  lemma {:induction false} CompleteAllSound(c: R.Checked, targets: seq<Target>)
    ensures R.Sound(c, CompleteAll(targets))
    decreases |targets|
  {
    if targets != [] {
      var one := [Require(targets[0].id, Verifying), SetState(Available), ReleaseTarget(targets[0].id)];
      assert one == [Require(targets[0].id, Verifying)] + one[1..];
      R.RequiredSound(c, targets[0].id, Verifying, one[1..]);
      CompleteAllSound(R.FollowAll(c, one), targets[1..]);
      R.SoundAppend(c, one, CompleteAll(targets[1..]));
    }
  }

  /** Careful with other plans' rows to the very end, the close included. */
  lemma ProgramCareful(action: R.HostAction, targets: seq<Target>)
    ensures R.Careful(R.NOTHING, R.HostProgram(action, targets))
    ensures forall act :: act in R.HostProgram(action, targets) ==> R.KeepsWorkflowOwned(act)
  {
    R.WorkSound(action, targets);
    if action.ReturnAction? {
      var work := HostReturnWork(targets, action.rebooted);
      var c := R.FollowAll(R.NOTHING, work);
      R.CarefulAppend(R.NOTHING, work, [FinalizePlan]);
      assert R.FollowAll(R.NOTHING, work + [FinalizePlan]) == c;
      CompleteAllSound(c, targets);
      R.CarefulAppend(R.NOTHING, work + [FinalizePlan], CompleteAll(targets));
      R.CarefulAppend(R.NOTHING, work + [FinalizePlan] + CompleteAll(targets), [SetHost(HostAvailable)]);
    }
  }

  lemma {:induction false} StopAllNoMaintenance(targets: seq<Target>, index: nat)
    ensures forall act :: act in StopAll(targets, index) ==> NoMaintenance(act)
    decreases |targets|
  {
    if targets != [] {
      StopAllNoMaintenance(targets[1..], index + 1);
    }
  }

  lemma {:induction false} ReturnAllNoMaintenance(targets: seq<Target>, index: nat)
    ensures forall act :: act in ReturnAll(targets, index) ==> NoMaintenance(act)
    decreases |targets|
  {
    if targets != [] {
      ReturnAllNoMaintenance(targets[1..], index + 1);
    }
  }

  lemma {:induction false} EachNoMaintenance(targets: seq<Target>)
    ensures forall act :: act in CollectAll(targets) ==> NoMaintenance(act)
    ensures forall act :: act in PrepareAll(targets) ==> NoMaintenance(act)
    ensures forall act :: act in ClaimAll(targets) ==> NoMaintenance(act)
    ensures forall act :: act in ReadyAll(targets) ==> NoMaintenance(act)
    ensures forall act :: act in CompleteAll(targets) ==> NoMaintenance(act)
    decreases |targets|
  {
    if targets != [] {
      EachNoMaintenance(targets[1..]);
    }
  }

  lemma PrepareNoMaintenance(targets: seq<Target>)
    ensures forall act :: act in HostPrepare(targets) ==> NoMaintenance(act)
  {
    EachNoMaintenance(targets);
    R.GuardsSteady(DataClusters(targets));
  }

  lemma ReturnWorkNoMaintenance(targets: seq<Target>, rebooted: bool)
    ensures forall act :: act in HostReturnWork(targets, rebooted) ==> NoMaintenance(act)
  {
    ReturnAllNoMaintenance(StartOrder(targets), 1);
    R.GuardsSteady(DataClusters(targets));
    ClosingNoMaintenance(rebooted);
    forall act | act in HostReturnWork(targets, rebooted) ensures NoMaintenance(act) {
      assert act in Rediscovery() || act in ReturnAll(StartOrder(targets), 1) || act in UnguardAll(DataClusters(targets))
        || act in VerifyAll() || act in Cleanup(rebooted);
    }
  }

  lemma ClosingNoMaintenance(rebooted: bool)
    ensures forall act :: act in VerifyAll() ==> NoMaintenance(act)
    ensures forall act :: act in Cleanup(rebooted) ==> NoMaintenance(act)
    ensures forall act :: act in Rediscovery() ==> NoMaintenance(act)
  {
  }

  lemma ReturnNoMaintenance(targets: seq<Target>, rebooted: bool)
    ensures forall act :: act in HostReturn(targets, rebooted) ==> NoMaintenance(act)
  {
    ReturnWorkNoMaintenance(targets, rebooted);
    EachNoMaintenance(targets);
  }

  // Each action keeps the invariant at every one of its points.

  predicate Admitted(db: Db, ctx: Ctx, action: R.HostAction) {
    var row := HostOf(db, ctx.node);
    match action
    case PrepareAction => true
    case StopAction => row.plan == Some(ctx.plan) && row.workflow == ReadyToStop
    case RebootAction => row.plan == Some(ctx.plan) && row.workflow == Maintenance
    case ReturnAction(_) => row.plan == Some(ctx.plan) && row.workflow == Maintenance
  }

  /** What the own host looks like inside an action. */
  ghost predicate OwnHost(start: Sys, s: Sys, ctx: Ctx, targets: seq<Target>) {
    || UnderWay(s.db, ctx)
    || (s.db.hosts == start.db.hosts && s.db.assignments == start.db.assignments)
    || (HostOf(s.db, ctx.node).plan == Some(ctx.plan) && AllStopped(s.db, s.calls, ctx.plan, targets))
  }

  lemma FirstStep(ctx: Ctx, acts: seq<Act>, k: nat, s: Sys)
    requires 0 < k <= |acts|
    ensures Exec(ctx, acts[..k], s) == match Step(ctx, s, acts[0])
              case Raised(after) => Raised(after) case Running(after) => Exec(ctx, acts[1..][..k - 1], after)
  {
    assert acts[..k][1..] == acts[1..][..k - 1];
  }

  /** A statement that moves the host at the start: refused, nothing happened;
      else the action is under way. */
  lemma UnderWayAfterFirst(ctx: Ctx, acts: seq<Act>, k: nat, s: Sys, targets: seq<Target>)
    requires R.Proper(ctx) && 0 < k <= |acts|
    requires acts[0].SetHostWorkflow? || (acts[0].SetHost? && acts[0].state == HostPlanning)
    requires acts[0].SetHostWorkflow? ==> HostOf(s.db, ctx.node).plan == Some(ctx.plan) && acts[0].workflow != Maintenance
    requires forall act :: act in acts[1..] ==> NoMaintenance(act)
    ensures OwnHost(s, Exec(ctx, acts[..k], s).sys, ctx, targets)
  {
    FirstStep(ctx, acts, k, s);
    var first := Step(ctx, s, acts[0]);
    if first.Running? {
      ExecUnderWay(ctx, acts[1..][..k - 1], first.sys);
    }
  }

  lemma InPrepare(ctx: Ctx, s: Sys, targets: seq<Target>, k: nat)
    requires R.Proper(ctx) && k <= |HostPrepare(targets)|
    ensures OwnHost(s, Exec(ctx, HostPrepare(targets)[..k], s).sys, ctx, targets)
  {
    var acts := HostPrepare(targets);
    if k > 0 {
      FirstStep(ctx, acts, k, s);
      var s1 := Step(ctx, s, ReadHost).sys;
      if k > 1 {
        PrepareNoMaintenance(targets);
        assert acts[1] == SetHost(HostPlanning);
        UnderWayAfterFirst(ctx, acts[1..], k - 1, s1, targets);
      } else {
        assert acts[1..][..0] == [];
      }
    }
  }

  lemma InReboot(ctx: Ctx, s: Sys, targets: seq<Target>, k: nat)
    requires k <= |HostReboot()|
    ensures OwnHost(s, Exec(ctx, HostReboot()[..k], s).sys, ctx, targets)
  {
    AsideKeeps(ctx, HostReboot()[..k], s);
  }

  lemma InReturn(ctx: Ctx, s: Sys, targets: seq<Target>, rebooted: bool, k: nat)
    requires R.Proper(ctx) && k <= |HostReturn(targets, rebooted)| && HostOf(s.db, ctx.node).plan == Some(ctx.plan)
    ensures OwnHost(s, Exec(ctx, HostReturn(targets, rebooted)[..k], s).sys, ctx, targets)
  {
    if k > 0 {
      ReturnNoMaintenance(targets, rebooted);
      assert HostReturn(targets, rebooted)[0] == SetHostWorkflow(Returning);
      UnderWayAfterFirst(ctx, HostReturn(targets, rebooted), k, s, targets);
    }
  }

  /** The stop loop has finished: every target is stopped, and confirmed so. */
  lemma LoopStops(ctx: Ctx, s: Sys, targets: seq<Target>)
    requires Exec(ctx, StopAll(StopOrder(targets), 1), s).Running?
    ensures var after := Exec(ctx, StopAll(StopOrder(targets), 1), s).sys;
      AllStopped(after.db, after.calls, ctx.plan, targets) && after.db.hosts == s.db.hosts
  {
    var sorted := StopOrder(targets);
    var after := Exec(ctx, StopAll(sorted, 1), s).sys;
    StopAllStops(ctx, s, sorted, 1);
    StopAllAsks(sorted, 1);
    ExecLogs(ctx, StopAll(sorted, 1), s);
    SortedMembers(StopPriority, targets);
    forall t | t in targets ensures Stopped(after.db, after.calls, ctx.plan, t.id) {
      assert t in multiset(sorted);
      assert Ask(StopUnit(t.id)) in StopAll(sorted, 1);
    }
  }

  lemma InStop(ctx: Ctx, s: Sys, targets: seq<Target>, k: nat)
    requires R.Proper(ctx) && k <= |HostStop(targets)| && HostOf(s.db, ctx.node).plan == Some(ctx.plan)
    ensures OwnHost(s, Exec(ctx, HostStop(targets)[..k], s).sys, ctx, targets)
  {
    hide Saga.Step;
    var loop, tail := StopAll(StopOrder(targets), 1), [SetHostWorkflow(Maintenance), SetHost(HostMaintenance)];
    var acts := [SetHostWorkflow(Stopping)] + loop;
    StopAllNoMaintenance(StopOrder(targets), 1);
    if 0 < k <= |acts| {
      assert HostStop(targets)[..k] == acts[..k];
      UnderWayAfterFirst(ctx, acts, k, s, targets);
    } else if k > |acts| {
      assert HostStop(targets)[..k] == acts + tail[..k - |acts|];
      ExecAppend(ctx, acts, tail[..k - |acts|], s);
      assert acts[..|acts|] == acts;
      UnderWayAfterFirst(ctx, acts, |acts|, s, targets);
      if Exec(ctx, acts, s).Running? {
        ExecAppend(ctx, [SetHostWorkflow(Stopping)], loop, s);
        OneStep(ctx, SetHostWorkflow(Stopping), s);
        HostMove(ctx, SetHostWorkflow(Stopping), s);
        LoopStops(ctx, Exec(ctx, [SetHostWorkflow(Stopping)], s).sys, targets);
        StopEnds(ctx, Exec(ctx, acts, s).sys, targets, k - |acts|);
      }
    }
  }

  lemma StopEnds(ctx: Ctx, s: Sys, targets: seq<Target>, k: nat)
    requires R.Proper(ctx) && k <= 2 && AllStopped(s.db, s.calls, ctx.plan, targets) && HostOf(s.db, ctx.node).plan == Some(ctx.plan)
    ensures var after := Exec(ctx, [SetHostWorkflow(Maintenance), SetHost(HostMaintenance)][..k], s).sys;
      HostOf(after.db, ctx.node).plan == Some(ctx.plan) && AllStopped(after.db, after.calls, ctx.plan, targets)
  {
    HostMoves(ctx, [SetHostWorkflow(Maintenance), SetHost(HostMaintenance)][..k], s);
    var after := Exec(ctx, [SetHostWorkflow(Maintenance), SetHost(HostMaintenance)][..k], s).sys;
    forall t | t in targets ensures Stopped(after.db, after.calls, ctx.plan, t.id) {
      assert Stopped(s.db, s.calls, ctx.plan, t.id);
    }
  }

  lemma HostMove(ctx: Ctx, act: Act, s: Sys)
    requires HostOf(s.db, ctx.node).plan == Some(ctx.plan)
    requires act.SetHostWorkflow? || act == SetHost(HostMaintenance)
    ensures var after := Step(ctx, s, act).sys;
      HostOf(after.db, ctx.node).plan == Some(ctx.plan) && after.db.assignments == s.db.assignments && after.calls == s.calls
  {
  }

  lemma {:induction false} HostMoves(ctx: Ctx, acts: seq<Act>, s: Sys)
    requires HostOf(s.db, ctx.node).plan == Some(ctx.plan)
    requires forall act :: act in acts ==> act.SetHostWorkflow? || act == SetHost(HostMaintenance)
    ensures var after := Exec(ctx, acts, s).sys;
      HostOf(after.db, ctx.node).plan == Some(ctx.plan) && after.db.assignments == s.db.assignments && after.calls == s.calls
    decreases |acts|
  {
    if acts != [] {
      HostMove(ctx, acts[0], s);
      if Step(ctx, s, acts[0]).Running? {
        HostMoves(ctx, acts[1..], Step(ctx, s, acts[0]).sys);
      }
    }
  }

  /** At every point of every admitted action. */
  lemma ActionKeepsReady(w: World, ctx: Ctx, s: Sys, action: R.HostAction, k: nat)
    requires R.Proper(ctx) && w.ofHost(ctx.plan) && ctx.node == w.node(ctx.plan) && R.RowsOk(s.db) && HostsReady(w, s.db, s.calls)
    requires Admitted(s.db, ctx, action) && k <= |R.HostProgram(action, w.manifest(ctx.plan))|
    ensures var after := Exec(ctx, R.HostProgram(action, w.manifest(ctx.plan))[..k], s).sys;
      HostsReady(w, after.db, after.calls) && R.RowsOk(after.db)
  {
    var targets := w.manifest(ctx.plan);
    var acts := R.HostProgram(action, targets);
    var after := Exec(ctx, acts[..k], s).sys;
    ProgramCareful(action, targets);
    OthersAtFirst(ctx, s);
    assert acts == match action
                   case PrepareAction => HostPrepare(targets)
                   case StopAction => HostStop(targets)
                   case RebootAction => HostReboot()
                   case ReturnAction(rebooted) => HostReturn(targets, rebooted);
    assert !action.PrepareAction? ==> HostOf(s.db, ctx.node).plan == Some(ctx.plan);
    assert forall act :: act in acts[..k] ==> act in acts;
    hide *;
    assert acts == acts[..k] + acts[k..];
    R.CarefulAppend(R.NOTHING, acts[..k], acts[k..]);
    ExecKeepsOthers(s, ctx, R.NOTHING, acts[..k], s);
    match action {
      case PrepareAction => InPrepare(ctx, s, targets, k);
      case StopAction => InStop(ctx, s, targets, k);
      case RebootAction => InReboot(ctx, s, targets, k);
      case ReturnAction(rebooted) => InReturn(ctx, s, targets, rebooted, k);
    }
    OwnHostReady(w, ctx, s, after);
  }

  lemma OthersAtFirst(ctx: Ctx, s: Sys)
    ensures R.Apart(s.db, ctx.plan, R.NOTHING, s) && OthersKept(s, s, ctx.plan, ctx.node)
  {
  }

  lemma OwnHostReady(w: World, ctx: Ctx, start: Sys, s: Sys)
    requires w.ofHost(ctx.plan) && ctx.node == w.node(ctx.plan) && HostsReady(w, start.db, start.calls)
    requires OthersKept(start, s, ctx.plan, ctx.node) && OwnHost(start, s, ctx, w.manifest(ctx.plan))
    ensures HostsReady(w, s.db, s.calls)
  {
    if s.db.hosts == start.db.hosts && s.db.assignments == start.db.assignments {
      CallsKept(start, s, ctx.plan, ctx.node);
      SameRowsReady(w, start, s);
    } else {
      ReadyAfter(w, start, s, ctx.plan);
    }
  }

  lemma SameRowsReady(w: World, start: Sys, s: Sys)
    requires HostsReady(w, start.db, start.calls) && forall call :: call in start.calls ==> call in s.calls
    requires s.db.hosts == start.db.hosts && s.db.assignments == start.db.assignments
    ensures HostsReady(w, s.db, s.calls)
  {
    forall n | n in s.db.hosts ensures RowReady(w, s.db, s.calls, n, s.db.hosts[n]) {
      var row := s.db.hosts[n];
      assert RowReady(w, start.db, start.calls, n, row);
      if row.plan.Some? && row.workflow == Maintenance {
        forall t | t in w.manifest(row.plan.value) ensures Stopped(s.db, s.calls, row.plan.value, t.id) {
          assert Stopped(start.db, start.calls, row.plan.value, t.id);
        }
      }
    }
  }

  // Whole runs.

  /** What survives a break: the tables from before the action, or as some
      earlier point of it had them. */
  lemma {:induction false} DurableIsEarlier(ctx: Ctx, acts: seq<Act>, k: nat, s: Sys) returns (j: nat)
    requires k <= |acts|
    ensures j <= k && Exec(ctx, acts[..k], s).sys.durable in {s.durable, Exec(ctx, acts[..j], s).sys.db}
    ensures forall call :: call in Exec(ctx, acts[..j], s).sys.calls ==> call in Exec(ctx, acts[..k], s).sys.calls
    decreases k
  {
    if k == 0 {
      j := 0;
    } else {
      var before := Exec(ctx, acts[..k - 1], s);
      assert acts[..k] == acts[..k - 1] + [acts[k - 1]];
      ExecAppend(ctx, acts[..k - 1], [acts[k - 1]], s);
      j := DurableIsEarlier(ctx, acts, k - 1, s);
      if before.Running? {
        OneStep(ctx, acts[k - 1], before.sys);
        if acts[k - 1].Commit? {
          j := k;
        }
      }
    }
  }

  lemma StepDurable(ctx: Ctx, act: Act, s: Sys)
    ensures var after := Step(ctx, s, act).sys;
      after.durable == (if act.Commit? then s.db else s.durable) && (act.Commit? ==> after.db == s.db)
  {
  }

  lemma OneStep(ctx: Ctx, act: Act, s: Sys)
    ensures Exec(ctx, [act], s) == Step(ctx, s, act)
    ensures var after := Step(ctx, s, act).sys;
      && after.durable == (if act.Commit? then s.db else s.durable) && (act.Commit? ==> after.db == s.db)
      && forall call :: call in s.calls ==> call in after.calls
  {
    assert [act][1..] == [];
    StepLogs(ctx, s, act);
    StepDurable(ctx, act, s);
    forall call | call in s.calls ensures call in Step(ctx, s, act).sys.calls {
      assert call in Step(ctx, s, act).sys.calls[..|s.calls|];
    }
  }

  // Container actions. They move the row of their own workload only, and cannot
  // move it out of maintenance under another plan.

  function ContainerProgram(action: R.ContainerAction, t: Target): seq<Act> {
    if action.ReturnContainer? then ContainerReturn(t) else R.ContainerWork(action, t)
  }

  predicate ContainerAdmitted(db: Db, ctx: Ctx, action: R.ContainerAction, t: Target) {
    var row := AssignmentOf(db, t.id);
    match action
    case PrepareContainer => true
    case StopContainer => row.plan == Some(ctx.plan) && row.workflow == ReadyToStop
    case ReturnContainer => row.plan == Some(ctx.plan) && row.workflow == Maintenance
  }

  /** Statements of an action that has this assignment in hand. */
  predicate OnOneRow(act: Act, id: AssignmentId) {
    && !act.PrepareCollected? && !act.Require? && !act.SetHost? && !act.SetHostWorkflow? && (act.Load? ==> act.id == id)
    && R.MarksNothing(act)
  }

  lemma ContainerOnOneRow(action: R.ContainerAction, t: Target)
    ensures forall act :: act in ContainerProgram(action, t) ==> OnOneRow(act, t.id)
  {
    R.GuardsSteady([t.cluster]);
  }

  lemma StepOnOneRow(ctx: Ctx, s: Sys, act: Act, id: AssignmentId)
    requires R.Proper(ctx) && R.RowsOk(s.db) && s.locals.current == id && OnOneRow(act, id)
    ensures var after := Step(ctx, s, act).sys;
      && after.locals.current == id && after.db.hosts == s.db.hosts && R.RowsOk(after.db)
      && forall a :: a != id ==> AssignmentOf(after.db, a) == AssignmentOf(s.db, a)
  {
    R.StepKeepsRows(ctx, s, act);
    if R.ElsewhereOnly(act) {
      R.OtherTables(ctx, s, act);
      LocalsKept(ctx, s, act);
    }
  }

  lemma LocalsKept(ctx: Ctx, s: Sys, act: Act)
    requires R.ElsewhereOnly(act)
    ensures Step(ctx, s, act).sys.locals == s.locals
  {
    hide RecordStep, GuardOutcome;
  }

  lemma {:induction false} ExecOnOneRow(ctx: Ctx, acts: seq<Act>, s: Sys, id: AssignmentId)
    requires R.Proper(ctx) && R.RowsOk(s.db) && s.locals.current == id && forall act :: act in acts ==> OnOneRow(act, id)
    ensures var after := Exec(ctx, acts, s).sys;
      && after.db.hosts == s.db.hosts && R.RowsOk(after.db)
      && forall a :: a != id ==> AssignmentOf(after.db, a) == AssignmentOf(s.db, a)
    decreases |acts|
  {
    hide Saga.Step, R.RowsOk, OnOneRow;
    if acts != [] {
      assert acts[0] in acts;
      StepOnOneRow(ctx, s, acts[0], id);
      if Step(ctx, s, acts[0]).Running? {
        ExecOnOneRow(ctx, acts[1..], Step(ctx, s, acts[0]).sys, id);
      }
    }
  }

  /** A preparation goes no further than its second statement on a workload that
      is in maintenance under any plan. */
  lemma PrepareLeavesMaintenance(ctx: Ctx, s: Sys, t: Target, k: nat)
    requires AssignmentOf(s.db, t.id).workflow == Maintenance && k <= |ContainerPrepare(t)|
    ensures Exec(ctx, ContainerPrepare(t)[..k], s).sys.db == s.db
  {
    var acts := ContainerPrepare(t);
    var loaded := Step(ctx, s, Load(t.id)).sys;
    assert acts[0] == Load(t.id) && acts[1] == SetState(Preparing);
    assert Step(ctx, loaded, SetState(Preparing)) == Raised(loaded);
    if k > 0 {
      FirstStep(ctx, acts, k, s);
      if k > 1 {
        FirstStep(ctx, acts[1..], k - 1, loaded);
      } else {
        assert acts[1..][..0] == [];
      }
    }
  }

  lemma ContainerKeepsStopped(ctx: Ctx, s: Sys, action: R.ContainerAction, t: Target, k: nat, other: PlanId)
    requires R.Proper(ctx) && R.RowsOk(s.db) && s.locals.current == t.id && ContainerAdmitted(s.db, ctx, action, t)
    requires other != ctx.plan && k <= |ContainerProgram(action, t)|
    ensures forall id :: InMaintenance(s.db, other, id) ==> InMaintenance(Exec(ctx, ContainerProgram(action, t)[..k], s).sys.db, other, id)
  {
    ContainerOnOneRow(action, t);
    ExecOnOneRow(ctx, ContainerProgram(action, t)[..k], s, t.id);
    if InMaintenance(s.db, other, t.id) {
      PrepareLeavesMaintenance(ctx, s, t, if action.PrepareContainer? then k else 0);
    }
  }

  /** At every point of every admitted container action. */
  lemma ContainerKeepsReady(w: World, ctx: Ctx, s: Sys, action: R.ContainerAction, k: nat)
    requires R.Proper(ctx) && !w.ofHost(ctx.plan) && R.RowsOk(s.db) && HostsReady(w, s.db, s.calls)
    requires var t := w.target(ctx.plan);
      s.locals.current == t.id && ContainerAdmitted(s.db, ctx, action, t) && k <= |ContainerProgram(action, t)|
    ensures var after := Exec(ctx, ContainerProgram(action, w.target(ctx.plan))[..k], s).sys;
      HostsReady(w, after.db, after.calls) && R.RowsOk(after.db) && after.db.hosts == s.db.hosts
  {
    var t := w.target(ctx.plan);
    var acts := ContainerProgram(action, t)[..k];
    var after := Exec(ctx, acts, s).sys;
    ContainerOnOneRow(action, t);
    ExecOnOneRow(ctx, acts, s, t.id);
    ExecLogs(ctx, acts, s);
    forall n | n in after.db.hosts ensures RowReady(w, after.db, after.calls, n, after.db.hosts[n]) {
      var row := after.db.hosts[n];
      assert RowReady(w, s.db, s.calls, n, row);
      if row.plan.Some? && row.workflow == Maintenance {
        ContainerKeepsStopped(ctx, s, action, t, k, row.plan.value);
        forall u | u in w.manifest(row.plan.value) ensures Stopped(after.db, after.calls, row.plan.value, u.id) {
          assert Stopped(s.db, s.calls, row.plan.value, u.id);
          assert Remote(row.plan.value, StopUnit(u.id), Confirmed) in after.calls[..|s.calls|];
        }
      }
    }
  }

  // Reconciliation after a restart or an expiry: what the plan owns goes to
  // recovery, in its own transaction.

  function Reconciled(w: World, db: Db, plan: PlanId): Db {
    if w.ofHost(plan) then R.RecoverAssignments(R.RecoverHost(db, plan, w.node(plan)), plan, w.manifest(plan))
    else R.RecoverAssignments(db, plan, [w.target(plan)])
  }

  /** A host in recovery has its workflow there too. */
  predicate WorkflowFollows(db: Db) {
    forall n :: n in db.hosts && db.hosts[n].state == HostRecovery ==> db.hosts[n].workflow == RecoveryRequired
  }

  lemma HostOnly(db: Db, plan: PlanId, node: NodeId)
    requires R.RowsOk(db) && WorkflowFollows(db)
    ensures var after := R.RecoverHost(db, plan, node);
      && (forall n :: n in after.hosts && n != node ==> n in db.hosts && db.hosts[n] == after.hosts[n])
      && WorkflowFollows(after) && (HostOf(after, node).plan == Some(plan) ==> HostOf(after, node).workflow == RecoveryRequired)
      && HostOf(after, node).plan == HostOf(db, node).plan
      && (HostOf(db, node).plan != Some(plan) ==> after == db)
  {
    R.HostRecovers(db, plan, node);
  }

  lemma ReconciledKeeps(w: World, db: Db, plan: PlanId, calls: seq<Call>)
    requires R.RowsOk(db) && HostsReady(w, db, calls) && WorkflowFollows(db)
    ensures var after := Reconciled(w, db, plan);
      R.RowsOk(after) && HostsReady(w, after, calls) && WorkflowFollows(after)
  {
    var first := if w.ofHost(plan) then R.RecoverHost(db, plan, w.node(plan)) else db;
    var targets := if w.ofHost(plan) then w.manifest(plan) else [w.target(plan)];
    R.HostRecovers(db, plan, w.node(plan));
    HostOnly(db, plan, w.node(plan));
    R.AssignmentsRecover(first, plan, targets);
    var after := Reconciled(w, db, plan);
    forall n | n in after.hosts ensures RowReady(w, after, calls, n, after.hosts[n]) {
      var row := after.hosts[n];
      if row.plan.Some? && row.plan != Some(plan) {
        assert n in db.hosts && db.hosts[n] == row && RowReady(w, db, calls, n, row);
        if row.workflow == Maintenance {
          forall u | u in w.manifest(row.plan.value) ensures Stopped(after, calls, row.plan.value, u.id) {
            assert Stopped(db, calls, row.plan.value, u.id);
          }
        }
      }
    }
  }
  // Runs.

  /** An action of either service, opened by the coordinator in the same
      transaction, broken off at `cut` or committed whole; a reconciliation; or
      work elsewhere that leaves host and assignment rows alone, and the claims on
      owned workloads too: a claim is released by the run that holds it. */
  datatype Event =
    | Acts(ctx: Ctx, action: R.HostAction, opening: Db, cut: nat)
    | ContainerActs(ctx: Ctx, container: R.ContainerAction, opening: Db, cut: nat)
    | Reconciles(plan: PlanId)
    | Elsewhere(db: Db)

  predicate Claimed(db: Db, id: AssignmentId) {
    id in db.workloads && db.workloads[id].operation.Some?
  }

  ghost predicate Possible(w: World, s: Sys, e: Event) {
    match e
    case Acts(ctx, action, opening, cut) =>
      && R.Proper(ctx) && w.ofHost(ctx.plan) && ctx.node == w.node(ctx.plan)
      && cut <= |R.HostProgram(action, w.manifest(ctx.plan))| && SameRows(s.db, opening)
    case ContainerActs(ctx, action, opening, cut) =>
      && R.Proper(ctx) && !w.ofHost(ctx.plan) && cut <= |ContainerProgram(action, w.target(ctx.plan))| && SameRows(s.db, opening)
    case Reconciles(plan) => true
    case Elsewhere(db) =>
      && db.hosts == s.db.hosts && db.assignments == s.db.assignments
      && forall id :: AssignmentOf(s.db, id).plan.Some? && Claimed(s.db, id) ==> Claimed(db, id)
  }

  /** Opening an action writes plans, runs and locks. */
  predicate SameRows(db: Db, opening: Db) {
    opening.hosts == db.hosts && opening.assignments == db.assignments && opening.workloads == db.workloads
  }

  /** Where an opened action starts, and what its connection leaves. */
  function Opened(s: Sys, e: Event, w: World): Sys
    requires e.Acts? || e.ContainerActs?
  {
    if e.Acts? then s.(db := e.opening, locals := Fresh(HostOf(s.db, e.ctx.node)))
    else var id := w.target(e.ctx.plan).id; s.(db := e.opening, locals := FreshFor(id, AssignmentOf(s.db, id)))
  }

  function EventProgram(w: World, e: Event): seq<Act>
    requires e.Acts? || e.ContainerActs?
  {
    if e.Acts? then R.HostProgram(e.action, w.manifest(e.ctx.plan)) else ContainerProgram(e.container, w.target(e.ctx.plan))
  }

  predicate Admits(w: World, db: Db, e: Event)
    requires e.Acts? || e.ContainerActs?
  {
    if e.Acts? then Admitted(db, e.ctx, e.action) else ContainerAdmitted(db, e.ctx, e.container, w.target(e.ctx.plan))
  }

  /** An action that is not admitted does nothing. */
  ghost function After(w: World, s: Sys, e: Event): Sys
    requires Possible(w, s, e)
  {
    match e
    case Reconciles(plan) => s.(db := Reconciled(w, s.db, plan), durable := Reconciled(w, s.db, plan))
    case Elsewhere(db) => s.(db := db, durable := db)
    case _ =>
      if !Admits(w, s.db, e) then s
      else
        var acts := EventProgram(w, e);
        var end := Exec(e.ctx, acts[..e.cut], Opened(s, e, w));
        Exited(if e.cut == |acts| then end else Raised(end.sys))
  }

  ghost predicate Feasible(w: World, s: Sys, events: seq<Event>)
    decreases |events|
  {
    events == [] || (Possible(w, s, events[0]) && Feasible(w, After(w, s, events[0]), events[1..]))
  }

  ghost function Run(w: World, s: Sys, events: seq<Event>): Sys
    requires Feasible(w, s, events)
    decreases |events|
  {
    if events == [] then s else Run(w, After(w, s, events[0]), events[1..])
  }

  ghost predicate RowsReady(w: World, db: Db, calls: seq<Call>) {
    R.RowsOk(db) && HostsReady(w, db, calls) && WorkflowFollows(db)
  }

  ghost predicate Inv(w: World, s: Sys) {
    s.db == s.durable && RowsReady(w, s.db, s.calls)
  }

  lemma {:induction false} HostProgramMarksNothing(action: R.HostAction, targets: seq<Target>)
    ensures forall act :: act in R.HostProgram(action, targets) ==> R.MarksNothing(act)
  {
    R.WorkSound(action, targets);
    CompleteMarksNothing(targets);
    forall act | act in R.HostProgram(action, targets) ensures R.MarksNothing(act) {
      assert act in R.Work(action, targets) ==> R.BeforeClose(act);
    }
  }

  lemma {:induction false} CompleteMarksNothing(targets: seq<Target>)
    ensures forall act :: act in CompleteAll(targets) ==> R.MarksNothing(act)
    decreases |targets|
  {
    if targets != [] {
      CompleteMarksNothing(targets[1..]);
    }
  }

  lemma HostFollows(ctx: Ctx, s: Sys, action: R.HostAction, targets: seq<Target>, k: nat)
    requires R.Proper(ctx) && R.RowsOk(s.db) && WorkflowFollows(s.db) && Admitted(s.db, ctx, action) && k <= |R.HostProgram(action, targets)|
    ensures WorkflowFollows(Exec(ctx, R.HostProgram(action, targets)[..k], s).sys.db)
  {
    var acts := R.HostProgram(action, targets);
    var after := Exec(ctx, acts[..k], s).sys;
    ProgramCareful(action, targets);
    HostProgramMarksNothing(action, targets);
    assert acts == acts[..k] + acts[k..];
    R.CarefulAppend(R.NOTHING, acts[..k], acts[k..]);
    ExecKeepsOthers(s, ctx, R.NOTHING, acts[..k], s);
    if action.PrepareAction? {
      PrepareUnmarks(ctx, s, targets, k);
    } else {
      R.ExecMarksNothing(ctx, acts[..k], s);
      assert !R.HostMarked(s.db, ctx.node);
    }
    FollowsStill(s, after, ctx);
  }

  lemma FollowsStill(s: Sys, after: Sys, ctx: Ctx)
    requires WorkflowFollows(s.db) && OthersKept(s, after, ctx.plan, ctx.node)
    requires after.db.hosts == s.db.hosts || !R.HostMarked(after.db, ctx.node)
    ensures WorkflowFollows(after.db)
  {
    if after.db.hosts != s.db.hosts {
      forall n | n in after.db.hosts && after.db.hosts[n].state == HostRecovery ensures after.db.hosts[n].workflow == RecoveryRequired {
        assert n != ctx.node && HostOf(after.db, n) == HostOf(s.db, n);
      }
    }
  }

  /** The first thing a preparation does to the host takes it out of recovery. */
  lemma PrepareUnmarks(ctx: Ctx, s: Sys, targets: seq<Target>, k: nat)
    requires R.Proper(ctx) && k <= |HostPrepare(targets)|
    ensures var after := Exec(ctx, HostPrepare(targets)[..k], s).sys;
      after.db.hosts == s.db.hosts || !R.HostMarked(after.db, ctx.node)
  {
    var acts := HostPrepare(targets);
    var s1 := Step(ctx, s, ReadHost).sys;
    assert acts[0] == ReadHost && acts[1] == SetHost(HostPlanning) && Step(ctx, s, ReadHost).Running? && s1.db == s.db;
    HostProgramMarksNothing(R.PrepareAction, targets);
    hide Saga.HostPrepare, Saga.Step, R.HostMarked, R.MarksNothing;
    if k > 0 {
      FirstStep(ctx, acts, k, s);
      if k > 1 {
        FirstStep(ctx, acts[1..], k - 1, s1);
        PlanningUnmarks(ctx, s1);
        RestUnmarks(ctx, Step(ctx, s1, SetHost(HostPlanning)).sys, acts, k);
      } else {
        assert acts[1..][..0] == [];
      }
    }
  }

  lemma RestUnmarks(ctx: Ctx, s: Sys, acts: seq<Act>, k: nat)
    requires R.Proper(ctx) && 2 <= k <= |acts| && forall act :: act in acts ==> R.MarksNothing(act)
    ensures R.HostMarked(Exec(ctx, acts[1..][1..][..k - 2], s).sys.db, ctx.node) ==> R.HostMarked(s.db, ctx.node)
  {
    forall act | act in acts[1..][1..][..k - 2] ensures R.MarksNothing(act) {
      assert act in acts;
    }
    R.ExecMarksNothing(ctx, acts[1..][1..][..k - 2], s);
  }

  lemma PlanningUnmarks(ctx: Ctx, s: Sys)
    ensures var o := Step(ctx, s, SetHost(HostPlanning)); if o.Running? then !R.HostMarked(o.sys.db, ctx.node) else o.sys.db == s.db
  {
  }

  lemma PointReady(w: World, s: Sys, e: Event, k: nat)
    requires (e.Acts? || e.ContainerActs?) && Possible(w, s, e) && RowsReady(w, s.db, s.calls) && Admits(w, s.db, e)
    requires k <= |EventProgram(w, e)|
    ensures var after := Exec(e.ctx, EventProgram(w, e)[..k], Opened(s, e, w)).sys; RowsReady(w, after.db, after.calls)
  {
    var start := Opened(s, e, w);
    SameRowsReady(w, s, start);
    if e.Acts? {
      ActionKeepsReady(w, e.ctx, start, e.action, k);
      HostFollows(e.ctx, start, e.action, w.manifest(e.ctx.plan), k);
    } else {
      ContainerKeepsReady(w, e.ctx, start, e.container, k);
    }
  }

  /** Both what an action leaves in the open transaction and what it leaves
      durable keep the invariant, wherever it breaks off. */
  lemma BrokenKeeps(w: World, s: Sys, e: Event)
    requires (e.Acts? || e.ContainerActs?) && Possible(w, s, e) && Inv(w, s) && Admits(w, s.db, e)
    ensures var after := Exec(e.ctx, EventProgram(w, e)[..e.cut], Opened(s, e, w)).sys;
      RowsReady(w, after.db, after.calls) && RowsReady(w, after.durable, after.calls)
  {
    var acts, start := EventProgram(w, e), Opened(s, e, w);
    var j := DurableIsEarlier(e.ctx, acts, e.cut, start);
    PointReady(w, s, e, e.cut);
    PointReady(w, s, e, j);
    var earlier, after := Exec(e.ctx, acts[..j], start).sys, Exec(e.ctx, acts[..e.cut], start).sys;
    if after.durable == earlier.db {
      SameRowsReady(w, earlier, after.(db := earlier.db));
    } else {
      ExecLogs(e.ctx, acts[..e.cut], start);
      forall call | call in s.calls ensures call in after.calls {
        assert call in after.calls[..|start.calls|];
      }
      SameRowsReady(w, s, after.(db := s.durable));
    }
  }

  lemma AfterKeeps(w: World, s: Sys, e: Event)
    requires Inv(w, s) && Possible(w, s, e)
    ensures Inv(w, After(w, s, e))
  {
    match e
    case Reconciles(plan) => ReconciledKeeps(w, s.db, plan, s.calls);
    case Elsewhere(db) => SameRowsReady(w, s, After(w, s, e));
    case _ => if Admits(w, s.db, e) { BrokenKeeps(w, s, e); }
  }

  lemma {:induction false} RunKeeps(w: World, s: Sys, events: seq<Event>)
    requires Inv(w, s) && Feasible(w, s, events)
    ensures Inv(w, Run(w, s, events))
    decreases |events|
  {
    if events != [] {
      AfterKeeps(w, s, events[0]);
      RunKeeps(w, After(w, s, events[0]), events[1..]);
    }
  }

  function Ids(targets: seq<Target>): (ids: seq<AssignmentId>)
    ensures |ids| == |targets| && forall i :: 0 <= i < |ids| ==> ids[i] == targets[i].id
  {
    seq(|targets|, i requires 0 <= i < |targets| => targets[i].id)
  }

  /** Main result on reboots. Start with no host in maintenance and let any plans'
      host and container actions run, each broken off anywhere, with
      reconciliations and other work in between. Then, whenever a reboot is
      under way, at each of its points both reboot predicates pass, on the open
      transaction and on what is durable, and every unit of the manifest has
      been stopped with confirmation. */
  lemma RebootPredicatesPass(w: World, s: Sys, events: seq<Event>, ctx: Ctx, k: nat, start: Sys, now: Sys)
    requires s.db == s.durable && R.RowsOk(s.db) && (forall n :: n in s.db.hosts ==> s.db.hosts[n].plan == None)
    requires Feasible(w, s, events) && R.Proper(ctx) && w.ofHost(ctx.plan) && ctx.node == w.node(ctx.plan) && k <= |HostReboot()|
    requires start == Run(w, s, events) && Admitted(start.db, ctx, R.RebootAction)
    requires now == Exec(ctx, HostReboot()[..k], start).sys
    ensures Evaluate(now.db, ctx.plan, w.node(ctx.plan), ctx.node, Ids(w.manifest(ctx.plan))) == Decisions(true, true)
    ensures Evaluate(now.durable, ctx.plan, w.node(ctx.plan), ctx.node, Ids(w.manifest(ctx.plan))) == Decisions(true, true)
    ensures forall t :: t in w.manifest(ctx.plan) ==> Remote(ctx.plan, StopUnit(t.id), Confirmed) in now.calls
  {
    hide Saga.Step, Saga.Exec;
    RunKeeps(w, s, events);
    PredicatesPass(w, start, ctx);
    AsideKeeps(ctx, HostReboot()[..k], start);
    var j := DurableIsEarlier(ctx, HostReboot(), k, start);
    AsideKeeps(ctx, HostReboot()[..j], start);
    ExecLogs(ctx, HostReboot()[..k], start);
    forall t | t in w.manifest(ctx.plan) ensures Remote(ctx.plan, StopUnit(t.id), Confirmed) in now.calls {
      assert Stopped(start.db, start.calls, ctx.plan, t.id);
      assert Remote(ctx.plan, StopUnit(t.id), Confirmed) in now.calls[..|start.calls|];
    }
  }

  lemma PredicatesPass(w: World, s: Sys, ctx: Ctx)
    requires HostsReady(w, s.db, s.calls) && ctx.node == w.node(ctx.plan) && Admitted(s.db, ctx, R.RebootAction)
    ensures Evaluate(s.db, ctx.plan, w.node(ctx.plan), ctx.node, Ids(w.manifest(ctx.plan))) == Decisions(true, true)
    ensures AllStopped(s.db, s.calls, ctx.plan, w.manifest(ctx.plan))
  {
    assert ctx.node in s.db.hosts;
    assert RowReady(w, s.db, s.calls, ctx.node, s.db.hosts[ctx.node]);
    var targets := w.manifest(ctx.plan);
    forall i | 0 <= i < |targets| ensures InMaintenance(s.db, ctx.plan, Ids(targets)[i]) {
      assert targets[i] in targets;
      assert Stopped(s.db, s.calls, ctx.plan, targets[i].id);
    }
  }
}
