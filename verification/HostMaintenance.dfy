/** The host maintenance service: prepare, stop, reboot and return one host. */
module HostMaintenance {
  import opened Wrappers
  import opened Lifecycle
  import opened Store
  import opened Saga
  import opened SagaConnection
  import E = Execution
  import R = SagaRecovery
  import T = SagaRoundTrip

  // Places in the loops' programs.

  lemma {:induction false} EachAt(targets: seq<Target>, i: nat)
    requires i <= |targets|
    ensures |CollectAll(targets)| == |targets|
    ensures |PrepareAll(targets)| == |targets|
    ensures |ClaimAll(targets)| == |targets|
    ensures i < |targets| ==> CollectAll(targets)[i] == Collect(targets[i].id)
    ensures i < |targets| ==> PrepareAll(targets)[i] == PrepareCollected(targets[i].id)
    ensures i < |targets| ==> ClaimAll(targets)[i] == ClaimTarget(targets[i].id, targets[i].revision)
    decreases |targets|
  {
    if targets != [] {
      EachAt(targets[1..], if i > 0 then i - 1 else 0);
    }
  }

  lemma {:induction false} ReadyAt(targets: seq<Target>, i: nat)
    requires i <= |targets|
    ensures |ReadyAll(targets)| == 2 * |targets|
    ensures i < |targets| ==> ReadyAll(targets)[2 * i] == Load(targets[i].id) && ReadyAll(targets)[2 * i + 1] == SetState(ReadyToStop)
    decreases |targets|
  {
    if targets != [] {
      ReadyAt(targets[1..], if i > 0 then i - 1 else 0);
      if 0 < i < |targets| {
        assert ReadyAll(targets)[2 * i] == ReadyAll(targets[1..])[2 * (i - 1)];
        assert ReadyAll(targets)[2 * i + 1] == ReadyAll(targets[1..])[2 * (i - 1) + 1];
      }
    }
  }

  lemma {:induction false} CompleteAt(targets: seq<Target>, i: nat)
    requires i <= |targets|
    ensures |CompleteAll(targets)| == 3 * |targets|
    ensures i < |targets| ==> CompleteAll(targets)[3 * i] == Require(targets[i].id, Verifying)
    ensures i < |targets| ==> CompleteAll(targets)[3 * i + 1] == SetState(Available)
    ensures i < |targets| ==> CompleteAll(targets)[3 * i + 2] == ReleaseTarget(targets[i].id)
    decreases |targets|
  {
    if targets != [] {
      CompleteAt(targets[1..], if i > 0 then i - 1 else 0);
    }
  }

  lemma {:induction false} GuardAt(clusters: seq<ClusterId>, i: nat)
    requires i <= |clusters|
    ensures |GuardAll(clusters)| == 4 * |clusters|
    ensures i < |clusters| ==> GuardAll(clusters)[4 * i] == Commit && GuardAll(clusters)[4 * i + 1] == Guard(GuardCapture, clusters[i])
    ensures i < |clusters| ==> GuardAll(clusters)[4 * i + 2] == Commit && GuardAll(clusters)[4 * i + 3] == Guard(GuardActivate, clusters[i])
    decreases |clusters|
  {
    if clusters != [] {
      GuardAt(clusters[1..], if i > 0 then i - 1 else 0);
    }
  }

  lemma {:induction false} UnguardAt(clusters: seq<ClusterId>, i: nat)
    requires i <= |clusters|
    ensures |UnguardAll(clusters)| == 2 * |clusters|
    ensures i < |clusters| ==> UnguardAll(clusters)[2 * i] == Commit && UnguardAll(clusters)[2 * i + 1] == Guard(GuardRestore, clusters[i])
    decreases |clusters|
  {
    if clusters != [] {
      UnguardAt(clusters[1..], if i > 0 then i - 1 else 0);
    }
  }

  lemma PreparePlaces(targets: seq<Target>)
    ensures var acts, a, g := HostPrepare(targets), Saga.PrepareAssignments(targets), GuardAll(DataClusters(targets));
      && |acts| == 4 + |a| + |g| && acts[0] == ReadHost && acts[1] == SetHost(HostPlanning)
      && acts[2..2 + |a|] == a && acts[2 + |a|] == HostRecord(Prepare, None, 0, EffectVerified)
      && acts[3 + |a|..3 + |a| + |g|] == g && acts[3 + |a| + |g|] == SetHostWorkflow(ReadyToStop)
  {
  }

  lemma StopPlaces(targets: seq<Target>)
    ensures var acts, loop := HostStop(targets), StopAll(StopOrder(targets), 1);
      && |acts| == 3 + |loop| && acts[0] == SetHostWorkflow(Stopping) && acts[1..1 + |loop|] == loop
      && acts[1 + |loop|] == SetHostWorkflow(Maintenance) && acts[2 + |loop|] == SetHost(HostMaintenance)
  {
  }

  /** A target's return in two halves: it is started, then checked. */
  function StartOne(t: Target, index: nat): seq<Act> {
    [Require(t.id, Maintenance), SetState(Returning), HostRecord(Return, Some(t.id), index, MayHaveStarted),
     Commit, Ask(StartUnit(t.id)), HostRecord(ReturnComplete, Some(t.id), index, EffectVerified), SetState(Verifying)]
  }

  function CheckOne(t: Target, index: nat): seq<Act> {
    [Commit, Ask(UnitReady(t.id)), Commit, Ask(ReconcileCompanions(t.id)), HostRecord(Verification, Some(t.id), index, EffectVerified)]
  }

  lemma ReturnOneHalves(t: Target, index: nat)
    ensures ReturnOne(t, index) == StartOne(t, index) + CheckOne(t, index)
  {
  }

  /** A host's return in two halves: its workloads, then the host as a whole. */
  function ReturnWorkloads(targets: seq<Target>): seq<Act> {
    Rediscovery() + ReturnAll(StartOrder(targets), 1) + UnguardAll(DataClusters(targets))
  }

  function CheckHost(rebooted: bool): seq<Act> {
    VerifyAll() + Cleanup(rebooted)
  }

  lemma ReturnWorkHalves(targets: seq<Target>, rebooted: bool)
    ensures HostReturnWork(targets, rebooted) == ReturnWorkloads(targets) + CheckHost(rebooted)
  {
  }

  lemma ReturnWhole(targets: seq<Target>, rebooted: bool)
    ensures var acts, work, end := HostReturn(targets, rebooted), HostReturnWork(targets, rebooted), CompleteAll(targets);
      && |acts| == |work| + 2 + |end| && acts[..|work|] == work && acts[|work|] == FinalizePlan
      && acts[|work| + 1..|work| + 1 + |end|] == end && acts[|work| + 1 + |end|] == SetHost(HostAvailable)
  {
  }

  class HostMaintenanceService {
    const workflow: Workflow
    const connection := workflow.connection
    const execution: E.MaintenanceExecutionService

    constructor (workflow: Workflow, execution: E.MaintenanceExecutionService)
      requires execution.repository == workflow.connection.repository
      ensures this.workflow == workflow && this.execution == execution
    {
      this.workflow := workflow;
      this.execution := execution;
    }

    // The preparation of the assignments, loop by loop.

    method CollectStates(ctx: Ctx, targets: seq<Target>, ghost l: Locals)
      returns (ok: bool, states: seq<AssignmentRow>, ghost after: Locals)
      ensures Exec(ctx, CollectAll(targets), connection.View(l)) == Ended(ok, connection.View(after))
      ensures ok ==> |states| == |targets|
      ensures ok ==> forall i :: 0 <= i < |targets| ==> targets[i].id in after.collected && after.collected[targets[i].id] == states[i]
      ensures ok ==> after.host == l.host
    {
      hide Saga.Step, Saga.Exec, At;
      ghost var acts, start := CollectAll(targets), connection.View(l);
      EachAt(targets, 0);
      AtStart(ctx, acts, start);
      after, ok, states := l, true, [];
      for i := 0 to |targets|
        invariant ok && |states| == i && |acts| == |targets| && At(ctx, acts, i, start, connection.View(after))
        invariant forall j :: 0 <= j < i ==> states[j] == AssignmentOf(connection.repository.db, targets[j].id)
        invariant forall j :: 0 <= j < i ==> targets[j].id in after.collected && after.collected[targets[j].id] == states[j]
        invariant after.host == l.host
      {
        EachAt(targets, i);
        var row;
        ok, row, after := workflow.GetAvailableAssignment(ctx, acts, i, start, after, targets[i].id);
        if !ok { return; }
        states := states + [row];
      }
      AtEnd(ctx, acts, start, connection.View(after));
    }

    method StopTarget(ctx: Ctx, t: Target, index: nat, ghost l: Locals) returns (ok: bool, ghost after: Locals)
      modifies connection, connection.repository
      ensures Exec(ctx, StopOne(t, index), old(connection.View(l))) == Ended(ok, connection.View(after))
      ensures ok ==> after.host == l.host
    {
      hide Saga.Step, Saga.Exec, At;
      ghost var one, start := StopOne(t, index), connection.View(l);
      AtStart(ctx, one, start);
      var row;
      ok, row, after := workflow.RequireAssignmentState(ctx, one, 0, start, l, t.id, ReadyToStop);
      if !ok { return; }
      ok, row, after := workflow.TransitionAssignmentState(ctx, one, 1, start, after, t.id, row.revision, Stopping);
      if !ok { return; }
      ok := workflow.RecordHostStep(ctx, one, 2, start, after, Stop, Some(t.id), MayHaveStarted, index);
      if !ok { return; }
      workflow.DurableBoundary(ctx, one, 3, start, after);
      ok := workflow.Request(ctx, one, 4, start, after, StopUnit(t.id));
      if !ok { return; }
      ok := workflow.RecordHostStep(ctx, one, 5, start, after, StopComplete, Some(t.id), EffectVerified, index);
      if !ok { return; }
      ok, row, after := workflow.TransitionAssignmentState(ctx, one, 6, start, after, t.id, row.revision, Maintenance);
      if ok { AtEnd(ctx, one, start, connection.View(after)); }
    }

    method MarkAllPreparing(ctx: Ctx, targets: seq<Target>, states: seq<AssignmentRow>, ghost l: Locals) returns (ok: bool)
      requires |states| == |targets|
      requires forall i :: 0 <= i < |targets| ==> targets[i].id in l.collected && l.collected[targets[i].id] == states[i]
      modifies connection.repository
      ensures Exec(ctx, PrepareAll(targets), old(connection.View(l))) == Ended(ok, connection.View(l))
    {
      hide Saga.Step, Saga.Exec, At;
      ghost var acts, start := PrepareAll(targets), connection.View(l);
      AtStart(ctx, acts, start);
      EachAt(targets, 0);
      ok := true;
      for i := 0 to |targets|
        invariant ok && |acts| == |targets| && At(ctx, acts, i, start, connection.View(l))
      {
        EachAt(targets, i);
        ok := workflow.MarkPreparing(ctx, acts, i, start, l, targets[i].id, states[i].revision);
        if !ok { return; }
      }
      AtEnd(ctx, acts, start, connection.View(l));
    }

    method ClaimTargets(ctx: Ctx, targets: seq<Target>, ghost l: Locals) returns (ok: bool)
      modifies connection.repository
      ensures Exec(ctx, ClaimAll(targets), old(connection.View(l))) == Ended(ok, connection.View(l))
    {
      hide Saga.Step, Saga.Exec, At;
      ghost var acts, start := ClaimAll(targets), connection.View(l);
      AtStart(ctx, acts, start);
      EachAt(targets, 0);
      ok := true;
      for i := 0 to |targets|
        invariant ok && |acts| == |targets| && At(ctx, acts, i, start, connection.View(l))
      {
        EachAt(targets, i);
        ok := workflow.ClaimAssignment(ctx, acts, i, start, l, targets[i].id, targets[i].revision);
        if !ok { return; }
      }
      AtEnd(ctx, acts, start, connection.View(l));
    }

    method MarkAllReady(ctx: Ctx, targets: seq<Target>, ghost l: Locals) returns (ok: bool, ghost after: Locals)
      modifies connection.repository
      ensures Exec(ctx, ReadyAll(targets), old(connection.View(l))) == Ended(ok, connection.View(after))
      ensures ok ==> after.host == l.host
    {
      hide Saga.Step, Saga.Exec, At;
      ghost var acts, start := ReadyAll(targets), connection.View(l);
      AtStart(ctx, acts, start);
      ReadyAt(targets, 0);
      ok, after := true, l;
      for i := 0 to |targets|
        invariant ok && |acts| == 2 * |targets| && At(ctx, acts, 2 * i, start, connection.View(after)) && after.host == l.host
      {
        ReadyAt(targets, i);
        var row;
        row, after := workflow.GetAssignmentState(ctx, acts, 2 * i, start, after, targets[i].id);
        ok, row, after := workflow.TransitionAssignmentState(ctx, acts, 2 * i + 1, start, after, targets[i].id, row.revision, ReadyToStop);
        if !ok { return; }
      }
      AtEnd(ctx, acts, start, connection.View(after));
    }

    method PrepareAssignments(ctx: Ctx, targets: seq<Target>, ghost l: Locals) returns (ok: bool, ghost after: Locals)
      modifies connection.repository
      ensures Exec(ctx, Saga.PrepareAssignments(targets), old(connection.View(l))) == Ended(ok, connection.View(after))
      ensures ok ==> after.host == l.host
    {
      hide Saga.Step, Saga.Exec, At;
      ghost var start := connection.View(l);
      ghost var collect, mark, claim, ready := CollectAll(targets), PrepareAll(targets), ClaimAll(targets), ReadyAll(targets);
      ghost var acts := collect + mark + claim + ready;
      AtStart(ctx, acts, start);
      var states;
      ok, states, after := CollectStates(ctx, targets, l);
      Part(ctx, acts, 0, start, collect, start, ok, connection.View(after));
      if !ok { return; }
      ghost var here := connection.View(after);
      ok := MarkAllPreparing(ctx, targets, states, after);
      Part(ctx, acts, |collect|, start, mark, here, ok, connection.View(after));
      if !ok { return; }
      here := connection.View(after);
      ok := ClaimTargets(ctx, targets, after);
      Part(ctx, acts, |collect + mark|, start, claim, here, ok, connection.View(after));
      if !ok { return; }
      here := connection.View(after);
      ok, after := MarkAllReady(ctx, targets, after);
      Part(ctx, acts, |collect + mark + claim|, start, ready, here, ok, connection.View(after));
      if ok { AtEnd(ctx, acts, start, connection.View(after)); }
    }

    method ActivateGuards(ctx: Ctx, clusters: seq<ClusterId>, ghost l: Locals) returns (ok: bool)
      modifies connection, connection.repository
      ensures Exec(ctx, GuardAll(clusters), old(connection.View(l))) == Ended(ok, connection.View(l))
    {
      hide Saga.Step, Saga.Exec, At;
      ghost var acts, start := GuardAll(clusters), connection.View(l);
      AtStart(ctx, acts, start);
      GuardAt(clusters, 0);
      ok := true;
      for i := 0 to |clusters|
        invariant ok && |acts| == 4 * |clusters| && At(ctx, acts, 4 * i, start, connection.View(l))
      {
        GuardAt(clusters, i);
        workflow.DurableBoundary(ctx, acts, 4 * i, start, l);
        ok := workflow.GuardOperation(ctx, acts, 4 * i + 1, start, l, GuardCapture, clusters[i]);
        if !ok { return; }
        workflow.DurableBoundary(ctx, acts, 4 * i + 2, start, l);
        ok := workflow.GuardOperation(ctx, acts, 4 * i + 3, start, l, GuardActivate, clusters[i]);
        if !ok { return; }
      }
      AtEnd(ctx, acts, start, connection.View(l));
    }

    method RestoreGuards(ctx: Ctx, clusters: seq<ClusterId>, ghost l: Locals) returns (ok: bool)
      modifies connection, connection.repository
      ensures Exec(ctx, UnguardAll(clusters), old(connection.View(l))) == Ended(ok, connection.View(l))
    {
      hide Saga.Step, Saga.Exec, At;
      ghost var acts, start := UnguardAll(clusters), connection.View(l);
      AtStart(ctx, acts, start);
      UnguardAt(clusters, 0);
      ok := true;
      for i := 0 to |clusters|
        invariant ok && |acts| == 2 * |clusters| && At(ctx, acts, 2 * i, start, connection.View(l))
      {
        UnguardAt(clusters, i);
        workflow.DurableBoundary(ctx, acts, 2 * i, start, l);
        ok := workflow.GuardOperation(ctx, acts, 2 * i + 1, start, l, GuardRestore, clusters[i]);
        if !ok { return; }
      }
      AtEnd(ctx, acts, start, connection.View(l));
    }

    // The actions up to the close.

    method PrepareWork(ctx: Ctx, targets: seq<Target>, ghost l: Locals) returns (ok: bool, ghost after: Locals)
      modifies connection, connection.repository
      ensures Exec(ctx, HostPrepare(targets), old(connection.View(l))) == Ended(ok, connection.View(after))
    {
      hide Saga.Step, Saga.Exec, At, Passed;
      ghost var acts, start := HostPrepare(targets), connection.View(l);
      ghost var assignments, guards := Saga.PrepareAssignments(targets), GuardAll(DataClusters(targets));
      PreparePlaces(targets);
      AtStart(ctx, acts, start);
      var host;
      host, after := workflow.GetHostState(ctx, acts, 0, start, l);
      ok, host, after := workflow.TransitionHostState(ctx, acts, 1, start, after, host, HostPlanning);
      if !ok { return; }
      ghost var here := connection.View(after);
      ok, after := PrepareAssignments(ctx, targets, after);
      Part(ctx, acts, 2, start, assignments, here, ok, connection.View(after));
      if !ok { return; }
      ghost var k := 2 + |assignments|;
      ok := workflow.RecordHostStep(ctx, acts, k, start, after, HostStepName.Prepare, None, EffectVerified, 0);
      if !ok { return; }
      here := connection.View(after);
      ok := ActivateGuards(ctx, DataClusters(targets), after);
      Part(ctx, acts, k + 1, start, guards, here, ok, connection.View(after));
      if !ok { return; }
      ok, host, after := workflow.TransitionHostWorkflowState(ctx, acts, k + 1 + |guards|, start, after, host, ReadyToStop);
      if ok { AtEnd(ctx, acts, start, connection.View(after)); }
    }

    method StopTargets(ctx: Ctx, sorted: seq<Target>, ghost l: Locals) returns (ok: bool, ghost after: Locals)
      modifies connection, connection.repository
      ensures Exec(ctx, StopAll(sorted, 1), old(connection.View(l))) == Ended(ok, connection.View(after))
      ensures ok ==> after.host == l.host
    {
      hide Saga.Step;
      ghost var start := connection.View(l);
      ok, after := true, l;
      for i := 0 to |sorted|
        invariant ok && after.host == l.host
        invariant Exec(ctx, StopAll(sorted, 1), start) == Exec(ctx, StopAll(sorted[i..], i + 1), connection.View(after))
      {
        ghost var here := connection.View(after);
        ExecAppend(ctx, StopOne(sorted[i], i + 1), StopAll(sorted[i + 1..], i + 2), here);
        assert sorted[i..][1..] == sorted[i + 1..];
        ok, after := StopTarget(ctx, sorted[i], i + 1, after);
        if !ok { return; }
      }
    }

    method StopWork(ctx: Ctx, targets: seq<Target>, host0: HostRow, ghost l: Locals) returns (ok: bool, ghost after: Locals)
      requires l.host == host0
      modifies connection, connection.repository
      ensures Exec(ctx, HostStop(targets), old(connection.View(l))) == Ended(ok, connection.View(after))
    {
      hide Saga.Step, Saga.Exec, At;
      ghost var acts, start, loop := HostStop(targets), connection.View(l), StopAll(StopOrder(targets), 1);
      StopPlaces(targets);
      AtStart(ctx, acts, start);
      var host;
      ok, host, after := workflow.TransitionHostWorkflowState(ctx, acts, 0, start, l, host0, Stopping);
      if !ok { return; }
      ghost var here := connection.View(after);
      ok, after := StopTargets(ctx, StopOrder(targets), after);
      Part(ctx, acts, 1, start, loop, here, ok, connection.View(after));
      if !ok { return; }
      ok, host, after := workflow.TransitionHostWorkflowState(ctx, acts, 1 + |loop|, start, after, host, Maintenance);
      if !ok { return; }
      ok, host, after := workflow.TransitionHostState(ctx, acts, 2 + |loop|, start, after, host, HostMaintenance);
      if ok { AtEnd(ctx, acts, start, connection.View(after)); }
    }

    method RebootWork(ctx: Ctx, ghost l: Locals) returns (ok: bool)
      modifies connection, connection.repository
      ensures Exec(ctx, HostReboot(), old(connection.View(l))) == Ended(ok, connection.View(l))
    {
      hide Saga.Step, Saga.Exec, At;
      ghost var acts, start := HostReboot(), connection.View(l);
      AtStart(ctx, acts, start);
      ok := workflow.RecordHostStep(ctx, acts, 0, start, l, Reboot, None, MayHaveStarted, 0);
      if !ok { return; }
      workflow.DurableBoundary(ctx, acts, 1, start, l);
      ok := workflow.Request(ctx, acts, 2, start, l, RebootHost);
      if !ok { return; }
      ok := workflow.RecordHostStep(ctx, acts, 3, start, l, RebootComplete, None, EffectVerified, 0);
      if ok { AtEnd(ctx, acts, start, connection.View(l)); }
    }

    method Rediscover(ctx: Ctx, host0: HostRow, ghost l: Locals) returns (ok: bool, host: HostRow, ghost after: Locals)
      requires l.host == host0
      modifies connection, connection.repository
      ensures Exec(ctx, Rediscovery(), old(connection.View(l))) == Ended(ok, connection.View(after))
      ensures ok ==> after.host == host
    {
      hide Saga.Step, Saga.Exec, At;
      ghost var acts, start := Rediscovery(), connection.View(l);
      AtStart(ctx, acts, start);
      ok, host, after := workflow.TransitionHostWorkflowState(ctx, acts, 0, start, l, host0, Returning);
      if !ok { return; }
      ok := workflow.RecordHostStep(ctx, acts, 1, start, after, HostRediscovery, None, MayHaveStarted, 0);
      if !ok { return; }
      workflow.DurableBoundary(ctx, acts, 2, start, after);
      ok := workflow.Request(ctx, acts, 3, start, after, HostReady);
      if !ok { return; }
      ok := workflow.RecordHostStep(ctx, acts, 4, start, after, HostRediscoveryComplete, None, EffectVerified, 0);
      if ok { AtEnd(ctx, acts, start, connection.View(after)); }
    }

    method StartTarget(ctx: Ctx, t: Target, index: nat, ghost l: Locals) returns (ok: bool, ghost after: Locals)
      modifies connection, connection.repository
      ensures Exec(ctx, StartOne(t, index), old(connection.View(l))) == Ended(ok, connection.View(after))
      ensures ok ==> after.host == l.host
    {
      hide Saga.Step, Saga.Exec, At;
      ghost var one, start := StartOne(t, index), connection.View(l);
      AtStart(ctx, one, start);
      var row;
      ok, row, after := workflow.RequireAssignmentState(ctx, one, 0, start, l, t.id, Maintenance);
      if !ok { return; }
      ok, row, after := workflow.TransitionAssignmentState(ctx, one, 1, start, after, t.id, row.revision, Returning);
      if !ok { return; }
      ok := workflow.RecordHostStep(ctx, one, 2, start, after, Return, Some(t.id), MayHaveStarted, index);
      if !ok { return; }
      workflow.DurableBoundary(ctx, one, 3, start, after);
      ok := workflow.Request(ctx, one, 4, start, after, StartUnit(t.id));
      if !ok { return; }
      ok := workflow.RecordHostStep(ctx, one, 5, start, after, ReturnComplete, Some(t.id), EffectVerified, index);
      if !ok { return; }
      ok, row, after := workflow.TransitionAssignmentState(ctx, one, 6, start, after, t.id, row.revision, Verifying);
      if ok { AtEnd(ctx, one, start, connection.View(after)); }
    }

    method CheckTarget(ctx: Ctx, t: Target, index: nat, ghost l: Locals) returns (ok: bool)
      modifies connection, connection.repository
      ensures Exec(ctx, CheckOne(t, index), old(connection.View(l))) == Ended(ok, connection.View(l))
    {
      hide Saga.Step, Saga.Exec, At;
      ghost var one, start := CheckOne(t, index), connection.View(l);
      AtStart(ctx, one, start);
      workflow.DurableBoundary(ctx, one, 0, start, l);
      ok := workflow.Request(ctx, one, 1, start, l, UnitReady(t.id));
      if !ok { return; }
      workflow.DurableBoundary(ctx, one, 2, start, l);
      ok := workflow.Request(ctx, one, 3, start, l, ReconcileCompanions(t.id));
      if !ok { return; }
      ok := workflow.RecordHostStep(ctx, one, 4, start, l, Verification, Some(t.id), EffectVerified, index);
      if ok { AtEnd(ctx, one, start, connection.View(l)); }
    }

    method ReturnTarget(ctx: Ctx, t: Target, index: nat, ghost l: Locals) returns (ok: bool, ghost after: Locals)
      modifies connection, connection.repository
      ensures Exec(ctx, ReturnOne(t, index), old(connection.View(l))) == Ended(ok, connection.View(after))
      ensures ok ==> after.host == l.host
    {
      hide Saga.Step, Saga.Exec, At;
      ReturnOneHalves(t, index);
      ExecAppend(ctx, StartOne(t, index), CheckOne(t, index), connection.View(l));
      ok, after := StartTarget(ctx, t, index, l);
      if !ok { return; }
      ok := CheckTarget(ctx, t, index, after);
    }

    method ReturnTargets(ctx: Ctx, sorted: seq<Target>, ghost l: Locals) returns (ok: bool, ghost after: Locals)
      modifies connection, connection.repository
      ensures Exec(ctx, ReturnAll(sorted, 1), old(connection.View(l))) == Ended(ok, connection.View(after))
      ensures ok ==> after.host == l.host
    {
      hide Saga.Step;
      ghost var start := connection.View(l);
      ok, after := true, l;
      for i := 0 to |sorted|
        invariant ok && after.host == l.host
        invariant Exec(ctx, ReturnAll(sorted, 1), start) == Exec(ctx, ReturnAll(sorted[i..], i + 1), connection.View(after))
      {
        ghost var here := connection.View(after);
        ExecAppend(ctx, ReturnOne(sorted[i], i + 1), ReturnAll(sorted[i + 1..], i + 2), here);
        assert sorted[i..][1..] == sorted[i + 1..];
        ok, after := ReturnTarget(ctx, sorted[i], i + 1, after);
        if !ok { return; }
      }
    }

    method VerifyReturned(ctx: Ctx, ghost l: Locals) returns (ok: bool, ghost after: Locals)
      modifies connection, connection.repository
      ensures Exec(ctx, VerifyAll(), old(connection.View(l))) == Ended(ok, connection.View(after))
      ensures ok ==> after.host == l.host
    {
      hide Saga.Step, Saga.Exec, At;
      ghost var acts, start := VerifyAll(), connection.View(l);
      AtStart(ctx, acts, start);
      after := l;
      ok := workflow.RecordHostStep(ctx, acts, 0, start, after, PostReturnStarted, None, MayHaveStarted, 0);
      if !ok { return; }
      workflow.DurableBoundary(ctx, acts, 1, start, after);
      var complete;
      ok, complete, after := workflow.VerifyHostMaintenance(ctx, acts, 2, start, after);
      if !ok { return; }
      ok := workflow.RecordVerification(ctx, acts, 3, start, after, complete);
      if !ok { return; }
      ok := workflow.RequireComplete(ctx, acts, 4, start, after, complete);
      if ok { AtEnd(ctx, acts, start, connection.View(after)); }
    }

    method CleanUpExecutor(ctx: Ctx, ghost l: Locals) returns (ok: bool)
      modifies connection, connection.repository
      ensures Exec(ctx, Cleanup(true), old(connection.View(l))) == Ended(ok, connection.View(l))
    {
      hide Saga.Step, Saga.Exec, At;
      ghost var acts, start := Cleanup(true), connection.View(l);
      AtStart(ctx, acts, start);
      ok := workflow.RebootExecutorFor(ctx, acts, 0, start, l);
      if !ok { return; }
      ok := workflow.RecordHostStep(ctx, acts, 1, start, l, ExecutorCleanup, None, MayHaveStarted, 0);
      if !ok { return; }
      workflow.DurableBoundary(ctx, acts, 2, start, l);
      ok := workflow.Request(ctx, acts, 3, start, l, CleanupExecutor);
      if !ok { return; }
      ok := workflow.RecordHostStep(ctx, acts, 4, start, l, ExecutorCleanupComplete, None, EffectVerified, 0);
      if ok { AtEnd(ctx, acts, start, connection.View(l)); }
    }

    method ReturnAllWorkloads(ctx: Ctx, targets: seq<Target>, host0: HostRow, ghost l: Locals)
      returns (ok: bool, host: HostRow, ghost after: Locals)
      requires l.host == host0
      modifies connection, connection.repository
      ensures Exec(ctx, ReturnWorkloads(targets), old(connection.View(l))) == Ended(ok, connection.View(after))
      ensures ok ==> after.host == host
    {
      hide Saga.Step, Saga.Exec, At;
      ghost var start, loop := connection.View(l), ReturnAll(StartOrder(targets), 1);
      ExecAppend(ctx, Rediscovery() + loop, UnguardAll(DataClusters(targets)), start);
      ExecAppend(ctx, Rediscovery(), loop, start);
      ok, host, after := Rediscover(ctx, host0, l);
      if !ok { return; }
      ok, after := ReturnTargets(ctx, StartOrder(targets), after);
      if !ok { return; }
      ok := RestoreGuards(ctx, DataClusters(targets), after);
    }

    method CheckReturnedHost(ctx: Ctx, rebooted: bool, ghost l: Locals) returns (ok: bool, ghost after: Locals)
      modifies connection, connection.repository
      ensures Exec(ctx, CheckHost(rebooted), old(connection.View(l))) == Ended(ok, connection.View(after))
      ensures ok ==> after.host == l.host
    {
      hide Saga.Step, At;
      ExecAppend(ctx, VerifyAll(), Cleanup(rebooted), connection.View(l));
      ok, after := VerifyReturned(ctx, l);
      if ok && rebooted {
        ok := CleanUpExecutor(ctx, after);
      }
    }

    method ReturnWork(ctx: Ctx, targets: seq<Target>, rebooted: bool, host0: HostRow, ghost l: Locals)
      returns (ok: bool, host: HostRow, ghost after: Locals)
      requires l.host == host0
      modifies connection, connection.repository
      ensures Exec(ctx, HostReturnWork(targets, rebooted), old(connection.View(l))) == Ended(ok, connection.View(after))
      ensures ok ==> after.host == host
    {
      hide Saga.Step, Saga.Exec, At;
      ReturnWorkHalves(targets, rebooted);
      ExecAppend(ctx, ReturnWorkloads(targets), CheckHost(rebooted), connection.View(l));
      ok, host, after := ReturnAllWorkloads(ctx, targets, host0, l);
      if !ok { return; }
      ok, after := CheckReturnedHost(ctx, rebooted, after);
    }

    method CompleteAssignments(ctx: Ctx, targets: seq<Target>, ghost l: Locals) returns (ok: bool, ghost after: Locals)
      modifies connection.repository
      ensures Exec(ctx, CompleteAll(targets), old(connection.View(l))) == Ended(ok, connection.View(after))
      ensures ok ==> after.host == l.host
    {
      hide Saga.Step, Saga.Exec, At;
      ghost var acts, start := CompleteAll(targets), connection.View(l);
      AtStart(ctx, acts, start);
      CompleteAt(targets, 0);
      ok, after := true, l;
      for i := 0 to |targets|
        invariant ok && |acts| == 3 * |targets| && At(ctx, acts, 3 * i, start, connection.View(after)) && after.host == l.host
      {
        CompleteAt(targets, i);
        var row;
        ok, row, after := workflow.RequireAssignmentState(ctx, acts, 3 * i, start, after, targets[i].id, Verifying);
        if !ok { return; }
        ok, row, after := workflow.TransitionAssignmentState(ctx, acts, 3 * i + 1, start, after, targets[i].id, row.revision, Available);
        if !ok { return; }
        ok := workflow.ReleaseAssignment(ctx, acts, 3 * i + 2, start, after, targets[i].id);
        if !ok { return; }
      }
      AtEnd(ctx, acts, start, connection.View(after));
    }

    method FinalizePlan(ctx: Ctx, ghost acts: seq<Act>, ghost k: nat, ghost start: Sys, ghost l: Locals) returns (ok: bool)
      requires At(ctx, acts, k, start, connection.View(l)) && k < |acts| && acts[k] == Saga.FinalizePlan
      requires E.TokensOk(connection.repository.db) && R.Proper(ctx) && ctx.env.ttl == execution.ttl
      requires execution.repository == connection.repository
      modifies connection.repository
      ensures Passed(ctx, acts, k, start, ok, connection.View(l))
    {
      Next(ctx, acts, k, start, connection.View(l));
      var error := execution.Finalize(ctx.ticket, E.AdapterResult(Some(Succeeded), {}), ctx.env.sameContent, ctx.env.now);
      return error == None;
    }

    method ReturnAndClose(ctx: Ctx, targets: seq<Target>, rebooted: bool, host0: HostRow, ghost l: Locals)
      returns (ok: bool, ghost after: Locals)
      requires l.host == host0 && R.Proper(ctx) && ctx.env.ttl == execution.ttl
      requires E.TokensOk(connection.repository.db) && execution.repository == connection.repository
      modifies connection, connection.repository
      ensures Exec(ctx, HostReturn(targets, rebooted), old(connection.View(l))) == Ended(ok, connection.View(after))
    {
      hide Saga.Step, Saga.Exec, At, Passed, Saga.HostReturn, Saga.HostReturnWork, Saga.CompleteAll;
      ghost var acts, start := HostReturn(targets, rebooted), connection.View(l);
      ghost var work, end := HostReturnWork(targets, rebooted), CompleteAll(targets);
      ReturnWhole(targets, rebooted);
      AtStart(ctx, acts, start);
      var host;
      ok, host, after := ReturnWork(ctx, targets, rebooted, host0, l);
      Part(ctx, acts, 0, start, work, start, ok, connection.View(after));
      if !ok { return; }
      TokensStay(ctx, targets, rebooted, start, connection.View(after));
      ok := FinalizePlan(ctx, acts, |work|, start, after);
      if !ok { return; }
      ghost var here := connection.View(after);
      ok, after := CompleteAssignments(ctx, targets, after);
      Part(ctx, acts, |work| + 1, start, end, here, ok, connection.View(after));
      if !ok { return; }
      ok, host, after := workflow.TransitionHostState(ctx, acts, |work| + 1 + |end|, start, after, host, HostAvailable);
      if ok { AtEnd(ctx, acts, start, connection.View(after)); }
    }

    // Failure.

    /** Marks what the plan owns; a refused mark is passed over. */
    method Recover(ctx: Ctx, targets: seq<Target>)
      requires execution.repository == connection.repository
      modifies connection.repository
      ensures connection.repository.db == R.Recovered(old(connection.repository.db), ctx, targets, true)
    {
      var repository := connection.repository;
      if R.HostToRecover(repository.db, ctx.plan, ctx.node) {
        var marked := R.HostRecovered(repository.db, ctx.plan, ctx.node);
        if marked.Ok? { repository.db := marked.value; }
      }
      ghost var first := repository.db;
      for i := 0 to |targets|
        invariant R.RecoverAssignments(first, ctx.plan, targets) == R.RecoverAssignments(repository.db, ctx.plan, targets[i..])
      {
        assert targets[i..][1..] == targets[i + 1..];
        if R.AssignmentToRecover(repository.db, ctx.plan, targets[i].id) {
          var marked := R.AssignmentRecovered(repository.db, ctx.plan, targets[i].id);
          if marked.Ok? { repository.db := marked.value; }
        }
      }
      if R.PlanToRecover(repository.db, ctx.ticket.plan) {
        var _ := execution.Fail(ctx.ticket, ctx.env.sameContent);
      }
    }

    // The public actions. Each either does not start, or ends as its program
    // does, with the recovery of what it owns when the program raises.

    ghost predicate Served(ctx: Ctx, acts: seq<Act>, targets: seq<Target>, start: Sys, ok: bool)
      reads connection, connection.repository
    {
      match Exec(ctx, acts, start)
      case Running(end) => ok && connection.Holds(end)
      case Raised(broken) => !ok && connection.Holds(broken.(db := R.Recovered(broken.db, ctx, targets, true)))
    }

    method Prepare(plan: PlanId, targets: seq<Target>, env: Env, checks: E.Checks, freshRun: RunId) returns (ok: bool)
      requires E.TokensOk(connection.repository.db) && env.ttl == execution.ttl && execution.repository == connection.repository
      modifies connection, connection.repository
      ensures old(!Resolved(connection.repository.db, plan, targets)) ==> !ok && connection.Holds(old(connection.View(Idle())))
      ensures old(Resolved(connection.repository.db, plan, targets)) ==>
        match E.PrepareSpec(old(connection.repository.db), plan, E.Execute, checks, freshRun, env.now, env.ttl)
        case Err(_) =>
          var left := E.PrepareView(old(connection.repository.db), plan, E.Execute, checks, freshRun, env.now, env.ttl);
          !ok && connection.Holds(old(connection.View(Idle())).(db := left))
        case Ok((opening, ticket)) =>
          var node := old(connection.repository.db).plans[plan].content.node.value;
          Served(Ctx(plan, node, ticket, env), HostPrepare(targets), targets,
                 old(connection.View(Fresh(HostOf(connection.repository.db, node)))).(db := opening), ok)
    {
      hide Saga.Step, Saga.Exec, At;
      if !Resolved(connection.repository.db, plan, targets) { return false; }
      var node := connection.repository.db.plans[plan].content.node.value;
      ghost var l := Fresh(HostOf(connection.repository.db, node));
      var prepared := execution.Prepare(plan, E.Execute, checks, freshRun, env.now);
      if prepared.Err? { return false; }
      var ctx := Ctx(plan, node, prepared.value, env);
      ghost var after;
      ok, after := PrepareWork(ctx, targets, l);
      if !ok { Recover(ctx, targets); }
    }

    method StopWorkloads(plan: PlanId, targets: seq<Target>, env: Env) returns (ok: bool)
      requires E.TokensOk(connection.repository.db) && env.ttl == execution.ttl && execution.repository == connection.repository
      modifies connection, connection.repository
      ensures match Admission(old(connection.repository.db), plan, targets, ReadyToStop, env)
              case Err(_) => !ok && connection.Holds(old(connection.View(Idle())))
              case Ok(ctx) =>
                Served(ctx, HostStop(targets), targets, old(connection.View(Fresh(HostOf(connection.repository.db, ctx.node)))), ok)
    {
      hide Saga.Step, Saga.Exec, At;
      var admitted := Admit(plan, targets, ReadyToStop, env);
      if admitted.Err? { return false; }
      var ctx := admitted.value;
      var host := HostOf(connection.repository.db, ctx.node);
      ghost var after;
      ok, after := StopWork(ctx, targets, host, Fresh(host));
      if !ok { Recover(ctx, targets); }
    }

    method RebootTheHost(plan: PlanId, targets: seq<Target>, env: Env) returns (ok: bool)
      requires E.TokensOk(connection.repository.db) && env.ttl == execution.ttl && execution.repository == connection.repository
      modifies connection, connection.repository
      ensures match Admission(old(connection.repository.db), plan, targets, Maintenance, env)
              case Err(_) => !ok && connection.Holds(old(connection.View(Idle())))
              case Ok(ctx) =>
                if !env.executorConfigured then !ok && connection.Holds(old(connection.View(Idle())))
                else Served(ctx, HostReboot(), targets, old(connection.View(Fresh(HostOf(connection.repository.db, ctx.node)))), ok)
    {
      hide Saga.Step, Saga.Exec, At;
      var admitted := Admit(plan, targets, Maintenance, env);
      if admitted.Err? || !env.executorConfigured { return false; }
      var ctx := admitted.value;
      ok := RebootWork(ctx, Fresh(HostOf(connection.repository.db, ctx.node)));
      if !ok { Recover(ctx, targets); }
    }

    method ReturnToService(plan: PlanId, targets: seq<Target>, env: Env) returns (ok: bool)
      requires E.TokensOk(connection.repository.db) && env.ttl == execution.ttl && execution.repository == connection.repository
      modifies connection, connection.repository
      ensures match Admission(old(connection.repository.db), plan, targets, Maintenance, env)
              case Err(_) => !ok && connection.Holds(old(connection.View(Idle())))
              case Ok(ctx) =>
                Served(ctx, HostReturn(targets, RebootCompleted(old(connection.repository.db), plan)), targets,
                       old(connection.View(Fresh(HostOf(connection.repository.db, ctx.node)))), ok)
    {
      hide Saga.Step, Saga.Exec, At;
      var admitted := Admit(plan, targets, Maintenance, env);
      if admitted.Err? { return false; }
      var ctx := admitted.value;
      var host := HostOf(connection.repository.db, ctx.node);
      var rebooted := RebootCompleted(connection.repository.db, plan);
      ghost var after;
      ok, after := ReturnAndClose(ctx, targets, rebooted, host, Fresh(host));
      if !ok { Recover(ctx, targets); }
    }

    /** Host state, then run and locks. */
    method Admit(plan: PlanId, targets: seq<Target>, expected: WorkflowState, env: Env) returns (r: Result<Ctx, StoreError>)
      requires E.TokensOk(connection.repository.db) && execution.repository == connection.repository
      ensures r == Admission(connection.repository.db, plan, targets, expected, env)
    {
      var db := connection.repository.db;
      if !Resolved(db, plan, targets) { return Err(Validation); }
      var node := db.plans[plan].content.node.value;
      var row := HostOf(db, node);
      if row.plan != Some(plan) || row.workflow != expected { return Err(Validation); }
      if db.plans[plan].run.None? { return Err(Validation); }
      var token := execution.CurrentToken(plan);
      if token.None? { return Err(LockOwnership); }
      return Ok(Ctx(plan, node, E.Ticket(plan, db.plans[plan].run.value, E.Execute, token.value), env));
    }

    // One action inside its connection: committed if it returns, and lost from
    // the last durable boundary on if it raises.

    method PerformPrepare(plan: PlanId, targets: seq<Target>, env: Env, checks: E.Checks, freshRun: RunId) returns (ok: bool)
      requires E.TokensOk(connection.repository.db) && env.ttl == execution.ttl && execution.repository == connection.repository
      requires connection.repository.db == connection.durable
      modifies connection, connection.repository
      ensures old(!Resolved(connection.repository.db, plan, targets)) ==> !ok && connection.Holds(old(connection.View(Idle())))
      ensures old(Resolved(connection.repository.db, plan, targets)) ==>
        match E.PrepareSpec(old(connection.repository.db), plan, E.Execute, checks, freshRun, env.now, env.ttl)
        case Err(_) => !ok && connection.Holds(old(connection.View(Idle())))
        case Ok((opening, ticket)) =>
          var node := old(connection.repository.db).plans[plan].content.node.value;
          var start := old(connection.View(Fresh(HostOf(connection.repository.db, node)))).(db := opening);
          connection.Holds(Exited(Exec(Ctx(plan, node, ticket, env), HostPrepare(targets), start)))
    {
      hide Saga.Step, Saga.Exec, At;
      ok := Prepare(plan, targets, env, checks, freshRun);
      if ok { connection.DurableBoundary(); } else { connection.Abandon(); }
    }

    method PerformStop(plan: PlanId, targets: seq<Target>, env: Env) returns (ok: bool)
      requires E.TokensOk(connection.repository.db) && env.ttl == execution.ttl && execution.repository == connection.repository
      requires connection.repository.db == connection.durable
      modifies connection, connection.repository
      ensures match Admission(old(connection.repository.db), plan, targets, ReadyToStop, env)
              case Err(_) => !ok && connection.Holds(old(connection.View(Idle())))
              case Ok(ctx) =>
                var start := old(connection.View(Fresh(HostOf(connection.repository.db, ctx.node))));
                connection.Holds(Exited(Exec(ctx, HostStop(targets), start)))
    {
      hide Saga.Step, Saga.Exec, At;
      ok := StopWorkloads(plan, targets, env);
      if ok { connection.DurableBoundary(); } else { connection.Abandon(); }
    }

    method PerformReboot(plan: PlanId, targets: seq<Target>, env: Env) returns (ok: bool)
      requires E.TokensOk(connection.repository.db) && env.ttl == execution.ttl && execution.repository == connection.repository
      requires connection.repository.db == connection.durable
      modifies connection, connection.repository
      ensures match Admission(old(connection.repository.db), plan, targets, Maintenance, env)
              case Err(_) => !ok && connection.Holds(old(connection.View(Idle())))
              case Ok(ctx) =>
                if !env.executorConfigured then !ok && connection.Holds(old(connection.View(Idle())))
                else
                  var start := old(connection.View(Fresh(HostOf(connection.repository.db, ctx.node))));
                  connection.Holds(Exited(Exec(ctx, HostReboot(), start)))
    {
      hide Saga.Step, Saga.Exec, At;
      ok := RebootTheHost(plan, targets, env);
      if ok { connection.DurableBoundary(); } else { connection.Abandon(); }
    }

    method PerformReturn(plan: PlanId, targets: seq<Target>, env: Env) returns (ok: bool)
      requires E.TokensOk(connection.repository.db) && env.ttl == execution.ttl && execution.repository == connection.repository
      requires connection.repository.db == connection.durable
      modifies connection, connection.repository
      ensures match Admission(old(connection.repository.db), plan, targets, Maintenance, env)
              case Err(_) => !ok && connection.Holds(old(connection.View(Idle())))
              case Ok(ctx) =>
                var start := old(connection.View(Fresh(HostOf(connection.repository.db, ctx.node))));
                connection.Holds(Exited(Exec(ctx, HostReturn(targets, RebootCompleted(start.db, plan)), start)))
    {
      hide Saga.Step, Saga.Exec, At;
      ok := ReturnToService(plan, targets, env);
      if ok { connection.DurableBoundary(); } else { connection.Abandon(); }
    }
  }

  function Idle(): Locals {
    Fresh(HostRow(HostAvailable, None, 1, Available, 1))
  }

  /** The resolved targets are exactly those of the approved manifest. */
  predicate Resolved(db: Db, plan: PlanId, targets: seq<Target>) {
    && plan in db.plans && db.plans[plan].content.node.Some?
    && |targets| == |db.plans[plan].content.revisions|
    && (forall t :: t in targets ==>
          t.id in db.plans[plan].content.revisions && t.revision == db.plans[plan].content.revisions[t.id])
    && (forall id :: id in db.plans[plan].content.revisions ==> exists t :: t in targets && t.id == id)
  }

  predicate RebootCompleted(db: Db, plan: PlanId) {
    (plan, OfStep(HostStep(RebootComplete, None))) in db.checkpoints
  }

  /** Whether a later action may start, and with which ticket. */
  ghost function Admission(db: Db, plan: PlanId, targets: seq<Target>, expected: WorkflowState, env: Env): Result<Ctx, StoreError> {
    if !Resolved(db, plan, targets) then Err(Validation)
    else
      var node := db.plans[plan].content.node.value;
      var row := HostOf(db, node);
      var token := E.TokenOf(db, plan);
      if row.plan != Some(plan) || row.workflow != expected || db.plans[plan].run.None? then Err(Validation)
      else if token.None? then Err(LockOwnership)
      else Ok(Ctx(plan, node, E.Ticket(plan, db.plans[plan].run.value, E.Execute, token.value), env))
  }

  lemma TokensStay(ctx: Ctx, targets: seq<Target>, rebooted: bool, start: Sys, s: Sys)
    requires E.TokensOk(start.db) && Exec(ctx, HostReturnWork(targets, rebooted), start) == Running(s)
    ensures E.TokensOk(s.db)
  {
    T.WorkLocks(ctx, R.ReturnAction(rebooted), targets, start);
  }
}
