/** The container maintenance service: prepare, stop and return one workload. */
module ContainerMaintenance {
  import opened Wrappers
  import opened Lifecycle
  import opened Store
  import opened Saga
  import opened SagaConnection
  import E = Execution
  import R = SagaRecovery
  import T = SagaRoundTrip

  function Guards(t: Target): seq<Act> {
    if t.dataBearing then GuardAll([t.cluster]) else []
  }

  function Unguards(t: Target): seq<Act> {
    if t.dataBearing then UnguardAll([t.cluster]) else []
  }

  lemma PreparePlaces(t: Target)
    ensures var acts, g := ContainerPrepare(t), Guards(t);
      && |acts| == 5 + |g| && acts[0] == Load(t.id) && acts[1] == SetState(Preparing)
      && acts[2] == ClaimTarget(t.id, t.revision) && acts[3] == Finished(CPrepare)
      && acts[4..4 + |g|] == g && acts[4 + |g|] == SetState(ReadyToStop)
  {
  }

  lemma GuardParts(t: Target)
    requires t.dataBearing
    ensures Guards(t) == [Act.Commit, Guard(GuardCapture, t.cluster), Act.Commit, Guard(GuardActivate, t.cluster)]
    ensures Unguards(t) == [Act.Commit, Guard(GuardRestore, t.cluster)]
  {
    var one := [t.cluster];
    assert one[1..] == [] && GuardAll(one[1..]) == [] && UnguardAll(one[1..]) == [];
  }

  /** A return in two halves: the unit, then what depends on it. */
  function ReturnUnit(t: Target): seq<Act> {
    ContainerStart(t) + ContainerReady(t) + ContainerCompanions(t)
  }

  function ReturnRest(t: Target): seq<Act> {
    Unguards(t) + [ReleaseTarget(t.id), SetState(Available)] + [FinalizePlan]
  }

  lemma ReturnHalves(t: Target)
    ensures ContainerReturn(t) == ReturnUnit(t) + ReturnRest(t)
    ensures ContainerReturn(t) == ContainerReturnWork(t) + [FinalizePlan]
    ensures ContainerReturnWork(t) == ReturnUnit(t) + Unguards(t) + [ReleaseTarget(t.id), SetState(Available)]
  {
  }

  predicate ResolvedTarget(db: Db, plan: PlanId, t: Target) {
    plan in db.plans && t.id in db.plans[plan].content.revisions && t.revision == db.plans[plan].content.revisions[t.id]
  }

  /** Whether a later action may start, and with which ticket. */
  ghost function Admission(db: Db, plan: PlanId, node: NodeId, t: Target, expected: WorkflowState, env: Env): Result<Ctx, StoreError> {
    if !ResolvedTarget(db, plan, t) then Err(Validation)
    else
      var row := AssignmentOf(db, t.id);
      var token := E.TokenOf(db, plan);
      if row.plan != Some(plan) || row.workflow != expected || db.plans[plan].run.None? then Err(Validation)
      else if token.None? then Err(LockOwnership)
      else Ok(Ctx(plan, node, E.Ticket(plan, db.plans[plan].run.value, E.Execute, token.value), env))
  }

  class ContainerMaintenanceService {
    const workflow: Workflow
    const connection := workflow.connection
    const execution: E.MaintenanceExecutionService

    constructor (workflow: Workflow, execution: E.MaintenanceExecutionService)
      requires execution.repository == workflow.connection.repository
      ensures this.workflow == workflow && this.execution == execution
    {
      this.workflow := workflow;
      this.execution := execution;
    }

    method CaptureAndActivate(ctx: Ctx, t: Target, ghost l: Locals) returns (ok: bool)
      modifies connection, connection.repository
      ensures Exec(ctx, Guards(t), old(connection.View(l))) == Ended(ok, connection.View(l))
    {
      hide Saga.Step, At;
      ok := true;
      if t.dataBearing {
        ghost var acts, start := Guards(t), connection.View(l);
        GuardParts(t);
        AtStart(ctx, acts, start);
        workflow.DurableBoundary(ctx, acts, 0, start, l);
        ok := workflow.GuardOperation(ctx, acts, 1, start, l, GuardCapture, t.cluster);
        if !ok { return; }
        workflow.DurableBoundary(ctx, acts, 2, start, l);
        ok := workflow.GuardOperation(ctx, acts, 3, start, l, GuardActivate, t.cluster);
        if ok { AtEnd(ctx, acts, start, connection.View(l)); }
      }
    }

    method RestoreGuard(ctx: Ctx, t: Target, ghost l: Locals) returns (ok: bool)
      modifies connection, connection.repository
      ensures Exec(ctx, Unguards(t), old(connection.View(l))) == Ended(ok, connection.View(l))
    {
      hide Saga.Step, At;
      ok := true;
      if t.dataBearing {
        ghost var acts, start := Unguards(t), connection.View(l);
        GuardParts(t);
        AtStart(ctx, acts, start);
        workflow.DurableBoundary(ctx, acts, 0, start, l);
        ok := workflow.GuardOperation(ctx, acts, 1, start, l, GuardRestore, t.cluster);
        if ok { AtEnd(ctx, acts, start, connection.View(l)); }
      }
    }

    method PrepareWork(ctx: Ctx, t: Target, ghost l: Locals) returns (ok: bool, ghost after: Locals)
      modifies connection, connection.repository
      ensures Exec(ctx, ContainerPrepare(t), old(connection.View(l))) == Ended(ok, connection.View(after))
    {
      hide Saga.Step, Saga.Exec, At;
      ghost var acts, start, guards := ContainerPrepare(t), connection.View(l), Guards(t);
      PreparePlaces(t);
      AtStart(ctx, acts, start);
      var state;
      state, after := workflow.GetAssignmentState(ctx, acts, 0, start, l, t.id);
      ok, state, after := workflow.TransitionAssignmentState(ctx, acts, 1, start, after, t.id, state.revision, Preparing);
      if !ok { return; }
      ok := workflow.ClaimAssignment(ctx, acts, 2, start, after, t.id, t.revision);
      if !ok { return; }
      ok := workflow.RecordVerifiedStep(ctx, acts, 3, start, after, CPrepare);
      if !ok { return; }
      ghost var here := connection.View(after);
      ok := CaptureAndActivate(ctx, t, after);
      Part(ctx, acts, 4, start, guards, here, ok, connection.View(after));
      if !ok { return; }
      ok, state, after := workflow.TransitionAssignmentState(ctx, acts, 4 + |guards|, start, after, t.id, state.revision, ReadyToStop);
      if ok { AtEnd(ctx, acts, start, connection.View(after)); }
    }

    method StopWork(ctx: Ctx, t: Target, state0: AssignmentRow, ghost l: Locals) returns (ok: bool, ghost after: Locals)
      requires l.current == t.id && l.row == state0
      modifies connection, connection.repository
      ensures Exec(ctx, ContainerStop(t), old(connection.View(l))) == Ended(ok, connection.View(after))
    {
      hide Saga.Step, Saga.Exec, At;
      ghost var acts, start := ContainerStop(t), connection.View(l);
      AtStart(ctx, acts, start);
      var state;
      ok, state, after := workflow.TransitionAssignmentState(ctx, acts, 0, start, l, t.id, state0.revision, Stopping);
      if !ok { return; }
      ok := workflow.RecordStartedStep(ctx, acts, 1, start, after, CStop);
      if !ok { return; }
      workflow.DurableBoundary(ctx, acts, 2, start, after);
      ok := workflow.Request(ctx, acts, 3, start, after, StopUnit(t.id));
      if !ok { return; }
      ok := workflow.RecordVerifiedStep(ctx, acts, 4, start, after, CStop);
      if !ok { return; }
      ok, state, after := workflow.TransitionAssignmentState(ctx, acts, 5, start, after, t.id, state.revision, Maintenance);
      if ok { AtEnd(ctx, acts, start, connection.View(after)); }
    }

    method StartUnit(ctx: Ctx, t: Target, state0: AssignmentRow, ghost l: Locals)
      returns (ok: bool, state: AssignmentRow, ghost after: Locals)
      requires l.current == t.id && l.row == state0
      modifies connection, connection.repository
      ensures Exec(ctx, ContainerStart(t), old(connection.View(l))) == Ended(ok, connection.View(after))
      ensures ok ==> after.current == t.id && after.row == state
    {
      hide Saga.Step, Saga.Exec, At;
      ghost var acts, start := ContainerStart(t), connection.View(l);
      AtStart(ctx, acts, start);
      ok, state, after := workflow.TransitionAssignmentState(ctx, acts, 0, start, l, t.id, state0.revision, Returning);
      if !ok { return; }
      ok := workflow.RecordStartedStep(ctx, acts, 1, start, after, CReturn);
      if !ok { return; }
      workflow.DurableBoundary(ctx, acts, 2, start, after);
      ok := workflow.Request(ctx, acts, 3, start, after, RemoteOp.StartUnit(t.id));
      if !ok { return; }
      ok := workflow.RecordVerifiedStep(ctx, acts, 4, start, after, CReturn);
      if !ok { return; }
      ok, state, after := workflow.TransitionAssignmentState(ctx, acts, 5, start, after, t.id, state.revision, Verifying);
      if ok { AtEnd(ctx, acts, start, connection.View(after)); }
    }

    /** Announce, commit, ask, record: readiness and companions go alike. */
    method Checked(ctx: Ctx, name: ContainerStepName, op: RemoteOp, ghost l: Locals) returns (ok: bool)
      modifies connection, connection.repository
      ensures Exec(ctx, [Started(name), Act.Commit, Ask(op), Finished(name)], old(connection.View(l))) == Ended(ok, connection.View(l))
    {
      hide Saga.Step, Saga.Exec, At;
      ghost var acts, start := [Started(name), Act.Commit, Ask(op), Finished(name)], connection.View(l);
      AtStart(ctx, acts, start);
      ok := workflow.RecordStartedStep(ctx, acts, 0, start, l, name);
      if !ok { return; }
      workflow.DurableBoundary(ctx, acts, 1, start, l);
      ok := workflow.Request(ctx, acts, 2, start, l, op);
      if !ok { return; }
      ok := workflow.RecordVerifiedStep(ctx, acts, 3, start, l, name);
      if ok { AtEnd(ctx, acts, start, connection.View(l)); }
    }

    method ReturnTheUnit(ctx: Ctx, t: Target, state0: AssignmentRow, ghost l: Locals)
      returns (ok: bool, state: AssignmentRow, ghost after: Locals)
      requires l.current == t.id && l.row == state0
      modifies connection, connection.repository
      ensures Exec(ctx, ReturnUnit(t), old(connection.View(l))) == Ended(ok, connection.View(after))
      ensures ok ==> after.current == t.id && after.row == state
    {
      hide Saga.Step, Saga.Exec, At;
      ghost var start := connection.View(l);
      ExecAppend(ctx, ContainerStart(t) + ContainerReady(t), ContainerCompanions(t), start);
      ExecAppend(ctx, ContainerStart(t), ContainerReady(t), start);
      ok, state, after := StartUnit(ctx, t, state0, l);
      if !ok { return; }
      ok := Checked(ctx, CVerify, UnitReady(t.id), after);
      if !ok { return; }
      ok := Checked(ctx, CCompanions, ReconcileCompanions(t.id), after);
    }

    method ReleaseAndFree(ctx: Ctx, t: Target, state0: AssignmentRow, ghost l: Locals) returns (ok: bool, ghost after: Locals)
      requires l.current == t.id && l.row == state0
      modifies connection.repository
      ensures Exec(ctx, [ReleaseTarget(t.id), SetState(Available)], old(connection.View(l))) == Ended(ok, connection.View(after))
    {
      hide Saga.Step, Saga.Exec, At;
      ghost var acts, start := [ReleaseTarget(t.id), SetState(Available)], connection.View(l);
      AtStart(ctx, acts, start);
      after := l;
      ok := workflow.ReleaseAssignment(ctx, acts, 0, start, after, t.id);
      if !ok { return; }
      var state;
      ok, state, after := workflow.TransitionAssignmentState(ctx, acts, 1, start, after, t.id, state0.revision, Available);
      if ok { AtEnd(ctx, acts, start, connection.View(after)); }
    }

    method ReturnWork(ctx: Ctx, t: Target, state0: AssignmentRow, ghost l: Locals) returns (ok: bool, ghost after: Locals)
      requires l.current == t.id && l.row == state0
      modifies connection, connection.repository
      ensures Exec(ctx, ContainerReturnWork(t), old(connection.View(l))) == Ended(ok, connection.View(after))
    {
      hide Saga.Step, Saga.Exec, At;
      ghost var start := connection.View(l);
      ReturnHalves(t);
      ExecAppend(ctx, ReturnUnit(t) + Unguards(t), [ReleaseTarget(t.id), SetState(Available)], start);
      ExecAppend(ctx, ReturnUnit(t), Unguards(t), start);
      var state;
      ok, state, after := ReturnTheUnit(ctx, t, state0, l);
      if !ok { return; }
      ok := RestoreGuard(ctx, t, after);
      if !ok { return; }
      ok, after := ReleaseAndFree(ctx, t, state, after);
    }

    method ClosePlan(ctx: Ctx, ghost l: Locals) returns (ok: bool)
      requires E.TokensOk(connection.repository.db) && R.Proper(ctx) && ctx.env.ttl == execution.ttl
      requires execution.repository == connection.repository
      modifies connection.repository
      ensures Exec(ctx, [FinalizePlan], old(connection.View(l))) == Ended(ok, connection.View(l))
    {
      ghost var start := connection.View(l);
      AtStart(ctx, [FinalizePlan], start);
      Next(ctx, [FinalizePlan], 0, start, start);
      var error := execution.Finalize(ctx.ticket, E.AdapterResult(Some(Succeeded), {}), ctx.env.sameContent, ctx.env.now);
      ok := error == None;
      if ok { AtEnd(ctx, [FinalizePlan], start, connection.View(l)); }
    }

    method ReturnAndClose(ctx: Ctx, t: Target, state0: AssignmentRow, ghost l: Locals) returns (ok: bool, ghost after: Locals)
      requires l.current == t.id && l.row == state0 && R.Proper(ctx) && ctx.env.ttl == execution.ttl
      requires E.TokensOk(connection.repository.db) && execution.repository == connection.repository
      modifies connection, connection.repository
      ensures Exec(ctx, ContainerReturn(t), old(connection.View(l))) == Ended(ok, connection.View(after))
    {
      hide Saga.Step, Saga.Exec, At;
      ghost var start := connection.View(l);
      ReturnHalves(t);
      ExecAppend(ctx, ContainerReturnWork(t), [FinalizePlan], start);
      ok, after := ReturnWork(ctx, t, state0, l);
      if !ok { return; }
      TokensStay(ctx, t, start, connection.View(after));
      ok := ClosePlan(ctx, after);
    }

    method Recover(ctx: Ctx, t: Target)
      requires execution.repository == connection.repository
      modifies connection.repository
      ensures connection.repository.db == R.Recovered(old(connection.repository.db), ctx, [t], false)
    {
      var repository := connection.repository;
      OneAssignment(repository.db, ctx.plan, t);
      if R.AssignmentToRecover(repository.db, ctx.plan, t.id) {
        var marked := R.AssignmentRecovered(repository.db, ctx.plan, t.id);
        if marked.Ok? { repository.db := marked.value; }
      }
      if R.PlanToRecover(repository.db, ctx.ticket.plan) {
        var _ := execution.Fail(ctx.ticket, ctx.env.sameContent);
      }
    }

    // The public actions.

    ghost predicate Served(ctx: Ctx, acts: seq<Act>, t: Target, start: Sys, ok: bool)
      reads connection, connection.repository
    {
      match Exec(ctx, acts, start)
      case Running(end) => ok && connection.Holds(end)
      case Raised(broken) => !ok && connection.Holds(broken.(db := R.Recovered(broken.db, ctx, [t], false)))
    }

    method Prepare(plan: PlanId, node: NodeId, t: Target, env: Env, checks: E.Checks, freshRun: RunId) returns (ok: bool)
      requires E.TokensOk(connection.repository.db) && env.ttl == execution.ttl && execution.repository == connection.repository
      requires ResolvedTarget(connection.repository.db, plan, t)
      modifies connection, connection.repository
      ensures match E.PrepareSpec(old(connection.repository.db), plan, E.Execute, checks, freshRun, env.now, env.ttl)
              case Err(_) =>
                var left := E.PrepareView(old(connection.repository.db), plan, E.Execute, checks, freshRun, env.now, env.ttl);
                !ok && connection.Holds(old(connection.View(FreshFor(t.id, AssignmentOf(connection.repository.db, t.id)))).(db := left))
              case Ok((opening, ticket)) =>
                Served(Ctx(plan, node, ticket, env), ContainerPrepare(t), t,
                       old(connection.View(FreshFor(t.id, AssignmentOf(connection.repository.db, t.id)))).(db := opening), ok)
    {
      hide Saga.Step, Saga.Exec, At;
      ghost var l := FreshFor(t.id, AssignmentOf(connection.repository.db, t.id));
      var prepared := execution.Prepare(plan, E.Execute, checks, freshRun, env.now);
      if prepared.Err? { return false; }
      var ctx := Ctx(plan, node, prepared.value, env);
      ghost var after;
      ok, after := PrepareWork(ctx, t, l);
      if !ok { Recover(ctx, t); }
    }

    method Admit(plan: PlanId, node: NodeId, t: Target, expected: WorkflowState, env: Env) returns (r: Result<Ctx, StoreError>)
      requires E.TokensOk(connection.repository.db) && execution.repository == connection.repository
      ensures r == Admission(connection.repository.db, plan, node, t, expected, env)
    {
      var db := connection.repository.db;
      if !ResolvedTarget(db, plan, t) { return Err(Validation); }
      var row := AssignmentOf(db, t.id);
      if row.plan != Some(plan) || row.workflow != expected { return Err(Validation); }
      if db.plans[plan].run.None? { return Err(Validation); }
      var token := execution.CurrentToken(plan);
      if token.None? { return Err(LockOwnership); }
      return Ok(Ctx(plan, node, E.Ticket(plan, db.plans[plan].run.value, E.Execute, token.value), env));
    }

    method Stop(plan: PlanId, node: NodeId, t: Target, env: Env) returns (ok: bool)
      requires E.TokensOk(connection.repository.db) && env.ttl == execution.ttl && execution.repository == connection.repository
      modifies connection, connection.repository
      ensures match Admission(old(connection.repository.db), plan, node, t, ReadyToStop, env)
              case Err(_) => !ok && connection.repository.db == old(connection.repository.db)
              case Ok(ctx) =>
                Served(ctx, ContainerStop(t), t, old(connection.View(FreshFor(t.id, AssignmentOf(connection.repository.db, t.id)))), ok)
    {
      hide Saga.Step, Saga.Exec, At;
      var admitted := Admit(plan, node, t, ReadyToStop, env);
      if admitted.Err? { return false; }
      var state := AssignmentOf(connection.repository.db, t.id);
      ghost var after;
      ok, after := StopWork(admitted.value, t, state, FreshFor(t.id, state));
      if !ok { Recover(admitted.value, t); }
    }

    method ReturnToService(plan: PlanId, node: NodeId, t: Target, env: Env) returns (ok: bool)
      requires E.TokensOk(connection.repository.db) && env.ttl == execution.ttl && execution.repository == connection.repository
      modifies connection, connection.repository
      ensures match Admission(old(connection.repository.db), plan, node, t, Maintenance, env)
              case Err(_) => !ok && connection.repository.db == old(connection.repository.db)
              case Ok(ctx) =>
                Served(ctx, ContainerReturn(t), t, old(connection.View(FreshFor(t.id, AssignmentOf(connection.repository.db, t.id)))), ok)
    {
      hide Saga.Step, Saga.Exec, At;
      var admitted := Admit(plan, node, t, Maintenance, env);
      if admitted.Err? { return false; }
      var state := AssignmentOf(connection.repository.db, t.id);
      ghost var after;
      ok, after := ReturnAndClose(admitted.value, t, state, FreshFor(t.id, state));
      if !ok { Recover(admitted.value, t); }
    }
  }

  lemma OneAssignment(db: Db, plan: PlanId, t: Target)
    ensures R.RecoverAssignments(db, plan, [t]) == R.RecoverAssignment(db, plan, t.id)
  {
    var one := [t];
    assert one[1..] == [] && R.RecoverAssignments(R.RecoverAssignment(db, plan, t.id), plan, one[1..]) == R.RecoverAssignment(db, plan, t.id);
  }

  lemma TokensStay(ctx: Ctx, t: Target, start: Sys, s: Sys)
    requires E.TokensOk(start.db) && Exec(ctx, ContainerReturnWork(t), start) == Running(s)
    ensures E.TokensOk(s.db)
  {
    R.ContainerWorkSound(R.ReturnContainer, t);
    T.ExecLocks(ctx, ContainerReturnWork(t), start);
  }
}
