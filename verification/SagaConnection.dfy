/** The connection the maintenance services work on, and the statements of their
    workflows on it, each proved to do what it does in the workflow's program. */
module SagaConnection {
  import opened Wrappers
  import opened AllocationSettings
  import opened Lifecycle
  import opened Store
  import opened Saga
  import E = Execution
  import G = AllocationGuard

  /** A place in a program: what is left of it runs from the present state. */
  ghost predicate At(ctx: Ctx, acts: seq<Act>, k: nat, start: Sys, s: Sys) {
    k <= |acts| && Exec(ctx, acts, start) == Exec(ctx, acts[k..], s)
  }

  lemma Next(ctx: Ctx, acts: seq<Act>, k: nat, start: Sys, s: Sys)
    requires At(ctx, acts, k, start, s) && k < |acts|
    ensures match Step(ctx, s, acts[k])
            case Raised(after) => Exec(ctx, acts, start) == Raised(after)
            case Running(after) => At(ctx, acts, k + 1, start, after)
  {
    assert acts[k..][1..] == acts[k + 1..];
  }

  lemma AtStart(ctx: Ctx, acts: seq<Act>, start: Sys)
    ensures At(ctx, acts, 0, start, start)
  {
    assert acts[0..] == acts;
  }

  lemma AtEnd(ctx: Ctx, acts: seq<Act>, start: Sys, s: Sys)
    requires At(ctx, acts, |acts|, start, s)
    ensures Exec(ctx, acts, start) == Running(s)
  {
    assert acts[|acts|..] == [];
  }

  ghost function Ended(ok: bool, s: Sys): Outcome {
    if ok then Running(s) else Raised(s)
  }

  /** Where a program stands after its statement `k`. */
  ghost predicate Passed(ctx: Ctx, acts: seq<Act>, k: nat, start: Sys, ok: bool, s: Sys) {
    if ok then At(ctx, acts, k + 1, start, s) else Exec(ctx, acts, start) == Raised(s)
  }

  /** A part of a program that ran on its own, seen from the whole. */
  lemma Part(ctx: Ctx, acts: seq<Act>, k: nat, start: Sys, part: seq<Act>, s: Sys, ok: bool, after: Sys)
    requires At(ctx, acts, k, start, s) && k + |part| <= |acts| && acts[k..k + |part|] == part
    requires Exec(ctx, part, s) == Ended(ok, after)
    ensures if ok then At(ctx, acts, k + |part|, start, after) else Exec(ctx, acts, start) == Raised(after)
  {
    assert acts[k..] == part + acts[k + |part|..];
    ExecAppend(ctx, part, acts[k + |part|..], s);
  }

  /** What the services work on: the open transaction, what is committed, and
      the outside world. A refused operation changes nothing. */
  class Connection {
    const repository: E.MaintenanceRepository
    var durable: Db
    var calls: seq<Call>
    var layers: map<ClusterId, Layers>

    constructor (repository: E.MaintenanceRepository)
      ensures this.repository == repository && durable == repository.db && calls == [] && layers == map[]
    {
      this.repository := repository;
      durable := repository.db;
      calls, layers := [], map[];
    }

    ghost function View(l: Locals): Sys
      reads this, repository
    {
      Sys(repository.db, durable, calls, layers, l)
    }

    ghost predicate Holds(s: Sys)
      reads this, repository
    {
      repository.db == s.db && durable == s.durable && calls == s.calls && layers == s.layers
    }

    method Abandon()
      modifies repository
      ensures repository.db == durable
    {
      repository.db := durable;
    }

    method DurableBoundary()
      modifies this
      ensures durable == repository.db && calls == old(calls) && layers == old(layers)
    {
      durable := repository.db;
    }

    method GetHostState(node: NodeId) returns (row: HostRow)
      ensures row == HostOf(repository.db, node)
    {
      row := HostOf(repository.db, node);
    }

    method TransitionHostState(node: NodeId, revision: nat, target: HostState, plan: Option<PlanId>) returns (r: Result<HostRow, StoreError>)
      modifies repository
      ensures match TransitionHost(old(repository.db), node, revision, target, plan)
              case Err(e) => r == Err(e) && repository.db == old(repository.db)
              case Ok(db) => r == Ok(HostOf(db, node)) && repository.db == db
    {
      var moved := TransitionHost(repository.db, node, revision, target, plan);
      if moved.Err? { return Err(moved.error); }
      repository.db := moved.value;
      return Ok(HostOf(repository.db, node));
    }

    method TransitionHostWorkflowState(node: NodeId, revision: nat, target: WorkflowState) returns (r: Result<HostRow, StoreError>)
      modifies repository
      ensures match TransitionHostWorkflow(old(repository.db), node, revision, target)
              case Err(e) => r == Err(e) && repository.db == old(repository.db)
              case Ok(db) => r == Ok(HostOf(db, node)) && repository.db == db
    {
      var moved := TransitionHostWorkflow(repository.db, node, revision, target);
      if moved.Err? { return Err(moved.error); }
      repository.db := moved.value;
      return Ok(HostOf(repository.db, node));
    }

    method GetAssignmentState(id: AssignmentId) returns (row: AssignmentRow)
      ensures row == AssignmentOf(repository.db, id)
    {
      row := AssignmentOf(repository.db, id);
    }

    method TransitionAssignmentState(id: AssignmentId, revision: nat, target: WorkflowState, plan: Option<PlanId>)
      returns (r: Result<AssignmentRow, StoreError>)
      modifies repository
      ensures match TransitionAssignment(old(repository.db), id, revision, target, plan)
              case Err(e) => r == Err(e) && repository.db == old(repository.db)
              case Ok(db) => r == Ok(AssignmentOf(db, id)) && repository.db == db
    {
      var moved := TransitionAssignment(repository.db, id, revision, target, plan);
      if moved.Err? { return Err(moved.error); }
      repository.db := moved.value;
      return Ok(AssignmentOf(repository.db, id));
    }

    method ClaimAssignment(id: AssignmentId, revision: nat, run: RunId) returns (claimed: bool)
      modifies repository
      ensures match Claim(old(repository.db), id, revision, run)
              case Err(_) => !claimed && repository.db == old(repository.db)
              case Ok(db) => claimed && repository.db == db
    {
      var r := Claim(repository.db, id, revision, run);
      if r.Ok? { repository.db := r.value; }
      return r.Ok?;
    }

    method ReleaseAssignment(id: AssignmentId, run: RunId) returns (released: bool)
      modifies repository
      ensures match Release(old(repository.db), id, run)
              case Err(_) => !released && repository.db == old(repository.db)
              case Ok(db) => released && repository.db == db
    {
      var r := Release(repository.db, id, run);
      if r.Ok? { repository.db := r.value; }
      return r.Ok?;
    }

    /** A step and its checkpoint. */
    method RecordStep(plan: PlanId, e: StepEntry) returns (recorded: bool)
      modifies repository
      ensures match Store.RecordStep(old(repository.db), plan, e)
              case Err(_) => !recorded && repository.db == old(repository.db)
              case Ok(db) => recorded && repository.db == db
    {
      var r := Store.RecordStep(repository.db, plan, e);
      if r.Ok? { repository.db := r.value; }
      return r.Ok?;
    }

    /** A request leaves the controller, whatever its answer. */
    method Request(plan: PlanId, op: RemoteOp, answer: Answer)
      modifies this
      ensures calls == old(calls) + [Remote(plan, op, answer)] && durable == old(durable) && layers == old(layers)
    {
      calls := calls + [Remote(plan, op, answer)];
    }

    /** One call of the allocation guard service: its row, and the settings write
        that it sends. */
    method GuardOperation(ctx: Ctx, op: GuardOp, cluster: ClusterId) returns (outcome: G.Outcome)
      modifies this, repository
      ensures var before := old(GuardState(View(Fresh(HostOf(repository.db, ctx.node))), cluster));
        var after := GuardOutcome(ctx, before, op, cluster);
        && outcome == after.1 && durable == old(durable) && layers == old(layers)[cluster := after.0.layers]
        && repository.db == old(repository.db).(guards := old(repository.db).guards[cluster := after.0.records])
        && calls == old(calls) + if Writes(before.records, ctx.plan, op) then [GuardPut(ctx.plan, cluster)] else []
    {
      var before := G.ClusterState(if cluster in layers then layers[cluster] else Layers(None, None), GuardsOf(repository.db, cluster));
      var (after, result) := GuardOutcome(ctx, before, op, cluster);
      calls := calls + if Writes(before.records, ctx.plan, op) then [GuardPut(ctx.plan, cluster)] else [];
      repository.db := repository.db.(guards := repository.db.guards[cluster := after.records]);
      layers := layers[cluster := after.layers];
      return result;
    }
  }

  /** The statements of a workflow on its connection. Each stands at a place `k` of
      a program, and the program goes on from there. */
  class Workflow {
    const connection: Connection

    constructor (connection: Connection)
      ensures this.connection == connection
    {
      this.connection := connection;
    }

    ghost function View(l: Locals): Sys
      reads connection, connection.repository
    {
      connection.View(l)
    }

    method GetHostState(ctx: Ctx, ghost acts: seq<Act>, ghost k: nat, ghost start: Sys, ghost l: Locals)
      returns (row: HostRow, ghost after: Locals)
      requires At(ctx, acts, k, start, View(l)) && k < |acts| && acts[k] == ReadHost
      ensures At(ctx, acts, k + 1, start, View(after)) && after == l.(host := row)
    {
      Next(ctx, acts, k, start, View(l));
      row := connection.GetHostState(ctx.node);
      after := l.(host := row);
    }

    method TransitionHostState(ctx: Ctx, ghost acts: seq<Act>, ghost k: nat, ghost start: Sys, ghost l: Locals,
      host: HostRow, target: HostState)
      returns (ok: bool, row: HostRow, ghost after: Locals)
      requires At(ctx, acts, k, start, View(l)) && k < |acts| && acts[k] == SetHost(target)
      requires l.host == host
      modifies connection.repository
      ensures Passed(ctx, acts, k, start, ok, View(after))
      ensures ok ==> after == l.(host := row)
    {
      Next(ctx, acts, k, start, View(l));
      var r := connection.TransitionHostState(ctx.node, host.revision, target, Some(ctx.plan));
      if r.Err? { return false, host, l; }
      return true, r.value, l.(host := r.value);
    }

    method TransitionHostWorkflowState(ctx: Ctx, ghost acts: seq<Act>, ghost k: nat, ghost start: Sys, ghost l: Locals,
      host: HostRow, target: WorkflowState)
      returns (ok: bool, row: HostRow, ghost after: Locals)
      requires At(ctx, acts, k, start, View(l)) && k < |acts| && acts[k] == SetHostWorkflow(target)
      requires l.host == host
      modifies connection.repository
      ensures Passed(ctx, acts, k, start, ok, View(after))
      ensures ok ==> after == l.(host := row)
    {
      Next(ctx, acts, k, start, View(l));
      var r := connection.TransitionHostWorkflowState(ctx.node, host.workflowRevision, target);
      if r.Err? { return false, host, l; }
      return true, r.value, l.(host := r.value);
    }

    method GetAvailableAssignment(ctx: Ctx, ghost acts: seq<Act>, ghost k: nat, ghost start: Sys, ghost l: Locals,
      id: AssignmentId)
      returns (ok: bool, row: AssignmentRow, ghost after: Locals)
      requires At(ctx, acts, k, start, View(l)) && k < |acts| && acts[k] == Collect(id)
      ensures Passed(ctx, acts, k, start, ok, View(after))
      ensures ok ==> after == l.(collected := l.collected[id := row]) && row == AssignmentOf(connection.repository.db, id)
    {
      Next(ctx, acts, k, start, View(l));
      row := connection.GetAssignmentState(id);
      ok := row.workflow == Available;
      after := if ok then l.(collected := l.collected[id := row]) else l;
    }

    method MarkPreparing(ctx: Ctx, ghost acts: seq<Act>, ghost k: nat, ghost start: Sys, ghost l: Locals,
      id: AssignmentId, revision: nat)
      returns (ok: bool)
      requires At(ctx, acts, k, start, View(l)) && k < |acts| && acts[k] == PrepareCollected(id)
      requires id in l.collected && l.collected[id].revision == revision
      modifies connection.repository
      ensures Passed(ctx, acts, k, start, ok, View(l))
    {
      Next(ctx, acts, k, start, View(l));
      var r := connection.TransitionAssignmentState(id, revision, Preparing, Some(ctx.plan));
      return r.Ok?;
    }

    method ClaimAssignment(ctx: Ctx, ghost acts: seq<Act>, ghost k: nat, ghost start: Sys, ghost l: Locals,
      id: AssignmentId, revision: nat)
      returns (ok: bool)
      requires At(ctx, acts, k, start, View(l)) && k < |acts| && acts[k] == ClaimTarget(id, revision)
      modifies connection.repository
      ensures Passed(ctx, acts, k, start, ok, View(l))
    {
      Next(ctx, acts, k, start, View(l));
      ok := connection.ClaimAssignment(id, revision, ctx.ticket.run);
    }

    method ReleaseAssignment(ctx: Ctx, ghost acts: seq<Act>, ghost k: nat, ghost start: Sys, ghost l: Locals,
      id: AssignmentId)
      returns (ok: bool)
      requires At(ctx, acts, k, start, View(l)) && k < |acts| && acts[k] == ReleaseTarget(id)
      modifies connection.repository
      ensures Passed(ctx, acts, k, start, ok, View(l))
    {
      Next(ctx, acts, k, start, View(l));
      ok := connection.ReleaseAssignment(id, ctx.ticket.run);
    }

    method GetAssignmentState(ctx: Ctx, ghost acts: seq<Act>, ghost k: nat, ghost start: Sys, ghost l: Locals,
      id: AssignmentId)
      returns (row: AssignmentRow, ghost after: Locals)
      requires At(ctx, acts, k, start, View(l)) && k < |acts| && acts[k] == Load(id)
      ensures At(ctx, acts, k + 1, start, View(after)) && after == l.(current := id, row := row)
    {
      Next(ctx, acts, k, start, View(l));
      row := connection.GetAssignmentState(id);
      after := l.(current := id, row := row);
    }

    method RequireAssignmentState(ctx: Ctx, ghost acts: seq<Act>, ghost k: nat, ghost start: Sys, ghost l: Locals,
      id: AssignmentId, expected: WorkflowState)
      returns (ok: bool, row: AssignmentRow, ghost after: Locals)
      requires At(ctx, acts, k, start, View(l)) && k < |acts| && acts[k] == Require(id, expected)
      ensures Passed(ctx, acts, k, start, ok, View(after))
      ensures ok ==> after == l.(current := id, row := row)
    {
      Next(ctx, acts, k, start, View(l));
      row := connection.GetAssignmentState(id);
      ok := row.plan == Some(ctx.plan) && row.workflow == expected;
      after := if ok then l.(current := id, row := row) else l;
    }

    method TransitionAssignmentState(ctx: Ctx, ghost acts: seq<Act>, ghost k: nat, ghost start: Sys, ghost l: Locals,
      id: AssignmentId, revision: nat, target: WorkflowState)
      returns (ok: bool, row: AssignmentRow, ghost after: Locals)
      requires At(ctx, acts, k, start, View(l)) && k < |acts| && acts[k] == SetState(target)
      requires l.current == id && l.row.revision == revision
      modifies connection.repository
      ensures Passed(ctx, acts, k, start, ok, View(after))
      ensures ok ==> after == l.(row := row)
    {
      Next(ctx, acts, k, start, View(l));
      var r := connection.TransitionAssignmentState(id, revision, target, Some(ctx.plan));
      if r.Err? {
        row := connection.GetAssignmentState(id);
        return false, row, l;
      }
      return true, r.value, l.(row := r.value);
    }

    method RecordHostStep(ctx: Ctx, ghost acts: seq<Act>, ghost k: nat, ghost start: Sys, ghost l: Locals,
      name: HostStepName, target: Option<AssignmentId>, effect: SideEffect, index: nat)
      returns (ok: bool)
      requires At(ctx, acts, k, start, View(l)) && k < |acts| && acts[k] == HostRecord(name, target, index, effect)
      modifies connection.repository
      ensures Passed(ctx, acts, k, start, ok, View(l))
    {
      Next(ctx, acts, k, start, View(l));
      var key := HostStep(name, target);
      var sequence := HostSequence(name, index);
      var row := CheckpointRow(key, sequence, effect, ctx.env.content(OfStep(key)));
      ok := connection.RecordStep(ctx.plan, StepEntry(sequence, OfStep(key), row));
    }

    method RecordStartedStep(ctx: Ctx, ghost acts: seq<Act>, ghost k: nat, ghost start: Sys, ghost l: Locals,
      name: ContainerStepName)
      returns (ok: bool)
      requires At(ctx, acts, k, start, View(l)) && k < |acts| && acts[k] == Started(name)
      modifies connection.repository
      ensures Passed(ctx, acts, k, start, ok, View(l))
    {
      Next(ctx, acts, k, start, View(l));
      var key := ContainerStep(name);
      var base := ContainerBase(name);
      var row := CheckpointRow(key, base, MayHaveStarted, ctx.env.content(Intent(name)));
      ok := connection.RecordStep(ctx.plan, StepEntry(base, Intent(name), row));
    }

    method RecordVerifiedStep(ctx: Ctx, ghost acts: seq<Act>, ghost k: nat, ghost start: Sys, ghost l: Locals,
      name: ContainerStepName)
      returns (ok: bool)
      requires At(ctx, acts, k, start, View(l)) && k < |acts| && acts[k] == Finished(name)
      modifies connection.repository
      ensures Passed(ctx, acts, k, start, ok, View(l))
    {
      Next(ctx, acts, k, start, View(l));
      var key := ContainerStep(name);
      var base := ContainerBase(name);
      var row := CheckpointRow(key, base + 1, EffectVerified, ctx.env.content(Verified(name)));
      ok := connection.RecordStep(ctx.plan, StepEntry(base, Verified(name), row));
    }

    method DurableBoundary(ctx: Ctx, ghost acts: seq<Act>, ghost k: nat, ghost start: Sys, ghost l: Locals)
      requires At(ctx, acts, k, start, View(l)) && k < |acts| && acts[k] == Act.Commit
      modifies connection
      ensures At(ctx, acts, k + 1, start, View(l))
    {
      Next(ctx, acts, k, start, View(l));
      connection.DurableBoundary();
    }

    /** One request to an adapter, and whether it was confirmed. */
    method Request(ctx: Ctx, ghost acts: seq<Act>, ghost k: nat, ghost start: Sys, ghost l: Locals,
      op: RemoteOp)
      returns (ok: bool)
      requires At(ctx, acts, k, start, View(l)) && k < |acts| && acts[k] == Ask(op)
      modifies connection
      ensures Passed(ctx, acts, k, start, ok, View(l))
    {
      Next(ctx, acts, k, start, View(l));
      connection.Request(ctx.plan, op, ctx.env.remote(op));
      return ctx.env.remote(op).Confirmed?;
    }

    method VerifyHostMaintenance(ctx: Ctx, ghost acts: seq<Act>, ghost k: nat, ghost start: Sys, ghost l: Locals)
      returns (ok: bool, complete: bool, ghost after: Locals)
      requires At(ctx, acts, k, start, View(l)) && k < |acts| && acts[k] == AskReturn
      modifies connection
      ensures Passed(ctx, acts, k, start, ok, View(after))
      ensures ok ==> after == l.(complete := complete)
    {
      Next(ctx, acts, k, start, View(l));
      var answer := ctx.env.remote(VerifyReturn);
      connection.Request(ctx.plan, VerifyReturn, answer);
      if answer.RemoteRaised? { return false, false, l; }
      complete := answer.Confirmed?;
      return true, complete, l.(complete := complete);
    }

    method RecordVerification(ctx: Ctx, ghost acts: seq<Act>, ghost k: nat, ghost start: Sys, ghost l: Locals,
      complete: bool)
      returns (ok: bool)
      requires At(ctx, acts, k, start, View(l)) && k < |acts| && acts[k] == RecordReturn
      requires l.complete == complete
      modifies connection.repository
      ensures Passed(ctx, acts, k, start, ok, View(l))
    {
      Next(ctx, acts, k, start, View(l));
      var key := HostStep(PostReturn, None);
      var sequence := HostSequence(PostReturn, 0);
      var effect := if complete then EffectVerified else MayHaveStarted;
      var row := CheckpointRow(key, sequence, effect, ctx.env.content(OfStep(key)));
      ok := connection.RecordStep(ctx.plan, StepEntry(sequence, OfStep(key), row));
    }

    method RequireComplete(ctx: Ctx, ghost acts: seq<Act>, ghost k: nat, ghost start: Sys, ghost l: Locals,
      complete: bool)
      returns (ok: bool)
      requires At(ctx, acts, k, start, View(l)) && k < |acts| && acts[k] == RequireReturn
      requires l.complete == complete
      ensures Passed(ctx, acts, k, start, ok, View(l))
    {
      Next(ctx, acts, k, start, View(l));
      return complete;
    }

    method RebootExecutorFor(ctx: Ctx, ghost acts: seq<Act>, ghost k: nat, ghost start: Sys, ghost l: Locals)
      returns (ok: bool)
      requires At(ctx, acts, k, start, View(l)) && k < |acts| && acts[k] == RequireExecutor
      ensures Passed(ctx, acts, k, start, ok, View(l))
    {
      Next(ctx, acts, k, start, View(l));
      return ctx.env.executorConfigured;
    }

    /** One call of the allocation guard service, whatever phase it reports. */
    method GuardOperation(ctx: Ctx, ghost acts: seq<Act>, ghost k: nat, ghost start: Sys, ghost l: Locals,
      op: GuardOp, cluster: ClusterId)
      returns (ok: bool)
      requires At(ctx, acts, k, start, View(l)) && k < |acts| && acts[k] == Guard(op, cluster)
      modifies connection, connection.repository
      ensures Passed(ctx, acts, k, start, ok, View(l))
    {
      Next(ctx, acts, k, start, View(l));
      var outcome := connection.GuardOperation(ctx, op, cluster);
      return outcome.Returned?;
    }
  }
}
