/** A maintenance that succeeds leaves everything as it found it: prepare, stop,
    an optional reboot and the return together form a round trip. */
module SagaRoundTrip {
  import opened Wrappers
  import opened Lifecycle
  import opened Store
  import opened Saga
  import E = Execution
  import M = SagaMaintenance
  import R = SagaRecovery

  // Stops and starts: the unit calls of an action that completes are its unit
  // requests, in order, each confirmed.

  predicate UnitCall(call: Call) {
    call.Remote? && (call.op.StopUnit? || call.op.StartUnit?)
  }

  function UnitCalls(calls: seq<Call>): seq<Call>
    decreases |calls|
  {
    if calls == [] then []
    else UnitCalls(calls[..|calls| - 1]) + (if UnitCall(calls[|calls| - 1]) then [calls[|calls| - 1]] else [])
  }

  predicate AsksUnit(act: Act) {
    act.Ask? && (act.op.StopUnit? || act.op.StartUnit?)
  }

  function Asked(plan: PlanId, act: Act): seq<Call> {
    if AsksUnit(act) then [Remote(plan, act.op, Confirmed)] else []
  }

  function UnitAsks(plan: PlanId, acts: seq<Act>): seq<Call>
    decreases |acts|
  {
    if acts == [] then [] else Asked(plan, acts[0]) + UnitAsks(plan, acts[1..])
  }

  lemma {:induction false} AsksAppend(plan: PlanId, a: seq<Act>, b: seq<Act>)
    ensures UnitAsks(plan, a + b) == UnitAsks(plan, a) + UnitAsks(plan, b)
    decreases |a|
  {
    if a == [] {
      assert a + b == b;
    } else {
      assert (a + b)[0] == a[0] && (a + b)[1..] == a[1..] + b;
      AsksAppend(plan, a[1..], b);
    }
  }

  lemma {:induction false} AsksNone(plan: PlanId, acts: seq<Act>)
    requires forall act :: act in acts ==> !AsksUnit(act)
    ensures UnitAsks(plan, acts) == []
    decreases |acts|
  {
    if acts != [] {
      assert acts[0] in acts;
      AsksNone(plan, acts[1..]);
    }
  }

  lemma AsksOne(plan: PlanId, before: seq<Act>, act: Act, after: seq<Act>)
    requires AsksUnit(act) && (forall a :: a in before ==> !AsksUnit(a)) && (forall a :: a in after ==> !AsksUnit(a))
    ensures UnitAsks(plan, before + [act] + after) == [Remote(plan, act.op, Confirmed)]
  {
    AsksAppend(plan, before + [act], after);
    AsksAppend(plan, before, [act]);
    AsksNone(plan, before);
    AsksNone(plan, after);
    assert [act][1..] == [];
  }

  lemma StepUnitCalls(ctx: Ctx, s: Sys, act: Act)
    requires Step(ctx, s, act).Running?
    ensures UnitCalls(Step(ctx, s, act).sys.calls) == UnitCalls(s.calls) + Asked(ctx.plan, act)
  {
    var after := Step(ctx, s, act).sys;
    if after.calls != s.calls {
      assert after.calls[..|after.calls| - 1] == s.calls;
    }
  }

  lemma {:induction false} ExecUnitCalls(ctx: Ctx, acts: seq<Act>, s: Sys)
    requires Exec(ctx, acts, s).Running?
    ensures UnitCalls(Exec(ctx, acts, s).sys.calls) == UnitCalls(s.calls) + UnitAsks(ctx.plan, acts)
    decreases |acts|
  {
    if acts != [] {
      StepUnitCalls(ctx, s, acts[0]);
      ExecUnitCalls(ctx, acts[1..], Step(ctx, s, acts[0]).sys);
    }
  }

  function Stops(plan: PlanId, targets: seq<Target>): seq<Call> {
    if targets == [] then [] else [Remote(plan, StopUnit(targets[0].id), Confirmed)] + Stops(plan, targets[1..])
  }

  function Starts(plan: PlanId, targets: seq<Target>): seq<Call> {
    if targets == [] then [] else [Remote(plan, StartUnit(targets[0].id), Confirmed)] + Starts(plan, targets[1..])
  }

  lemma StopOneAsks(plan: PlanId, t: Target, index: nat)
    ensures UnitAsks(plan, StopOne(t, index)) == [Remote(plan, StopUnit(t.id), Confirmed)]
  {
    var one := StopOne(t, index);
    AsksOne(plan, one[..4], one[4], one[5..]);
    assert one == one[..4] + [one[4]] + one[5..];
  }

  lemma ReturnOneAsks(plan: PlanId, t: Target, index: nat)
    ensures UnitAsks(plan, ReturnOne(t, index)) == [Remote(plan, StartUnit(t.id), Confirmed)]
  {
    var one := ReturnOne(t, index);
    AsksOne(plan, one[..4], one[4], one[5..]);
    assert one == one[..4] + [one[4]] + one[5..];
  }

  lemma {:induction false} StopAllAsks(plan: PlanId, targets: seq<Target>, index: nat)
    ensures UnitAsks(plan, StopAll(targets, index)) == Stops(plan, targets)
    decreases |targets|
  {
    if targets != [] {
      AsksAppend(plan, StopOne(targets[0], index), StopAll(targets[1..], index + 1));
      StopOneAsks(plan, targets[0], index);
      StopAllAsks(plan, targets[1..], index + 1);
    }
  }

  lemma {:induction false} ReturnAllAsks(plan: PlanId, targets: seq<Target>, index: nat)
    ensures UnitAsks(plan, ReturnAll(targets, index)) == Starts(plan, targets)
    decreases |targets|
  {
    if targets != [] {
      AsksAppend(plan, ReturnOne(targets[0], index), ReturnAll(targets[1..], index + 1));
      ReturnOneAsks(plan, targets[0], index);
      ReturnAllAsks(plan, targets[1..], index + 1);
    }
  }

  lemma {:induction false} EachQuiet(targets: seq<Target>)
    ensures forall act :: act in CollectAll(targets) ==> act.Collect?
    ensures forall act :: act in PrepareAll(targets) ==> act.PrepareCollected?
    ensures forall act :: act in ClaimAll(targets) ==> act.ClaimTarget?
    ensures forall act :: act in ReadyAll(targets) ==> act.Load? || act.SetState?
    ensures forall act :: act in CompleteAll(targets) ==> act.Require? || act.SetState? || act.ReleaseTarget?
    decreases |targets|
  {
    if targets != [] {
      EachQuiet(targets[1..]);
    }
  }

  lemma PrepareAsks(plan: PlanId, targets: seq<Target>)
    ensures UnitAsks(plan, HostPrepare(targets)) == []
  {
    EachQuiet(targets);
    R.GuardsSteady(DataClusters(targets));
    AsksNone(plan, HostPrepare(targets));
  }

  lemma StopAsks(plan: PlanId, targets: seq<Target>)
    ensures UnitAsks(plan, HostStop(targets)) == Stops(plan, StopOrder(targets))
  {
    var loop, tail := StopAll(StopOrder(targets), 1), [SetHostWorkflow(Maintenance), SetHost(HostMaintenance)];
    AsksAppend(plan, [SetHostWorkflow(Stopping)] + loop, tail);
    AsksAppend(plan, [SetHostWorkflow(Stopping)], loop);
    AsksNone(plan, tail);
    AsksNone(plan, [SetHostWorkflow(Stopping)]);
    StopAllAsks(plan, StopOrder(targets), 1);
  }

  /** The return after its loop. */
  function ReturnTail(targets: seq<Target>, rebooted: bool): seq<Act> {
    UnguardAll(DataClusters(targets)) + VerifyAll() + Cleanup(rebooted)
  }

  lemma ClosingQuiet(rebooted: bool)
    ensures forall act :: act in VerifyAll() + Cleanup(rebooted) ==> !AsksUnit(act) && !act.ClaimTarget? && !act.ReleaseTarget?
    ensures forall act :: act in Rediscovery() ==> !AsksUnit(act) && !act.ClaimTarget? && !act.ReleaseTarget?
  {
  }

  lemma ReturnTailQuiet(targets: seq<Target>, rebooted: bool)
    ensures forall act :: act in ReturnTail(targets, rebooted) ==> !AsksUnit(act) && !act.ClaimTarget? && !act.ReleaseTarget?
  {
    R.GuardsSteady(DataClusters(targets));
    ClosingQuiet(rebooted);
    assert ReturnTail(targets, rebooted) == UnguardAll(DataClusters(targets)) + (VerifyAll() + Cleanup(rebooted));
  }

  function Completion(targets: seq<Target>): seq<Act> {
    [FinalizePlan] + CompleteAll(targets) + [SetHost(HostAvailable)]
  }

  lemma ReturnParts(targets: seq<Target>, rebooted: bool)
    ensures HostReturn(targets, rebooted)
         == Rediscovery() + ReturnAll(StartOrder(targets), 1) + ReturnTail(targets, rebooted) + Completion(targets)
  {
    var start := Rediscovery() + ReturnAll(StartOrder(targets), 1);
    Regrouped(start, UnguardAll(DataClusters(targets)), VerifyAll(), Cleanup(rebooted));
    Regrouped(HostReturnWork(targets, rebooted), [FinalizePlan], CompleteAll(targets), [SetHost(HostAvailable)]);
  }

  lemma Regrouped(a: seq<Act>, b: seq<Act>, c: seq<Act>, d: seq<Act>)
    ensures a + b + c + d == a + (b + c + d)
  {
  }

  lemma CompletionQuiet(targets: seq<Target>)
    ensures forall act :: act in Completion(targets) ==> !AsksUnit(act) && !act.ClaimTarget?
  {
    EachQuiet(targets);
  }

  lemma AsksInside(plan: PlanId, a: seq<Act>, b: seq<Act>, c: seq<Act>)
    requires (forall act :: act in a ==> !AsksUnit(act)) && (forall act :: act in c ==> !AsksUnit(act))
    ensures UnitAsks(plan, a + b + c) == UnitAsks(plan, b)
  {
    AsksAppend(plan, a + b, c);
    AsksAppend(plan, a, b);
    AsksNone(plan, a);
    AsksNone(plan, c);
  }

  lemma ReturnAsks(plan: PlanId, targets: seq<Target>, rebooted: bool)
    ensures UnitAsks(plan, HostReturn(targets, rebooted)) == Starts(plan, StartOrder(targets))
  {
    var loop, tail := ReturnAll(StartOrder(targets), 1), ReturnTail(targets, rebooted);
    ReturnParts(targets, rebooted);
    ReturnTailQuiet(targets, rebooted);
    ClosingQuiet(rebooted);
    CompletionQuiet(targets);
    AsksInside(plan, Rediscovery(), loop, tail);
    AsksInside(plan, [], Rediscovery() + loop + tail, Completion(targets));
    assert [] + (Rediscovery() + loop + tail) == Rediscovery() + loop + tail;
    ReturnAllAsks(plan, StartOrder(targets), 1);
  }

  // Claims.

  predicate MovesClaim(act: Act) {
    act.ClaimTarget? || act.ReleaseTarget?
  }

  lemma StepClaims(ctx: Ctx, s: Sys, act: Act)
    requires R.Proper(ctx) && !MovesClaim(act)
    ensures Step(ctx, s, act).sys.db.workloads == s.db.workloads
  {
    if act.Guard? {
      R.GuardTables(ctx, s, act.guard, act.cluster);
    } else if act.FinalizePlan? {
      R.FinalizeTables(ctx, s);
    } else if Records(act) {
      R.RecordTables(ctx, s, act);
    }
  }

  lemma {:induction false} ExecClaims(ctx: Ctx, acts: seq<Act>, s: Sys)
    requires R.Proper(ctx) && forall act :: act in acts ==> !MovesClaim(act)
    ensures Exec(ctx, acts, s).sys.db.workloads == s.db.workloads
    decreases |acts|
  {
    if acts != [] {
      assert acts[0] in acts;
      StepClaims(ctx, s, acts[0]);
      if Step(ctx, s, acts[0]).Running? {
        ExecClaims(ctx, acts[1..], Step(ctx, s, acts[0]).sys);
      }
    }
  }

  function IdSet(targets: seq<Target>): set<AssignmentId> {
    set t | t in targets :: t.id
  }

  predicate Distinct(targets: seq<Target>) {
    forall i, j :: 0 <= i < j < |targets| ==> targets[i].id != targets[j].id
  }

  /** Every workload's claim, as this operation leaves it on the given ids. */
  function WithClaims(w: map<AssignmentId, WorkloadRow>, ids: set<AssignmentId>, claim: Option<RunId>): map<AssignmentId, WorkloadRow> {
    map id | id in w :: if id in ids then w[id].(operation := claim) else w[id]
  }

  predicate Unclaimed(w: map<AssignmentId, WorkloadRow>, ids: set<AssignmentId>) {
    forall id :: id in ids ==> id in w && w[id].operation == None
  }

  /** Claiming all targets succeeds only when they are distinct and unclaimed. */
  lemma {:induction false} ClaimAllClaims(ctx: Ctx, targets: seq<Target>, s: Sys)
    requires Exec(ctx, ClaimAll(targets), s).Running?
    ensures Distinct(targets) && Unclaimed(s.db.workloads, IdSet(targets))
    ensures Exec(ctx, ClaimAll(targets), s).sys.db.workloads == WithClaims(s.db.workloads, IdSet(targets), Some(ctx.ticket.run))
    decreases |targets|
  {
    if targets == [] {
      assert IdSet(targets) == {};
    } else {
      var t := targets[0];
      var next := Step(ctx, s, ClaimTarget(t.id, t.revision)).sys;
      assert ClaimAll(targets)[1..] == ClaimAll(targets[1..]);
      ClaimAllClaims(ctx, targets[1..], next);
      ClaimedOnce(s.db.workloads, next.db.workloads, targets, Some(ctx.ticket.run));
    }
  }

  lemma ClaimedOnce(w: map<AssignmentId, WorkloadRow>, next: map<AssignmentId, WorkloadRow>, targets: seq<Target>, run: Option<RunId>)
    requires run.Some? && targets != [] && targets[0].id in w && w[targets[0].id].operation == None
    requires next == w[targets[0].id := w[targets[0].id].(operation := run)]
    requires Distinct(targets[1..]) && Unclaimed(next, IdSet(targets[1..]))
    ensures Distinct(targets) && Unclaimed(w, IdSet(targets))
    ensures WithClaims(next, IdSet(targets[1..]), run) == WithClaims(w, IdSet(targets), run)
  {
    assert targets == [targets[0]] + targets[1..];
    assert IdSet(targets) == {targets[0].id} + IdSet(targets[1..]);
    forall j | 0 < j < |targets| ensures targets[0].id != targets[j].id {
      assert targets[j] == targets[1..][j - 1];
      assert targets[j].id in IdSet(targets[1..]);
    }
    forall i, j | 0 <= i < j < |targets| ensures targets[i].id != targets[j].id {
      if i > 0 {
        assert targets[i] == targets[1..][i - 1] && targets[j] == targets[1..][j - 1];
      }
    }
  }

  /** A prepare is its claims with nothing that touches a claim on either side. */
  function BeforeClaims(targets: seq<Target>): seq<Act> {
    [ReadHost, SetHost(HostPlanning)] + CollectAll(targets) + PrepareAll(targets)
  }

  function AfterClaims(targets: seq<Target>): seq<Act> {
    ReadyAll(targets) + [HostRecord(Prepare, None, 0, EffectVerified)] + GuardAll(DataClusters(targets)) + [SetHostWorkflow(ReadyToStop)]
  }

  lemma PrepareParts(targets: seq<Target>)
    ensures HostPrepare(targets) == BeforeClaims(targets) + ClaimAll(targets) + AfterClaims(targets)
    ensures forall act :: act in BeforeClaims(targets) ==> !MovesClaim(act)
    ensures forall act :: act in AfterClaims(targets) ==> !MovesClaim(act)
  {
    EachQuiet(targets);
    R.GuardsSteady(DataClusters(targets));
  }

  lemma HostPrepareClaims(ctx: Ctx, targets: seq<Target>, s: Sys)
    requires R.Proper(ctx) && Exec(ctx, HostPrepare(targets), s).Running?
    ensures Distinct(targets) && Unclaimed(s.db.workloads, IdSet(targets))
    ensures Exec(ctx, HostPrepare(targets), s).sys.db.workloads == WithClaims(s.db.workloads, IdSet(targets), Some(ctx.ticket.run))
  {
    var before, after := BeforeClaims(targets), AfterClaims(targets);
    PrepareParts(targets);
    ExecAppend(ctx, before + ClaimAll(targets), after, s);
    ExecAppend(ctx, before, ClaimAll(targets), s);
    ExecClaims(ctx, before, s);
    ClaimAllClaims(ctx, targets, Exec(ctx, before, s).sys);
    ExecClaims(ctx, after, Exec(ctx, before + ClaimAll(targets), s).sys);
  }

  lemma {:induction false} StopAllQuiet(targets: seq<Target>, index: nat)
    ensures forall act :: act in StopAll(targets, index) ==> !MovesClaim(act)
    decreases |targets|
  {
    if targets != [] {
      StopAllQuiet(targets[1..], index + 1);
    }
  }

  lemma {:induction false} ReturnAllQuiet(targets: seq<Target>, index: nat)
    ensures forall act :: act in ReturnAll(targets, index) ==> !MovesClaim(act)
    decreases |targets|
  {
    if targets != [] {
      ReturnAllQuiet(targets[1..], index + 1);
    }
  }

  lemma HostReturnWorkQuiet(targets: seq<Target>, rebooted: bool)
    ensures forall act :: act in HostReturnWork(targets, rebooted) ==> !MovesClaim(act)
    ensures HostReturnWork(targets, rebooted) == Rediscovery() + ReturnAll(StartOrder(targets), 1) + ReturnTail(targets, rebooted)
  {
    ReturnAllQuiet(StartOrder(targets), 1);
    ReturnTailQuiet(targets, rebooted);
    ClosingQuiet(rebooted);
  }

  // Locks and the plan.

  lemma StepLocks(ctx: Ctx, s: Sys, act: Act)
    requires !act.FinalizePlan?
    ensures Step(ctx, s, act).sys.db.locks == s.db.locks
  {
    if act.Guard? {
      R.GuardTables(ctx, s, act.guard, act.cluster);
    } else if Records(act) {
      R.RecordTables(ctx, s, act);
    } else if R.MovesRow(act) {
      MoveLocks(ctx, s, act);
    }
  }

  lemma MoveLocks(ctx: Ctx, s: Sys, act: Act)
    requires R.MovesRow(act)
    ensures Step(ctx, s, act).sys.db.locks == s.db.locks
  {
  }

  lemma {:induction false} ExecLocks(ctx: Ctx, acts: seq<Act>, s: Sys)
    requires forall act :: act in acts ==> !act.FinalizePlan?
    ensures Exec(ctx, acts, s).sys.db.locks == s.db.locks
    decreases |acts|
  {
    if acts != [] {
      assert acts[0] in acts;
      StepLocks(ctx, s, acts[0]);
      if Step(ctx, s, acts[0]).Running? {
        ExecLocks(ctx, acts[1..], Step(ctx, s, acts[0]).sys);
      }
    }
  }

  lemma WorkLocks(ctx: Ctx, action: R.HostAction, targets: seq<Target>, s: Sys)
    ensures Exec(ctx, R.Work(action, targets), s).sys.db.locks == s.db.locks
  {
    R.WorkSound(action, targets);
    ExecLocks(ctx, R.Work(action, targets), s);
  }

  lemma ReleaseFrees(db: Db, plan: PlanId, now: int, after: Db)
    requires E.TokensOk(db) && E.ReleaseActiveSpec(db, plan, now) == Ok(after)
    ensures ActiveLocks(after, plan) == {} && after.plans == db.plans
  {
    var token := E.TokenOf(db, plan);
    if token.Some? {
      var first :| first in db.locks && db.locks[first] == LockRow(plan, token.value, db.locks[first].expires);
      forall s | s in db.locks && db.locks[s].owner == plan ensures db.locks[s].token == token.value {
        assert db.locks[s].owner == db.locks[first].owner;
      }
    }
  }

  /** An accepted close leaves the plan succeeded and without a lock. */
  lemma CloseSucceeds(ctx: Ctx, s: Sys)
    requires R.Proper(ctx) && E.TokensOk(s.db) && Finalized(ctx, s).Running?
    ensures var after := Finalized(ctx, s).sys.db;
      && ctx.plan in after.plans && after.plans[ctx.plan].state == Succeeded && ActiveLocks(after, ctx.plan) == {}
  {
    var after := Finalized(ctx, s).sys.db;
    if s.db.plans[ctx.plan].state == Succeeded {
      ReleaseFrees(s.db, ctx.plan, ctx.env.now, after);
    } else {
      var moved := E.TransitionForResult(s.db, ctx.plan, Succeeded).value;
      R.MoveTables(s.db, ctx.plan, moved);
      assert moved.plans[ctx.plan].state == Succeeded;
      ReleaseFrees(moved, ctx.plan, ctx.env.now, after);
    }
  }

  // The end of the return.

  predicate Free(db: Db, id: AssignmentId) {
    AssignmentOf(db, id).workflow == Available && AssignmentOf(db, id).plan == None
  }

  lemma CompleteOne(ctx: Ctx, s: Sys, t: Target)
    requires Exec(ctx, [Require(t.id, Verifying), SetState(Available), ReleaseTarget(t.id)], s).Running?
    ensures var after := Exec(ctx, [Require(t.id, Verifying), SetState(Available), ReleaseTarget(t.id)], s).sys;
      && AssignmentOf(s.db, t.id).workflow == Verifying && Free(after.db, t.id)
      && (forall id :: id != t.id ==> AssignmentOf(after.db, id) == AssignmentOf(s.db, id))
      && t.id in s.db.workloads
      && after.db.workloads == s.db.workloads[t.id := s.db.workloads[t.id].(operation := None)]
      && after.db.plans == s.db.plans && after.db.locks == s.db.locks
  {
    hide Saga.Exec;
    var head := [Require(t.id, Verifying), SetState(Available)];
    assert [Require(t.id, Verifying), SetState(Available), ReleaseTarget(t.id)] == head + [ReleaseTarget(t.id)];
    ExecAppend(ctx, head, [ReleaseTarget(t.id)], s);
    M.Holding(ctx, s, t.id, Verifying, Available);
    var mid := Exec(ctx, head, s).sys;
    M.OneStep(ctx, ReleaseTarget(t.id), mid);
  }

  lemma {:induction false} CompleteAllFrees(ctx: Ctx, targets: seq<Target>, s: Sys)
    requires Exec(ctx, CompleteAll(targets), s).Running?
    ensures var after := Exec(ctx, CompleteAll(targets), s).sys;
      && (forall t :: t in targets ==> Free(after.db, t.id))
      && (forall id :: Free(s.db, id) ==> Free(after.db, id))
      && after.db.workloads == WithClaims(s.db.workloads, IdSet(targets), None)
      && after.db.plans == s.db.plans && after.db.locks == s.db.locks
    decreases |targets|
  {
    hide Saga.Step;
    if targets == [] {
      assert IdSet(targets) == {};
    } else {
      var t := targets[0];
      var one := [Require(t.id, Verifying), SetState(Available), ReleaseTarget(t.id)];
      ExecAppend(ctx, one, CompleteAll(targets[1..]), s);
      CompleteOne(ctx, s, t);
      var next := Exec(ctx, one, s).sys;
      CompleteAllFrees(ctx, targets[1..], next);
      assert targets == [t] + targets[1..];
      assert IdSet(targets) == {t.id} + IdSet(targets[1..]);
      assert WithClaims(next.db.workloads, IdSet(targets[1..]), None) == WithClaims(s.db.workloads, IdSet(targets), None);
    }
  }

  lemma ClaimsReturn(w: map<AssignmentId, WorkloadRow>, ids: set<AssignmentId>, run: Option<RunId>)
    requires Unclaimed(w, ids)
    ensures WithClaims(WithClaims(w, ids, run), ids, None) == w
  {
  }

  /** What holds when a return has completed. */
  ghost predicate BackInService(before: Sys, after: Sys, ctx: Ctx, targets: seq<Target>) {
    && (forall t :: t in targets ==> Free(after.db, t.id))
    && after.db.workloads == WithClaims(before.db.workloads, IdSet(targets), None)
    && HostOf(after.db, ctx.node).state == HostAvailable && HostOf(after.db, ctx.node).plan == None
    && HostOf(after.db, ctx.node).workflow == Available
    && ctx.plan in after.db.plans && after.db.plans[ctx.plan].state == Succeeded
    && ActiveLocks(after.db, ctx.plan) == {}
  }

  lemma ReturnCompletes(ctx: Ctx, targets: seq<Target>, rebooted: bool, s: Sys, end: Sys)
    requires R.Proper(ctx) && E.TokensOk(s.db) && Exec(ctx, HostReturn(targets, rebooted), s) == Running(end)
    ensures BackInService(s, end, ctx, targets)
  {
    var work := HostReturnWork(targets, rebooted);
    ExecAppend(ctx, work + [FinalizePlan] + CompleteAll(targets), [SetHost(HostAvailable)], s);
    ExecAppend(ctx, work + [FinalizePlan], CompleteAll(targets), s);
    ExecAppend(ctx, work, [FinalizePlan], s);
    WorkLocks(ctx, R.ReturnAction(rebooted), targets, s);
    HostReturnWorkQuiet(targets, rebooted);
    ExecClaims(ctx, work, s);
    var worked := Exec(ctx, work, s).sys;
    var freed := Exec(ctx, [FinalizePlan], worked).sys;
    var done := Exec(ctx, CompleteAll(targets), freed).sys;
    EndCompletes(ctx, targets, worked, freed, done, end);
  }

  lemma EndCompletes(ctx: Ctx, targets: seq<Target>, s: Sys, freed: Sys, done: Sys, end: Sys)
    requires R.Proper(ctx) && E.TokensOk(s.db)
    requires Exec(ctx, [FinalizePlan], s) == Running(freed)
    requires Exec(ctx, CompleteAll(targets), freed) == Running(done)
    requires Exec(ctx, [SetHost(HostAvailable)], done) == Running(end)
    ensures BackInService(s, end, ctx, targets)
  {
    PlanClosed(ctx, s, freed);
    CompleteAllFrees(ctx, targets, freed);
    M.OneStep(ctx, SetHost(HostAvailable), done);
    HostFreed(ctx, done);
    SameLocks(freed.db, end.db, ctx.plan);
  }

  lemma SameLocks(a: Db, b: Db, plan: PlanId)
    requires a.locks == b.locks
    ensures ActiveLocks(a, plan) == ActiveLocks(b, plan)
  {
  }

  lemma PlanClosed(ctx: Ctx, s: Sys, freed: Sys)
    requires R.Proper(ctx) && E.TokensOk(s.db) && Exec(ctx, [FinalizePlan], s) == Running(freed)
    ensures ctx.plan in freed.db.plans && freed.db.plans[ctx.plan].state == Succeeded && ActiveLocks(freed.db, ctx.plan) == {}
    ensures freed.db.workloads == s.db.workloads
  {
    M.OneStep(ctx, FinalizePlan, s);
    CloseSucceeds(ctx, s);
    R.FinalizeTables(ctx, s);
  }

  lemma HostFreed(ctx: Ctx, s: Sys)
    requires Step(ctx, s, SetHost(HostAvailable)).Running?
    ensures var after := Step(ctx, s, SetHost(HostAvailable)).sys.db;
      && after == s.db.(hosts := after.hosts)
      && HostOf(after, ctx.node).state == HostAvailable && HostOf(after, ctx.node).plan == None && HostOf(after, ctx.node).workflow == Available
  {
  }

  function Entered(ctx: Ctx, s: Sys): Sys {
    s.(locals := s.locals.(host := HostOf(s.db, ctx.node)))
  }

  /** One maintenance, action by action: the contexts differ only in what the
      adapters answer and in the time. */
  datatype Journey = Journey(prepare: Ctx, stop: Ctx, reboot: Ctx, back: Ctx, targets: seq<Target>, rebooted: bool)

  predicate OnePlan(j: Journey) {
    && R.Proper(j.prepare) && R.Proper(j.stop) && R.Proper(j.reboot) && R.Proper(j.back)
    && j.prepare.plan == j.stop.plan == j.reboot.plan == j.back.plan
    && j.prepare.node == j.stop.node == j.reboot.node == j.back.node
    && j.prepare.ticket.run == j.back.ticket.run
  }

  ghost predicate Completes(j: Journey, s: Sys, prepared: Sys, stopped: Sys, rebooted: Sys, end: Sys) {
    && Exec(j.prepare, HostPrepare(j.targets), s) == Running(prepared)
    && Exec(j.stop, HostStop(j.targets), Entered(j.stop, prepared)) == Running(stopped)
    && (if j.rebooted then Exec(j.reboot, HostReboot(), Entered(j.reboot, stopped)) == Running(rebooted) else rebooted == stopped)
    && Exec(j.back, HostReturn(j.targets, j.rebooted), Entered(j.back, rebooted)) == Running(end)
  }

  /** Main round-trip result, for any targets and any answers under which all
      actions complete: every target is available again under no plan, the
      workload claims are exactly those of before, the host is available, the
      plan has succeeded and holds no lock; and the units asked to stop and to
      start, all confirmed, are the targets in stop order and then the targets
      in start order. The targets are distinct, so that is once each. */
  lemma RoundTrip(j: Journey, s: Sys, prepared: Sys, stopped: Sys, rebooted: Sys, end: Sys)
    requires OnePlan(j) && E.TokensOk(s.db) && Completes(j, s, prepared, stopped, rebooted, end)
    ensures BackInService(rebooted, end, j.back, j.targets)
    ensures end.db.workloads == s.db.workloads
    ensures UnitCalls(end.calls)
         == UnitCalls(s.calls) + Stops(j.back.plan, StopOrder(j.targets)) + Starts(j.back.plan, StartOrder(j.targets))
    ensures Distinct(j.targets)
    ensures multiset(StopOrder(j.targets)) == multiset(j.targets) == multiset(StartOrder(j.targets))
  {
    JourneyClaims(j, s, prepared, stopped, rebooted, end);
    JourneyCalls(j, s, prepared, stopped, rebooted, end);
    ReturnCompletes(j.back, j.targets, j.rebooted, Entered(j.back, rebooted), end);
    ClaimsReturn(s.db.workloads, IdSet(j.targets), Some(j.back.ticket.run));
    M.SortedMembers(StopPriority, j.targets);
    M.SortedMembers(StartPriority, j.targets);
  }

  lemma JourneyClaims(j: Journey, s: Sys, prepared: Sys, stopped: Sys, rebooted: Sys, end: Sys)
    requires OnePlan(j) && E.TokensOk(s.db) && Completes(j, s, prepared, stopped, rebooted, end)
    ensures Distinct(j.targets) && Unclaimed(s.db.workloads, IdSet(j.targets))
    ensures rebooted.db.workloads == WithClaims(s.db.workloads, IdSet(j.targets), Some(j.back.ticket.run))
    ensures E.TokensOk(rebooted.db)
  {
    HostPrepareClaims(j.prepare, j.targets, s);
    WorkLocks(j.prepare, R.PrepareAction, j.targets, s);
    StopKeeps(j.stop, j.targets, Entered(j.stop, prepared));
    if j.rebooted {
      RebootKeeps(j.reboot, j.targets, Entered(j.reboot, stopped));
    }
  }

  lemma StopKeeps(ctx: Ctx, targets: seq<Target>, s: Sys)
    requires R.Proper(ctx)
    ensures var after := Exec(ctx, HostStop(targets), s).sys.db; after.workloads == s.db.workloads && after.locks == s.db.locks
  {
    StopAllQuiet(StopOrder(targets), 1);
    ExecClaims(ctx, HostStop(targets), s);
    WorkLocks(ctx, R.StopAction, targets, s);
  }

  lemma RebootKeeps(ctx: Ctx, targets: seq<Target>, s: Sys)
    requires R.Proper(ctx)
    ensures var after := Exec(ctx, HostReboot(), s).sys.db; after.workloads == s.db.workloads && after.locks == s.db.locks
  {
    ExecClaims(ctx, HostReboot(), s);
    WorkLocks(ctx, R.RebootAction, targets, s);
  }

  lemma JourneyCalls(j: Journey, s: Sys, prepared: Sys, stopped: Sys, rebooted: Sys, end: Sys)
    requires OnePlan(j) && Completes(j, s, prepared, stopped, rebooted, end)
    ensures UnitCalls(end.calls)
         == UnitCalls(s.calls) + Stops(j.back.plan, StopOrder(j.targets)) + Starts(j.back.plan, StartOrder(j.targets))
  {
    PrepareCalls(j.prepare, j.targets, s);
    StopCalls(j.stop, j.targets, Entered(j.stop, prepared));
    if j.rebooted {
      RebootCalls(j.reboot, Entered(j.reboot, stopped));
    }
    ReturnCalls(j.back, j.targets, j.rebooted, Entered(j.back, rebooted));
  }

  lemma PrepareCalls(ctx: Ctx, targets: seq<Target>, s: Sys)
    requires Exec(ctx, HostPrepare(targets), s).Running?
    ensures UnitCalls(Exec(ctx, HostPrepare(targets), s).sys.calls) == UnitCalls(s.calls)
  {
    ExecUnitCalls(ctx, HostPrepare(targets), s);
    PrepareAsks(ctx.plan, targets);
  }

  lemma StopCalls(ctx: Ctx, targets: seq<Target>, s: Sys)
    requires Exec(ctx, HostStop(targets), s).Running?
    ensures UnitCalls(Exec(ctx, HostStop(targets), s).sys.calls) == UnitCalls(s.calls) + Stops(ctx.plan, StopOrder(targets))
  {
    ExecUnitCalls(ctx, HostStop(targets), s);
    StopAsks(ctx.plan, targets);
  }

  lemma RebootCalls(ctx: Ctx, s: Sys)
    requires Exec(ctx, HostReboot(), s).Running?
    ensures UnitCalls(Exec(ctx, HostReboot(), s).sys.calls) == UnitCalls(s.calls)
  {
    ExecUnitCalls(ctx, HostReboot(), s);
    AsksNone(ctx.plan, HostReboot());
  }

  lemma ReturnCalls(ctx: Ctx, targets: seq<Target>, rebooted: bool, s: Sys)
    requires Exec(ctx, HostReturn(targets, rebooted), s).Running?
    ensures UnitCalls(Exec(ctx, HostReturn(targets, rebooted), s).sys.calls) == UnitCalls(s.calls) + Starts(ctx.plan, StartOrder(targets))
  {
    ExecUnitCalls(ctx, HostReturn(targets, rebooted), s);
    ReturnAsks(ctx.plan, targets, rebooted);
  }
}
