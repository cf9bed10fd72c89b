/** What a completed action has done to the clusters' allocation guards. The
    workflow does not look at the phase that a guard operation reports. */
module SagaGuards {
  import opened Wrappers
  import opened AllocationSettings
  import opened Lifecycle
  import opened Store
  import opened Saga
  import E = Execution
  import G = AllocationGuard
  import GR = AllocationGuardRuns
  import J = SagaJourney
  import M = SagaMaintenance
  import P = SagaProgress
  import R = SagaRecovery
  import T = SagaRoundTrip
  import X = ExecutionRuns

  // One cluster's guard changes only where the program names that cluster.

  predicate Elsewhere(act: Act, cluster: ClusterId) {
    act.Guard? ==> act.cluster != cluster
  }

  lemma OtherGuards(ctx: Ctx, s: Sys, act: Act)
    requires R.Proper(ctx) && !act.Guard?
    ensures Step(ctx, s, act).sys.db.guards == s.db.guards && Step(ctx, s, act).sys.layers == s.layers
  {
    if act.FinalizePlan? {
      R.FinalizeTables(ctx, s);
      P.FinalizedElsewhere(ctx, s);
    } else if Records(act) {
      R.RecordTables(ctx, s, act);
      RecordLayers(ctx, s, act);
    } else if R.MovesRow(act) {
      MoveGuards(ctx, s, act);
    }
  }

  lemma RecordLayers(ctx: Ctx, s: Sys, act: Act)
    requires Records(act)
    ensures Step(ctx, s, act).sys.layers == s.layers
  {
    hide RecordStep;
  }

  lemma MoveGuards(ctx: Ctx, s: Sys, act: Act)
    requires R.MovesRow(act)
    ensures Step(ctx, s, act).sys.db.guards == s.db.guards && Step(ctx, s, act).sys.layers == s.layers
  {
  }

  lemma StepElsewhere(ctx: Ctx, s: Sys, act: Act, cluster: ClusterId)
    requires R.Proper(ctx) && Elsewhere(act, cluster)
    ensures GuardState(Step(ctx, s, act).sys, cluster) == GuardState(s, cluster)
  {
    if act.Guard? {
      hide GuardOutcome;
    } else {
      hide Saga.Step;
      OtherGuards(ctx, s, act);
    }
  }

  lemma {:induction false} ExecElsewhere(ctx: Ctx, acts: seq<Act>, s: Sys, cluster: ClusterId)
    requires R.Proper(ctx) && forall act :: act in acts ==> Elsewhere(act, cluster)
    ensures GuardState(Exec(ctx, acts, s).sys, cluster) == GuardState(s, cluster)
    decreases |acts|
  {
    if acts != [] {
      hide Saga.Step, GuardState;
      assert acts[0] in acts;
      StepElsewhere(ctx, s, acts[0], cluster);
      if Step(ctx, s, acts[0]).Running? {
        ExecElsewhere(ctx, acts[1..], Step(ctx, s, acts[0]).sys, cluster);
      }
    }
  }

  lemma OperationDone(ctx: Ctx, s: Sys, op: GuardOp, cluster: ClusterId)
    ensures var (after, outcome) := GuardOutcome(ctx, GuardState(s, cluster), op, cluster);
      && (Step(ctx, s, Guard(op, cluster)).Running? <==> outcome.Returned?)
      && GuardState(Step(ctx, s, Guard(op, cluster)).sys, cluster) == after
  {
    hide GuardOutcome;
  }

  /** A program with one guard operation on a cluster, committed before it. */
  lemma ThroughOne(ctx: Ctx, before: seq<Act>, op: GuardOp, cluster: ClusterId, after: seq<Act>, s: Sys)
    requires R.Proper(ctx) && Exec(ctx, before + [Guard(op, cluster)] + after, s).Running?
    requires (forall act :: act in before ==> Elsewhere(act, cluster)) && forall act :: act in after ==> Elsewhere(act, cluster)
    ensures var (state, outcome) := GuardOutcome(ctx, GuardState(s, cluster), op, cluster);
      outcome.Returned? && GuardState(Exec(ctx, before + [Guard(op, cluster)] + after, s).sys, cluster) == state
  {
    var s1 := Exec(ctx, before, s).sys;
    hide *;
    ExecAppend(ctx, before + [Guard(op, cluster)], after, s);
    ExecAppend(ctx, before, [Guard(op, cluster)], s);
    ExecElsewhere(ctx, before, s, cluster);
    M.OneStep(ctx, Guard(op, cluster), s1);
    OperationDone(ctx, s1, op, cluster);
    ExecElsewhere(ctx, after, Exec(ctx, before + [Guard(op, cluster)], s).sys, cluster);
  }

  lemma {:induction false} OtherClusters(clusters: seq<ClusterId>, c: ClusterId)
    requires c !in clusters
    ensures forall act :: act in GuardAll(clusters) ==> Elsewhere(act, c)
    ensures forall act :: act in UnguardAll(clusters) ==> Elsewhere(act, c)
    decreases |clusters|
  {
    if clusters != [] {
      OtherClusters(clusters[1..], c);
    }
  }

  lemma In(a: seq<Act>, b: seq<Act>, c: seq<Act>, d: seq<Act>)
    ensures a + (b + c + d) == (a + b) + c + d
  {
  }

  function Taking(c: ClusterId): seq<Act> {
    [Guard(GuardCapture, c), Commit, Guard(GuardActivate, c)]
  }

  lemma FirstTaken(clusters: seq<ClusterId>)
    requires clusters != []
    ensures GuardAll(clusters) == [Commit] + Taking(clusters[0]) + GuardAll(clusters[1..])
    ensures forall act, c :: act in [Commit] + Taking(clusters[0]) && c != clusters[0] ==> Elsewhere(act, c)
  {
  }

  /** A cluster's guard is taken once. */
  lemma {:induction false} TakenOnce(clusters: seq<ClusterId>, c: ClusterId) returns (before: seq<Act>, after: seq<Act>)
    requires c in clusters && J.HeadOnce(clusters)
    ensures GuardAll(clusters) == before + Taking(c) + after
    ensures (forall act :: act in before ==> Elsewhere(act, c)) && forall act :: act in after ==> Elsewhere(act, c)
    decreases |clusters|
  {
    FirstTaken(clusters);
    if clusters[0] == c {
      OtherClusters(clusters[1..], c);
      before, after := [Commit], GuardAll(clusters[1..]);
    } else {
      hide Saga.GuardAll, Taking, Elsewhere;
      var later;
      later, after := TakenOnce(clusters[1..], c);
      before := [Commit] + Taking(clusters[0]) + later;
      In([Commit] + Taking(clusters[0]), later, Taking(c), after);
    }
  }

  /** ... and given back once. */
  lemma {:induction false} GivenBackOnce(clusters: seq<ClusterId>, c: ClusterId) returns (before: seq<Act>, after: seq<Act>)
    requires c in clusters && J.HeadOnce(clusters)
    ensures UnguardAll(clusters) == before + [Guard(GuardRestore, c)] + after
    ensures (forall act :: act in before ==> Elsewhere(act, c)) && forall act :: act in after ==> Elsewhere(act, c)
    decreases |clusters|
  {
    if clusters[0] == c {
      OtherClusters(clusters[1..], c);
      before, after := [Commit], UnguardAll(clusters[1..]);
    } else {
      var later;
      later, after := GivenBackOnce(clusters[1..], c);
      before := [Commit, Guard(GuardRestore, clusters[0])] + later;
      In([Commit, Guard(GuardRestore, clusters[0])], later, [Guard(GuardRestore, c)], after);
    }
  }

  lemma ClustersOnce(targets: seq<Target>)
    ensures J.HeadOnce(DataClusters(targets))
  {
    J.ClustersRise(targets);
    J.RisesOnce(DataClusters(targets));
  }

  lemma PrepareParts(targets: seq<Target>, c: ClusterId) returns (before: seq<Act>, after: seq<Act>)
    requires c in DataClusters(targets)
    ensures HostPrepare(targets) == before + Taking(c) + after
    ensures (forall act :: act in before ==> Elsewhere(act, c)) && forall act :: act in after ==> Elsewhere(act, c)
  {
    ClustersOnce(targets);
    var b, a := TakenOnce(DataClusters(targets), c);
    var opening := [ReadHost, SetHost(HostPlanning)] + PrepareAssignments(targets) + [HostRecord(Prepare, None, 0, EffectVerified)];
    T.EachQuiet(targets);
    before, after := opening + b, a + [SetHostWorkflow(ReadyToStop)];
    Nested(opening, b, Taking(c), a, [SetHostWorkflow(ReadyToStop)]);
  }

  lemma Nested(a: seq<Act>, b: seq<Act>, c: seq<Act>, d: seq<Act>, e: seq<Act>)
    ensures a + (b + c + d) + e == (a + b) + c + (d + e)
  {
  }

  lemma ReturnParts(targets: seq<Target>, rebooted: bool, c: ClusterId) returns (before: seq<Act>, after: seq<Act>)
    requires c in DataClusters(targets)
    ensures HostReturn(targets, rebooted) == before + [Guard(GuardRestore, c)] + after
    ensures (forall act :: act in before ==> Elsewhere(act, c)) && forall act :: act in after ==> Elsewhere(act, c)
  {
    ClustersOnce(targets);
    var b, a := GivenBackOnce(DataClusters(targets), c);
    var opening := Rediscovery() + ReturnAll(StartOrder(targets), 1);
    var rest := VerifyAll() + Cleanup(rebooted) + T.Completion(targets);
    NoGuards(targets, rebooted);
    T.ReturnParts(targets, rebooted);
    before, after := opening + b, a + rest;
    Nested(opening, b, [Guard(GuardRestore, c)], a, rest);
    Grouped(targets, rebooted);
    Front(opening, T.ReturnTail(targets, rebooted), T.Completion(targets), UnguardAll(DataClusters(targets)), rest);
  }

  lemma Front(a: seq<Act>, b: seq<Act>, c: seq<Act>, d: seq<Act>, e: seq<Act>)
    requires b + c == d + e
    ensures a + b + c == a + d + e
  {
    assert a + b + c == a + (b + c) && a + d + e == a + (d + e);
  }

  lemma Grouped(targets: seq<Target>, rebooted: bool)
    ensures T.ReturnTail(targets, rebooted) + T.Completion(targets)
         == UnguardAll(DataClusters(targets)) + (VerifyAll() + Cleanup(rebooted) + T.Completion(targets))
  {
  }

  /** Stops, reboots and most of a return name no guard at all. */
  lemma NoGuards(targets: seq<Target>, rebooted: bool)
    ensures forall act :: act in Rediscovery() + ReturnAll(StartOrder(targets), 1) ==> !act.Guard?
    ensures forall act :: act in VerifyAll() + Cleanup(rebooted) + T.Completion(targets) ==> !act.Guard?
    ensures forall act :: act in HostStop(targets) ==> !act.Guard?
    ensures forall act :: act in HostReboot() ==> !act.Guard?
  {
    LoopsNoGuards(StartOrder(targets), 1);
    LoopsNoGuards(StopOrder(targets), 1);
    T.EachQuiet(targets);
  }

  lemma {:induction false} LoopsNoGuards(sorted: seq<Target>, index: nat)
    ensures forall act :: act in ReturnAll(sorted, index) ==> !act.Guard?
    ensures forall act :: act in StopAll(sorted, index) ==> !act.Guard?
    decreases |sorted|
  {
    if sorted != [] {
      LoopsNoGuards(sorted[1..], index + 1);
    }
  }

  // What becomes of the guard: of a preparation ...

  function Captured(ctx: Ctx, s: Sys, c: ClusterId): (G.ClusterState, G.Outcome) {
    GuardOutcome(ctx, GuardState(s, c), GuardCapture, c)
  }

  function Taken(ctx: Ctx, s: Sys, c: ClusterId): (G.ClusterState, G.Outcome) {
    GuardOutcome(ctx, Captured(ctx, s, c).0, GuardActivate, c)
  }

  lemma PreparedGuard(ctx: Ctx, targets: seq<Target>, s: Sys, c: ClusterId)
    requires R.Proper(ctx) && Exec(ctx, HostPrepare(targets), s).Running? && c in DataClusters(targets)
    ensures Captured(ctx, s, c).1.Returned? && Taken(ctx, s, c).1.Returned?
    ensures GuardState(Exec(ctx, HostPrepare(targets), s).sys, c) == Taken(ctx, s, c).0
  {
    var before, after := PrepareParts(targets, c);
    var first, second := before + [Guard(GuardCapture, c)] + [Commit], [] + [Guard(GuardActivate, c)] + after;
    assert HostPrepare(targets) == first + second;
    assert forall act :: act in [Commit] ==> Elsewhere(act, c);
    var mid := Exec(ctx, first, s).sys;
    assert Taken(ctx, s, c) == GuardOutcome(ctx, Captured(ctx, s, c).0, GuardActivate, c);
    assert Captured(ctx, s, c) == GuardOutcome(ctx, GuardState(s, c), GuardCapture, c);
    hide *;
    ExecAppend(ctx, first, second, s);
    ThroughOne(ctx, before, GuardCapture, c, [Commit], s);
    ThroughOne(ctx, [], GuardActivate, c, after, mid);
  }

  /** ... and of a return. */
  lemma ReturnedGuard(ctx: Ctx, targets: seq<Target>, rebooted: bool, s: Sys, c: ClusterId)
    requires R.Proper(ctx) && Exec(ctx, HostReturn(targets, rebooted), s).Running? && c in DataClusters(targets)
    ensures var (state, outcome) := GuardOutcome(ctx, GuardState(s, c), GuardRestore, c);
      outcome.Returned? && GuardState(Exec(ctx, HostReturn(targets, rebooted), s).sys, c) == state
  {
    var before, after := ReturnParts(targets, rebooted, c);
    hide *;
    ThroughOne(ctx, before, GuardRestore, c, after, s);
  }

  // Exactly what an activation leaves.

  /** The plan's row, captured from the very setting that is in force. */
  predicate JustCaptured(state: G.ClusterState, plan: PlanId) {
    && plan in state.records && state.records[plan].phase == G.Captured
    && state.records[plan].checkpoint.plan == plan && state.records[plan].checkpoint.phase == G.Captured
    && state.records[plan].checkpoint.captured == state.layers
  }

  /** The write was acknowledged and the verifying read could be made. */
  predicate Verified(a: G.ActivateAnswers) {
    a.put.Acknowledged? && a.read.Shows?
  }

  /** The cleanup could be read back and left nothing behind. */
  predicate CleanedUp(a: G.ActivateAnswers, layers: Layers) {
    a.cleanupRead.Shows? && (!a.cleanupPut.LostBefore? || a.put.LostBefore? || layers.persistent == Some(PRIMARIES))
  }

  /** From a captured setting the workflow goes on exactly when no other transient
      value stands above the guard and the verifying read is not garbled. The row
      is then active exactly when the write was acknowledged and read back;
      otherwise it is restored exactly when the cleanup worked. */
  lemma ActivationTells(ctx: Ctx, state: G.ClusterState, c: ClusterId)
    requires JustCaptured(state, ctx.plan)
    ensures var a, (after, outcome) := ctx.env.activate(c), GuardOutcome(ctx, state, GuardActivate, c);
      && ctx.plan in after.records && after.records[ctx.plan].checkpoint.captured == state.layers
      && after.records[ctx.plan].checkpoint.phase == after.records[ctx.plan].phase
      && (outcome.Returned? <==> !G.Overridden(state.layers) && !(a.put.Acknowledged? && a.read.Garbled?))
      && (outcome.Returned? ==>
            && (after.records[ctx.plan].phase == G.Active <==> Verified(a))
            && (after.records[ctx.plan].phase == G.Restored <==> !Verified(a) && CleanedUp(a, state.layers)))
      && (after.records[ctx.plan].phase == G.Active ==> G.Guarding(after.layers))
      && (after.records[ctx.plan].phase == G.Restored ==> after.layers == state.layers)
  {
    var a, cp := ctx.env.activate(c), state.records[ctx.plan].checkpoint;
    P.GuardingApplied(state.layers);
    CleanupTells(state.layers, cp, a);
    hide G.Guarding, G.CleanupVerdict, G.RestoredLayers;
  }

  lemma CleanupTells(layers: Layers, cp: G.Checkpoint, a: G.ActivateAnswers)
    requires cp.captured == layers
    ensures var after := G.RestoredLayers(G.AfterPut(layers, GUARD_PUT, a.put), cp, a.cleanupPut);
      var next := G.CleanupVerdict(after, cp, G.OnFailure, a.cleanupPut, a.cleanupRead).checkpoint;
      && next.plan == cp.plan && next.captured == layers && next.phase in {G.Restored, G.RecoveryRequired}
      && (!a.put.Acknowledged? || !a.read.Shows? ==> (next.phase == G.Restored <==> CleanedUp(a, layers)))
      && (next.phase == G.Restored ==> after == layers)
  {
    RestorationPutsBack(layers);
  }

  lemma RestorationPutsBack(layers: Layers)
    ensures forall before :: ApplyPut(before, RestorationPayload(layers)) == layers
    ensures ApplyPut(layers, GUARD_PUT) == layers <==> layers.persistent == Some(PRIMARIES)
  {
  }

  predicate ActiveRow(records: G.Records, plan: PlanId) {
    plan in records && records[plan].phase == G.Active
  }

  lemma ActiveStays(ctx: Ctx, state: G.ClusterState, c: ClusterId)
    requires ActiveRow(state.records, ctx.plan) && state.records[ctx.plan].checkpoint.phase == G.Active
    ensures GuardOutcome(ctx, state, GuardCapture, c).0 == state && GuardOutcome(ctx, state, GuardActivate, c).0 == state
  {
    hide G.ActivationSpec;
  }

  /** The same for a row that an earlier run of guard operations left behind. */
  lemma ReactivationTells(ctx: Ctx, state: G.ClusterState, c: ClusterId, base: Layers)
    requires GR.Inv(base, state, Some(ctx.plan)) && state.records[ctx.plan].phase == G.Captured
    requires GuardOutcome(ctx, state, GuardActivate, c).1.Returned?
    ensures var a, (after, outcome) := ctx.env.activate(c), GuardOutcome(ctx, state, GuardActivate, c);
      && ctx.plan in after.records && (after.records[ctx.plan].phase == G.Active <==> Verified(a))
      && (Verified(a) ==> G.Guarding(after.layers))
  {
    P.GuardingApplied(base);
    assert ApplyPut(GR.Guarded(base), GUARD_PUT) == ApplyPut(base, GUARD_PUT);
    hide G.Guarding, G.RestoredLayers;
  }

  lemma OthersUnchanged(ctx: Ctx, state: G.ClusterState, c: ClusterId)
    requires ctx.plan in state.records && state.records[ctx.plan].phase != G.Restored
    ensures GuardOutcome(ctx, state, GuardCapture, c).0 == state
  {
  }

  lemma NewlyCaptured(ctx: Ctx, state: G.ClusterState, c: ClusterId)
    requires ctx.plan !in state.records && GuardOutcome(ctx, state, GuardCapture, c).1.Returned?
    ensures var after := GuardOutcome(ctx, state, GuardCapture, c).0;
      after.layers == state.layers && JustCaptured(after, ctx.plan)
  {
  }

  lemma OnlyCapturedGoesOn(ctx: Ctx, state: G.ClusterState, c: ClusterId)
    requires ctx.plan in state.records && state.records[ctx.plan].checkpoint.phase == state.records[ctx.plan].phase
    requires GuardOutcome(ctx, state, GuardActivate, c).1.Returned?
    ensures state.records[ctx.plan].phase in {G.Captured, G.Active}
  {
    hide G.ActivationSpec;
  }

  lemma RestoredIsNotCaptured(ctx: Ctx, state: G.ClusterState, c: ClusterId)
    requires ctx.plan in state.records && GuardOutcome(ctx, state, GuardCapture, c).1.Returned?
    ensures state.records[ctx.plan].phase != G.Restored
  {
  }

  lemma TakenTells(ctx: Ctx, s: Sys, c: ClusterId, base: Layers, owner: Option<PlanId>)
    requires GR.Inv(base, GuardState(s, c), owner) && Captured(ctx, s, c).1.Returned? && Taken(ctx, s, c).1.Returned?
    ensures var before, after := GuardState(s, c), Taken(ctx, s, c).0;
      && (ActiveRow(after.records, ctx.plan) <==> ActiveRow(before.records, ctx.plan) || Verified(ctx.env.activate(c)))
      && (ActiveRow(after.records, ctx.plan) && !ActiveRow(before.records, ctx.plan) ==> G.Guarding(after.layers))
  {
    var state := GuardState(s, c);
    hide GuardOutcome, G.Guarding;
    if ctx.plan !in state.records {
      NewlyCaptured(ctx, state, c);
      ActivationTells(ctx, Captured(ctx, s, c).0, c);
    } else {
      RestoredIsNotCaptured(ctx, state, c);
      OthersUnchanged(ctx, state, c);
      OnlyCapturedGoesOn(ctx, state, c);
      if state.records[ctx.plan].phase == G.Active {
        ActiveStays(ctx, state, c);
      } else {
        assert owner == Some(ctx.plan);
        ReactivationTells(ctx, state, c, base);
      }
    }
  }

  /** A completed preparation has an active guard on a data cluster if and only if
      there was one or the activation was verified; and a guard that this
      preparation activated is in force. So `ready to stop` means that every data
      cluster is guarded exactly when that holds for each of them. `base` and
      `owner` are those of the clusters' guard runs, whatever went before. */
  lemma ReadyIsGuardedExactlyWhen(ctx: Ctx, targets: seq<Target>, s: Sys, base: ClusterId -> Layers, owner: ClusterId -> Option<PlanId>)
    requires R.Proper(ctx) && Exec(ctx, HostPrepare(targets), s).Running?
    requires forall c :: c in DataClusters(targets) ==> GR.Inv(base(c), GuardState(s, c), owner(c))
    ensures var end := Exec(ctx, HostPrepare(targets), s).sys;
      && (forall c :: c in DataClusters(targets) ==>
            && (ActiveRow(GuardsOf(end.db, c), ctx.plan) <==> ActiveRow(GuardsOf(s.db, c), ctx.plan) || Verified(ctx.env.activate(c)))
            && (ActiveRow(GuardsOf(end.db, c), ctx.plan) && !ActiveRow(GuardsOf(s.db, c), ctx.plan) ==> G.Guarding(LayersOf(end, c))))
  {
    var end := Exec(ctx, HostPrepare(targets), s).sys;
    forall c | c in DataClusters(targets)
      ensures ActiveRow(GuardsOf(end.db, c), ctx.plan) <==> ActiveRow(GuardsOf(s.db, c), ctx.plan) || Verified(ctx.env.activate(c))
      ensures ActiveRow(GuardsOf(end.db, c), ctx.plan) && !ActiveRow(GuardsOf(s.db, c), ctx.plan) ==> G.Guarding(LayersOf(end, c))
    {
      hide Saga.Exec, Captured, Taken, Verified, ActiveRow, G.Guarding;
      PreparedGuard(ctx, targets, s, c);
      TakenTells(ctx, s, c, base(c), owner(c));
    }
  }

  /** Being ready to stop does not imply an active guard: on a host that can be
      prepared, when a guard's write is lost and its cleanup works, the preparation
      completes, the row says `restored` and the setting has never changed. */
  lemma ReadyWithoutGuard(ctx: Ctx, targets: seq<Target>, s: Sys, c: ClusterId, category: string, view: G.FaithfulRendering)
    requires J.ReadyToPrepare(ctx, targets, s) && c in DataClusters(targets)
    requires ctx.env.activate(c) == G.ActivateAnswers(G.LostBefore(category), G.Garbled, G.Acknowledged, G.Shows(view))
    ensures var o := Exec(ctx, HostPrepare(targets), s);
      && o.Running? && HostOf(o.sys.db, ctx.node).workflow == ReadyToStop
      && ctx.plan in GuardsOf(o.sys.db, c) && GuardsOf(o.sys.db, c)[ctx.plan].phase == G.Restored
      && LayersOf(o.sys, c) == LayersOf(s, c)
  {
    var f := J.PrepareCompletes(ctx, targets, s);
    var o := Exec(ctx, HostPrepare(targets), s);
    ReadyHost(ctx, s.db, f, o.sys);
    assert ctx.plan !in GuardsOf(s.db, c) && R.Proper(ctx);
    hide Saga.Exec, GuardOutcome, J.ReadyToPrepare;
    PreparedGuard(ctx, targets, s, c);
    NewlyCaptured(ctx, GuardState(s, c), c);
    ActivationTells(ctx, Captured(ctx, s, c).0, c);
  }

  lemma ReadyHost(ctx: Ctx, start: Db, f: P.Forecast, s: Sys)
    requires P.As(ctx, start, f, s) && f.host.workflow == ReadyToStop
    ensures HostOf(s.db, ctx.node).workflow == ReadyToStop
  {
  }

  // Exactly what a restoration leaves.

  lemma RestorationTells(ctx: Ctx, state: G.ClusterState, c: ClusterId)
    requires GuardOutcome(ctx, state, GuardRestore, c).1.Returned?
    ensures ctx.plan in state.records
    ensures var cp, after := state.records[ctx.plan].checkpoint, GuardOutcome(ctx, state, GuardRestore, c).0;
      && (after.layers == cp.captured <==> state.layers == cp.captured || (cp.phase != G.Restored && !ctx.env.restorePut(c).LostBefore?))
      && ctx.plan in after.records && after.records[ctx.plan].checkpoint.captured == cp.captured
      && after.records[ctx.plan].checkpoint.phase in {G.Restored, G.RecoveryRequired}
      && (after.records[ctx.plan].checkpoint.phase == G.Restored <==>
            cp.phase == G.Restored || (ctx.env.restoreRead(c).Shows? && after.layers == cp.captured))
      && (ctx.env.restorePut(c).LostBefore? ==> after.layers == state.layers)
  {
    RestorationPutsBack(if ctx.plan in state.records then state.records[ctx.plan].checkpoint.captured else state.layers);
  }

  /** A return that completes has put a cluster's captured setting back if and only
      if the setting was back already or the restoring write reached the cluster;
      and the row says so if and only if it was verified by a read. */
  lemma ReturnGivesBackExactlyWhen(ctx: Ctx, targets: seq<Target>, rebooted: bool, s: Sys, c: ClusterId)
    requires R.Proper(ctx) && Exec(ctx, HostReturn(targets, rebooted), s).Running? && c in DataClusters(targets)
    ensures ctx.plan in GuardsOf(s.db, c)
    ensures var cp, end := GuardsOf(s.db, c)[ctx.plan].checkpoint, Exec(ctx, HostReturn(targets, rebooted), s).sys;
      && (LayersOf(end, c) == cp.captured <==>
            LayersOf(s, c) == cp.captured || (cp.phase != G.Restored && !ctx.env.restorePut(c).LostBefore?))
      && ctx.plan in GuardsOf(end.db, c) && GuardsOf(end.db, c)[ctx.plan].checkpoint.captured == cp.captured
      && (GuardsOf(end.db, c)[ctx.plan].checkpoint.phase == G.Restored <==>
            cp.phase == G.Restored || (ctx.env.restoreRead(c).Shows? && LayersOf(end, c) == cp.captured))
  {
    hide Saga.Exec, GuardOutcome;
    ReturnedGuard(ctx, targets, rebooted, s, c);
    RestorationTells(ctx, GuardState(s, c), c);
  }

  lemma DownKeepsGuard(j: T.Journey, s: Sys, c: ClusterId)
    requires J.Startable(j, s)
    ensures GuardState(T.Entered(j.back, J.Rebooted(j, s).sys), c) == GuardState(J.Prepared(j, s).sys, c)
  {
    J.Journeyed(j, s);
    NoGuards(j.targets, j.rebooted);
    hide J.Startable, Saga.Exec, Saga.HostStop, Saga.HostReboot, Saga.HostPrepare;
    ExecElsewhere(j.stop, HostStop(j.targets), T.Entered(j.stop, J.Prepared(j, s).sys), c);
    if j.rebooted {
      ExecElsewhere(j.reboot, HostReboot(), T.Entered(j.reboot, J.Stopped(j, s).sys), c);
    }
  }

  /** A whole maintenance can complete and leave a cluster overridden: the guard
      was activated and verified, the restoring write is lost, the read shows
      that it was, and the return goes on to the end all the same. */
  lemma CompletedButStillGuarding(j: T.Journey, s: Sys, c: ClusterId, category: string)
    requires J.Startable(j, s) && |j.targets| <= 99 && c in DataClusters(j.targets)
    requires Verified(j.prepare.env.activate(c)) && LayersOf(s, c).persistent != Some(PRIMARIES)
    requires j.back.env.restorePut(c) == G.LostBefore(category) && j.back.env.restoreRead(c).Shows?
    ensures J.Ends(j, s)
    ensures var end, plan := J.Returned(j, s).sys, j.back.plan;
      && HostOf(end.db, j.back.node).state == HostAvailable && plan in end.db.plans && end.db.plans[plan].state == Succeeded
      && plan in GuardsOf(end.db, c) && GuardsOf(end.db, c)[plan].checkpoint.phase == G.RecoveryRequired
      && G.Guarding(LayersOf(end, c)) && LayersOf(end, c) != LayersOf(s, c)
  {
    J.MaintenanceCompletesExactlyUpTo99(j, s);
    assert R.Proper(j.prepare) && R.Proper(j.back) && T.OnePlan(j) && E.TokensOk(s.db) by { Opened(j, s); }
    var home := T.Entered(j.back, J.Rebooted(j, s).sys);
    assert Exec(j.back, HostReturn(j.targets, j.rebooted), home) == J.Returned(j, s);
    T.RoundTrip(j, s, J.Prepared(j, s).sys, J.Stopped(j, s).sys, J.Rebooted(j, s).sys, J.Returned(j, s).sys);
    GuardTaken(j, s, c);
    DownKeepsGuard(j, s, c);
    hide J.Startable, J.Rebooted, J.Returned, J.Prepared, Saga.Exec, GuardOutcome, G.Guarding, T.Completes, J.Ends, Verified;
    ReturnedGuard(j.back, j.targets, j.rebooted, home, c);
    RestorationTells(j.back, GuardState(home, c), c);
  }

  lemma Opened(j: T.Journey, s: Sys)
    requires J.Startable(j, s)
    ensures R.Proper(j.prepare) && R.Proper(j.back) && T.OnePlan(j) && E.TokensOk(s.db)
  {
    J.Journeyed(j, s);
    var keys :| X.LockInv(s.db, keys);
    X.InvariantGivesTokens(s.db, keys);
  }

  lemma GuardTaken(j: T.Journey, s: Sys, c: ClusterId)
    requires J.Startable(j, s) && c in DataClusters(j.targets) && Verified(j.prepare.env.activate(c)) && J.Prepared(j, s).Running?
    ensures var state, plan := GuardState(J.Prepared(j, s).sys, c), j.back.plan;
      && ActiveRow(state.records, plan) && state.records[plan].checkpoint.phase == G.Active
      && state.records[plan].checkpoint.captured == LayersOf(s, c) && G.Guarding(state.layers)
  {
    assert R.Proper(j.prepare) && j.prepare.plan == j.back.plan && j.prepare.plan !in GuardsOf(s.db, c);
    hide Saga.Exec, GuardOutcome, J.Startable, G.Guarding, Verified;
    PreparedGuard(j.prepare, j.targets, s, c);
    NewlyCaptured(j.prepare, GuardState(s, c), c);
    ActivationTells(j.prepare, Captured(j.prepare, s, c).0, c);
  }
}
