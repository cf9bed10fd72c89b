/** Write-ahead safety: whatever a maintenance action may have done to the
    outside is announced in the part of the tables that survives a crash. */
module SagaWriteAhead {
  import opened Wrappers
  import opened Lifecycle
  import opened Store
  import opened Saga
  import R = SagaRecovery

  /** The checkpoints that announce a request. */
  function Intents(op: RemoteOp): set<CheckpointKey> {
    match op
    case StopUnit(id) => {OfStep(HostStep(Stop, Some(id))), Intent(CStop)}
    case StartUnit(id) => {OfStep(HostStep(Return, Some(id))), Intent(CReturn)}
    case UnitReady(id) => {OfStep(HostStep(Return, Some(id))), Intent(CVerify)}
    case ReconcileCompanions(id) => {OfStep(HostStep(Return, Some(id))), Intent(CCompanions)}
    case HostReady => {OfStep(HostStep(HostRediscovery, None))}
    case RebootHost => {OfStep(HostStep(Reboot, None))}
    case VerifyReturn => {OfStep(HostStep(PostReturnStarted, None))}
    case CleanupExecutor => {OfStep(HostStep(ExecutorCleanup, None))}
  }

  predicate Marked(db: Db, plan: PlanId, key: CheckpointKey) {
    (plan, key) in db.checkpoints && db.checkpoints[(plan, key)].effect == MayHaveStarted
  }

  /** A request is announced by a `may_have_started` checkpoint of its plan, a
      settings write by the plan's guard row. */
  ghost predicate CallCovered(call: Call, db: Db) {
    match call
    case Remote(plan, op, _) => exists key :: key in Intents(op) && Marked(db, plan, key)
    case GuardPut(plan, cluster) => plan in GuardsOf(db, cluster)
  }

  ghost predicate Covered(calls: seq<Call>, db: Db) {
    forall call :: call in calls ==> CallCovered(call, db)
  }

  // Checkpoints and guard rows are only ever added.

  ghost predicate Grows(a: Db, b: Db) {
    && (forall id :: id in a.checkpoints ==> id in b.checkpoints && b.checkpoints[id] == a.checkpoints[id])
    && (forall c :: c in a.guards ==> c in b.guards && a.guards[c].Keys <= b.guards[c].Keys)
  }

  lemma CoveredGrows(calls: seq<Call>, a: Db, b: Db)
    requires Covered(calls, a) && Grows(a, b)
    ensures Covered(calls, b)
  {
    forall call | call in calls ensures CallCovered(call, b) {
      assert CallCovered(call, a);
      if call.Remote? {
        var key :| key in Intents(call.op) && Marked(a, call.plan, key);
        assert Marked(b, call.plan, key);
      }
    }
  }

  lemma GuardGrows(ctx: Ctx, s: Sys, op: GuardOp, cluster: ClusterId)
    ensures Grows(s.db, Guarded(ctx, s, op, cluster).sys.db)
  {
    assert GuardsOf(s.db, cluster).Keys <= GuardOutcome(ctx, GuardState(s, cluster), op, cluster).0.records.Keys;
  }

  lemma RecordGrows(ctx: Ctx, s: Sys, act: Act)
    requires Records(act)
    ensures Grows(s.db, Step(ctx, s, act).sys.db)
  {
    hide RecordStep;
    RecordStepFrame(s.db, ctx.plan, EntryOf(ctx, s.locals, act));
  }

  lemma MoveGrows(ctx: Ctx, s: Sys, act: Act)
    requires R.MovesRow(act)
    ensures var after := Step(ctx, s, act).sys.db; after.checkpoints == s.db.checkpoints && after.guards == s.db.guards
  {
  }

  lemma StepGrows(ctx: Ctx, s: Sys, act: Act)
    requires R.Proper(ctx)
    ensures Grows(s.db, Step(ctx, s, act).sys.db)
  {
    if act.Guard? {
      GuardGrows(ctx, s, act.guard, act.cluster);
    } else if act.FinalizePlan? {
      R.FinalizeTables(ctx, s);
    } else if Records(act) {
      RecordGrows(ctx, s, act);
    } else if R.MovesRow(act) {
      MoveGrows(ctx, s, act);
    }
  }

  // Programs that announce before they ask.

  /** What a program has announced, how much of it is committed, and whether
      nothing has been written since. */
  datatype Journal = Journal(recorded: set<CheckpointKey>, committed: set<CheckpointKey>, clean: bool)

  function Note(j: Journal, act: Act): Journal {
    match act
    case Record(_, _, checkpoint, _, MayHaveStarted) => j.(recorded := j.recorded + {checkpoint}, clean := false)
    case Commit => Journal(j.recorded, j.recorded, true)
    case _ => j.(clean := false)
  }

  predicate Announced(j: Journal, act: Act) {
    match act
    case Ask(op) => Intents(op) * j.committed != {}
    case AskReturn => Intents(VerifyReturn) * j.committed != {}
    case Guard(_, _) => j.clean
    case _ => true
  }

  predicate WriteAhead(j: Journal, acts: seq<Act>)
    decreases |acts|
  {
    acts == [] || (Announced(j, acts[0]) && WriteAhead(Note(j, acts[0]), acts[1..]))
  }

  function NoteAll(j: Journal, acts: seq<Act>): Journal
    decreases |acts|
  {
    if acts == [] then j else NoteAll(Note(j, acts[0]), acts[1..])
  }

  lemma {:induction false} WriteAheadAppend(j: Journal, a: seq<Act>, b: seq<Act>)
    ensures WriteAhead(j, a + b) <==> WriteAhead(j, a) && WriteAhead(NoteAll(j, a), b)
    ensures NoteAll(j, a + b) == NoteAll(NoteAll(j, a), b)
    decreases |a|
  {
    if a == [] {
      assert a + b == b;
    } else {
      assert (a + b)[0] == a[0] && (a + b)[1..] == a[1..] + b;
      WriteAheadAppend(Note(j, a[0]), a[1..], b);
    }
  }

  ghost predicate Journaled(plan: PlanId, j: Journal, s: Sys) {
    && Grows(s.durable, s.db)
    && (forall key :: key in j.recorded ==> Marked(s.db, plan, key))
    && (forall key :: key in j.committed ==> Marked(s.durable, plan, key))
    && (j.clean ==> s.db == s.durable)
  }

  lemma MarkedGrows(plan: PlanId, keys: set<CheckpointKey>, a: Db, b: Db)
    requires Grows(a, b) && forall key :: key in keys ==> Marked(a, plan, key)
    ensures forall key :: key in keys ==> Marked(b, plan, key)
  {
  }

  lemma StepMarks(ctx: Ctx, s: Sys, act: Act)
    requires act.Record? && act.effect == MayHaveStarted && Step(ctx, s, act).Running?
    ensures Marked(Step(ctx, s, act).sys.db, ctx.plan, act.checkpoint)
  {
    RecordStepFrame(s.db, ctx.plan, EntryOf(ctx, s.locals, act));
  }

  lemma StepDurable(ctx: Ctx, s: Sys, act: Act)
    ensures Step(ctx, s, act).sys.durable == if act.Commit? then s.db else s.durable
  {
  }

  lemma StepJournals(ctx: Ctx, j: Journal, s: Sys, act: Act)
    requires R.Proper(ctx) && Journaled(ctx.plan, j, s) && Step(ctx, s, act).Running?
    ensures Journaled(ctx.plan, Note(j, act), Step(ctx, s, act).sys)
  {
    var after := Step(ctx, s, act).sys;
    StepDurable(ctx, s, act);
    if !act.Commit? {
      StepGrows(ctx, s, act);
      MarkedGrows(ctx.plan, j.recorded, s.db, after.db);
      if act.Record? && act.effect == MayHaveStarted {
        StepMarks(ctx, s, act);
      }
    }
  }

  /** No statement asks for what is not announced. */
  lemma StepCovers(ctx: Ctx, j: Journal, s: Sys, act: Act)
    requires Journaled(ctx.plan, j, s) && Covered(s.calls, s.durable) && Announced(j, act)
    ensures var after := Step(ctx, s, act).sys; Covered(after.calls, after.durable)
  {
    var after := Step(ctx, s, act).sys;
    match act
    case Ask(op) =>
      var key :| key in Intents(op) * j.committed;
      assert Marked(s.durable, ctx.plan, key);
    case AskReturn =>
      var key :| key in Intents(VerifyReturn) * j.committed;
      assert Marked(s.durable, ctx.plan, key);
    case Commit => CoveredGrows(s.calls, s.durable, s.db);
    case _ =>
  }

  lemma {:induction false} ExecCovers(ctx: Ctx, j: Journal, acts: seq<Act>, s: Sys)
    requires R.Proper(ctx) && Journaled(ctx.plan, j, s) && Covered(s.calls, s.durable) && WriteAhead(j, acts)
    ensures var after := Exec(ctx, acts, s).sys; Covered(after.calls, after.durable) && Grows(after.durable, after.db)
    decreases |acts|
  {
    if acts != [] {
      StepCovers(ctx, j, s, acts[0]);
      if Step(ctx, s, acts[0]).Running? {
        StepJournals(ctx, j, s, acts[0]);
        ExecCovers(ctx, Note(j, acts[0]), acts[1..], Step(ctx, s, acts[0]).sys);
      } else {
        StepGrows(ctx, s, acts[0]);
      }
    }
  }

  // Every action of the two workflows is such a program.

  /** Statements that reach nothing outside the tables. */
  predicate Silent(act: Act) {
    !act.Ask? && !act.AskReturn? && !act.Guard?
  }

  predicate AnnouncedBy(key: CheckpointKey, act: Act) {
    Silent(act) || (act.Ask? && key in Intents(act.op)) || (act.AskReturn? && key in Intents(VerifyReturn))
  }

  lemma {:induction false} SilentAhead(j: Journal, acts: seq<Act>)
    requires forall act :: act in acts ==> Silent(act)
    ensures WriteAhead(j, acts)
    decreases |acts|
  {
    if acts != [] {
      assert acts[0] in acts;
      SilentAhead(Note(j, acts[0]), acts[1..]);
    }
  }

  lemma {:induction false} AnnouncedAhead(j: Journal, key: CheckpointKey, acts: seq<Act>)
    requires key in j.recorded && key in j.committed && forall act :: act in acts ==> AnnouncedBy(key, act)
    ensures WriteAhead(j, acts)
    decreases |acts|
  {
    if acts != [] {
      assert AnnouncedBy(key, acts[0]);
      if acts[0].Ask? {
        assert key in Intents(acts[0].op) * j.committed;
      } else if acts[0].AskReturn? {
        assert key in Intents(VerifyReturn) * j.committed;
      }
      AnnouncedAhead(Note(j, acts[0]), key, acts[1..]);
    }
  }

  /** Something silent, an announcement, a commit, and then only what the
      announcement covers. */
  lemma SegmentAhead(j: Journal, before: seq<Act>, record: Act, asked: seq<Act>)
    requires forall act :: act in before ==> Silent(act)
    requires record.Record? && record.effect == MayHaveStarted
    requires forall act :: act in asked ==> AnnouncedBy(record.checkpoint, act)
    ensures WriteAhead(j, before + [record, Commit] + asked)
  {
    SilentAhead(j, before);
    WriteAheadAppend(j, before, [record, Commit] + asked);
    var here := NoteAll(j, before);
    var noted := Note(Note(here, record), Commit);
    AnnouncedAhead(noted, record.checkpoint, asked);
    assert ([record, Commit] + asked)[1..] == [Commit] + asked;
    assert ([Commit] + asked)[1..] == asked;
    assert before + [record, Commit] + asked == before + ([record, Commit] + asked);
  }

  lemma AheadAppend(j: Journal, a: seq<Act>, b: seq<Act>)
    requires WriteAhead(j, a) && WriteAhead(NoteAll(j, a), b)
    ensures WriteAhead(j, a + b)
  {
    WriteAheadAppend(j, a, b);
  }

  lemma StopOneAhead(j: Journal, t: Target, index: nat)
    ensures WriteAhead(j, StopOne(t, index))
  {
    var one := StopOne(t, index);
    SegmentAhead(j, one[..2], one[2], one[4..]);
    assert one == one[..2] + [one[2], Commit] + one[4..];
  }

  lemma ReturnOneAhead(j: Journal, t: Target, index: nat)
    ensures WriteAhead(j, ReturnOne(t, index))
  {
    var one := ReturnOne(t, index);
    SegmentAhead(j, one[..2], one[2], one[4..]);
    assert one == one[..2] + [one[2], Commit] + one[4..];
  }

  lemma {:induction false} StopAllAhead(j: Journal, targets: seq<Target>, index: nat)
    ensures WriteAhead(j, StopAll(targets, index))
    decreases |targets|
  {
    if targets != [] {
      StopOneAhead(j, targets[0], index);
      StopAllAhead(NoteAll(j, StopOne(targets[0], index)), targets[1..], index + 1);
      AheadAppend(j, StopOne(targets[0], index), StopAll(targets[1..], index + 1));
    }
  }

  lemma {:induction false} ReturnAllAhead(j: Journal, targets: seq<Target>, index: nat)
    ensures WriteAhead(j, ReturnAll(targets, index))
    decreases |targets|
  {
    if targets != [] {
      ReturnOneAhead(j, targets[0], index);
      ReturnAllAhead(NoteAll(j, ReturnOne(targets[0], index)), targets[1..], index + 1);
      AheadAppend(j, ReturnOne(targets[0], index), ReturnAll(targets[1..], index + 1));
    }
  }

  lemma {:induction false} GuardAllAhead(j: Journal, clusters: seq<ClusterId>)
    ensures WriteAhead(j, GuardAll(clusters))
    decreases |clusters|
  {
    if clusters != [] {
      var one := [Commit, Guard(GuardCapture, clusters[0]), Commit, Guard(GuardActivate, clusters[0])];
      GuardPairAhead(j, GuardCapture, clusters[0]);
      GuardPairAhead(NoteAll(j, one[..2]), GuardActivate, clusters[0]);
      AheadAppend(j, one[..2], one[2..]);
      assert one == one[..2] + one[2..];
      GuardAllAhead(NoteAll(j, one), clusters[1..]);
      AheadAppend(j, one, GuardAll(clusters[1..]));
    }
  }

  lemma GuardPairAhead(j: Journal, op: GuardOp, cluster: ClusterId)
    ensures WriteAhead(j, [Commit, Guard(op, cluster)])
  {
    assert [Commit, Guard(op, cluster)][1..] == [Guard(op, cluster)];
    assert [Guard(op, cluster)][1..] == [];
  }

  lemma {:induction false} UnguardAllAhead(j: Journal, clusters: seq<ClusterId>)
    ensures WriteAhead(j, UnguardAll(clusters))
    decreases |clusters|
  {
    if clusters != [] {
      var one := [Commit, Guard(GuardRestore, clusters[0])];
      GuardPairAhead(j, GuardRestore, clusters[0]);
      UnguardAllAhead(NoteAll(j, one), clusters[1..]);
      AheadAppend(j, one, UnguardAll(clusters[1..]));
    }
  }

  lemma {:induction false} CollectAllSilent(targets: seq<Target>)
    ensures forall act :: act in CollectAll(targets) ==> Silent(act)
    ensures forall act :: act in PrepareAll(targets) ==> Silent(act)
    ensures forall act :: act in ClaimAll(targets) ==> Silent(act)
    ensures forall act :: act in ReadyAll(targets) ==> Silent(act)
    ensures forall act :: act in CompleteAll(targets) ==> Silent(act)
    decreases |targets|
  {
    if targets != [] {
      CollectAllSilent(targets[1..]);
    }
  }

  lemma HostPrepareAhead(j: Journal, targets: seq<Target>)
    ensures WriteAhead(j, HostPrepare(targets))
  {
    CollectAllSilent(targets);
    var start := [ReadHost, SetHost(HostPlanning)] + PrepareAssignments(targets) + [HostRecord(Prepare, None, 0, EffectVerified)];
    var guards := GuardAll(DataClusters(targets));
    SilentAhead(j, start);
    GuardAllAhead(NoteAll(j, start), DataClusters(targets));
    AheadAppend(j, start, guards);
    SilentAhead(NoteAll(j, start + guards), [SetHostWorkflow(ReadyToStop)]);
    AheadAppend(j, start + guards, [SetHostWorkflow(ReadyToStop)]);
  }

  lemma HostStopAhead(j: Journal, targets: seq<Target>)
    ensures WriteAhead(j, HostStop(targets))
  {
    var start, tail := [SetHostWorkflow(Stopping)], [SetHostWorkflow(Maintenance), SetHost(HostMaintenance)];
    var all := StopAll(StopOrder(targets), 1);
    SilentAhead(j, start);
    StopAllAhead(NoteAll(j, start), StopOrder(targets), 1);
    AheadAppend(j, start, all);
    SilentAhead(NoteAll(j, start + all), tail);
    AheadAppend(j, start + all, tail);
  }

  lemma HostRebootAhead(j: Journal)
    ensures WriteAhead(j, HostReboot())
  {
    SegmentAhead(j, [], HostReboot()[0], HostReboot()[2..]);
    assert HostReboot() == [] + [HostReboot()[0], Commit] + HostReboot()[2..];
  }

  lemma RediscoveryAhead(j: Journal)
    ensures WriteAhead(j, Rediscovery())
  {
    SegmentAhead(j, Rediscovery()[..1], Rediscovery()[1], Rediscovery()[3..]);
    assert Rediscovery() == Rediscovery()[..1] + [Rediscovery()[1], Commit] + Rediscovery()[3..];
  }

  lemma NothingAhead(j: Journal)
    ensures WriteAhead(j, [])
  {
  }

  lemma ClosingAhead(j: Journal, rebooted: bool)
    ensures WriteAhead(j, VerifyAll()) && WriteAhead(j, Cleanup(rebooted))
  {
    hide WriteAhead;
    NothingAhead(j);
    SegmentAhead(j, [], VerifyAll()[0], VerifyAll()[2..]);
    assert VerifyAll() == [] + [VerifyAll()[0], Commit] + VerifyAll()[2..];
    if rebooted {
      var c := Cleanup(true);
      SegmentAhead(j, c[..1], c[1], c[3..]);
      assert c == c[..1] + [c[1], Commit] + c[3..];
    }
  }

  lemma HostReturnAhead(j: Journal, targets: seq<Target>, rebooted: bool)
    ensures WriteAhead(j, HostReturn(targets, rebooted))
  {
    var all, guards := ReturnAll(StartOrder(targets), 1), UnguardAll(DataClusters(targets));
    var so := Rediscovery();
    RediscoveryAhead(j);
    ReturnAllAhead(NoteAll(j, so), StartOrder(targets), 1);
    AheadAppend(j, so, all);
    so := so + all;
    UnguardAllAhead(NoteAll(j, so), DataClusters(targets));
    AheadAppend(j, so, guards);
    so := so + guards;
    ClosingAhead(NoteAll(j, so), rebooted);
    AheadAppend(j, so, VerifyAll());
    so := so + VerifyAll();
    ClosingAhead(NoteAll(j, so), rebooted);
    AheadAppend(j, so, Cleanup(rebooted));
    so := so + Cleanup(rebooted);
    CompletionAhead(j, so, targets);
  }

  lemma CompletionAhead(j: Journal, work: seq<Act>, targets: seq<Target>)
    requires WriteAhead(j, work)
    ensures WriteAhead(j, work + [FinalizePlan] + CompleteAll(targets) + [SetHost(HostAvailable)])
  {
    CollectAllSilent(targets);
    var tail := [FinalizePlan] + CompleteAll(targets) + [SetHost(HostAvailable)];
    SilentAhead(NoteAll(j, work), tail);
    AheadAppend(j, work, tail);
    assert work + tail == work + [FinalizePlan] + CompleteAll(targets) + [SetHost(HostAvailable)];
  }

  lemma ContainerPrepareAhead(j: Journal, t: Target)
    ensures WriteAhead(j, ContainerPrepare(t))
  {
    var start := [Load(t.id), SetState(Preparing), ClaimTarget(t.id, t.revision), Finished(CPrepare)];
    var guards := if t.dataBearing then GuardAll([t.cluster]) else [];
    SilentAhead(j, start);
    GuardAllAhead(NoteAll(j, start), [t.cluster]);
    AheadAppend(j, start, guards);
    SilentAhead(NoteAll(j, start + guards), [SetState(ReadyToStop)]);
    AheadAppend(j, start + guards, [SetState(ReadyToStop)]);
  }

  lemma ContainerStopAhead(j: Journal, t: Target)
    ensures WriteAhead(j, ContainerStop(t))
  {
    var one := ContainerStop(t);
    SegmentAhead(j, one[..1], one[1], one[3..]);
    assert one == one[..1] + [one[1], Commit] + one[3..];
  }

  lemma ContainerReturnAhead(j: Journal, t: Target)
    ensures WriteAhead(j, ContainerReturn(t))
  {
    var so, ready, companions := ContainerStart(t), ContainerReady(t), ContainerCompanions(t);
    SegmentAhead(j, so[..1], so[1], so[3..]);
    assert so == so[..1] + [so[1], Commit] + so[3..];
    SegmentAhead(NoteAll(j, so), [], ready[0], ready[2..]);
    assert ready == [] + [ready[0], Commit] + ready[2..];
    AheadAppend(j, so, ready);
    so := so + ready;
    SegmentAhead(NoteAll(j, so), [], companions[0], companions[2..]);
    assert companions == [] + [companions[0], Commit] + companions[2..];
    AheadAppend(j, so, companions);
    so := so + companions;
    ContainerClosingAhead(j, so, t);
  }

  lemma ContainerClosingAhead(j: Journal, work: seq<Act>, t: Target)
    requires WriteAhead(j, work)
    ensures WriteAhead(j, work + (if t.dataBearing then UnguardAll([t.cluster]) else [])
                          + [ReleaseTarget(t.id), SetState(Available)] + [FinalizePlan])
  {
    var guards := if t.dataBearing then UnguardAll([t.cluster]) else [];
    var tail := [ReleaseTarget(t.id), SetState(Available)] + [FinalizePlan];
    UnguardAllAhead(NoteAll(j, work), [t.cluster]);
    AheadAppend(j, work, guards);
    SilentAhead(NoteAll(j, work + guards), tail);
    AheadAppend(j, work + guards, tail);
    assert work + guards + tail == work + guards + [ReleaseTarget(t.id), SetState(Available)] + [FinalizePlan];
  }

  // Runs.

  datatype Action =
    | HostAction(action: R.HostAction, targets: seq<Target>)
    | ContainerPrepareAction(t: Target)
    | ContainerStopAction(t: Target)
    | ContainerReturnAction(t: Target)

  function Program(action: Action): seq<Act> {
    match action
    case HostAction(host, targets) => R.HostProgram(host, targets)
    case ContainerPrepareAction(t) => ContainerPrepare(t)
    case ContainerStopAction(t) => ContainerStop(t)
    case ContainerReturnAction(t) => ContainerReturn(t)
  }

  lemma ProgramAhead(j: Journal, action: Action)
    ensures WriteAhead(j, Program(action))
  {
    match action
    case HostAction(PrepareAction, targets) => HostPrepareAhead(j, targets);
    case HostAction(StopAction, targets) => HostStopAhead(j, targets);
    case HostAction(RebootAction, targets) => HostRebootAhead(j);
    case HostAction(ReturnAction(rebooted), targets) => HostReturnAhead(j, targets, rebooted);
    case ContainerPrepareAction(t) => ContainerPrepareAhead(j, t);
    case ContainerStopAction(t) => ContainerStopAhead(j, t);
    case ContainerReturnAction(t) => ContainerReturnAhead(j, t);
  }

  /** One action: opened (the coordinator's own writes, in the same transaction),
      run up to statement `cut`, and then committed as a whole or broken off
      there, by an exception or by the controller's death, with the open
      transaction lost. Other work on the tables happens in between. */
  datatype Event =
    | Acts(ctx: Ctx, action: Action, opening: Db, cut: nat)
    | Elsewhere(db: Db)

  ghost predicate Possible(s: Sys, e: Event) {
    match e
    case Acts(ctx, action, opening, cut) => R.Proper(ctx) && cut <= |Program(action)| && Grows(s.db, opening)
    case Elsewhere(db) => Grows(s.db, db)
  }

  ghost function After(s: Sys, e: Event): Sys {
    match e
    case Acts(ctx, action, opening, cut) =>
      if cut > |Program(action)| then s
      else
        var end := Exec(ctx, Program(action)[..cut], s.(db := opening));
        Exited(if cut == |Program(action)| then end else Raised(end.sys))
    case Elsewhere(db) => s.(db := db, durable := db)
  }

  ghost function Run(s: Sys, events: seq<Event>): Sys
    decreases |events|
  {
    if events == [] then s else Run(After(s, events[0]), events[1..])
  }

  ghost predicate Feasible(s: Sys, events: seq<Event>)
    decreases |events|
  {
    events == [] || (Possible(s, events[0]) && Feasible(After(s, events[0]), events[1..]))
  }

  const BLANK := Journal({}, {}, false)

  /** At any point inside any opened action. */
  lemma ActionCovers(ctx: Ctx, s: Sys, action: Action, cut: nat, after: Sys)
    requires R.Proper(ctx) && Grows(s.durable, s.db) && Covered(s.calls, s.durable) && cut <= |Program(action)|
    requires after == Exec(ctx, Program(action)[..cut], s).sys
    ensures Covered(after.calls, after.durable) && Grows(after.durable, after.db)
  {
    var acts := Program(action);
    ProgramAhead(BLANK, action);
    assert acts == acts[..cut] + acts[cut..];
    WriteAheadAppend(BLANK, acts[..cut], acts[cut..]);
    ExecCovers(ctx, BLANK, acts[..cut], s);
  }

  lemma AfterCovers(s: Sys, e: Event)
    requires s.db == s.durable && Covered(s.calls, s.durable) && Possible(s, e)
    ensures After(s, e).db == After(s, e).durable && Covered(After(s, e).calls, After(s, e).durable)
  {
    match e
    case Acts(ctx, action, opening, cut) =>
      var end := Exec(ctx, Program(action)[..cut], s.(db := opening)).sys;
      ActionCovers(ctx, s.(db := opening), action, cut, end);
      CoveredGrows(end.calls, end.durable, end.db);
    case Elsewhere(db) => CoveredGrows(s.calls, s.durable, db);
  }

  lemma {:induction false} RunCovers(s: Sys, events: seq<Event>)
    requires s.db == s.durable && Covered(s.calls, s.durable) && Feasible(s, events)
    ensures Run(s, events).db == Run(s, events).durable && Covered(Run(s, events).calls, Run(s, events).durable)
    decreases |events|
  {
    if events != [] {
      AfterCovers(s, events[0]);
      RunCovers(After(s, events[0]), events[1..]);
    }
  }

  /** Main write-ahead result. After any run of host and container actions of any
      plans, each broken off anywhere, and then at any point inside a further
      action: every unit that was asked to stop or start, every requested reboot
      or executor cleanup, every verification and every settings write is
      announced by what is durable at that very point. */
  lemma EveryEffectIsAnnounced(s: Sys, events: seq<Event>, ctx: Ctx, action: Action, opening: Db, cut: nat, now: Sys)
    requires s.db == s.durable && s.calls == [] && Feasible(s, events)
    requires Possible(Run(s, events), Acts(ctx, action, opening, cut))
    requires now == Exec(ctx, Program(action)[..cut], Run(s, events).(db := opening)).sys
    ensures Covered(now.calls, now.durable)
  {
    RunCovers(s, events);
    ActionCovers(ctx, Run(s, events).(db := opening), action, cut, now);
  }
}
