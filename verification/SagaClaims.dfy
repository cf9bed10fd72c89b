/** Whoever owns a workload's maintenance holds its claim: the claim is what keeps
    one plan from taking a workload over from another. */
module SagaClaims {
  import opened Wrappers
  import opened Lifecycle
  import opened Store
  import opened Saga
  import M = SagaMaintenance
  import R = SagaRecovery
  import T = SagaRoundTrip

  ghost predicate OwnedClaimed(db: Db) {
    forall id :: AssignmentOf(db, id).plan.Some? ==> M.Claimed(db, id)
  }

  // Inside an action a row may be owned before it is claimed, or released before
  // it is given up. A ledger says for which assignments that may be so, which are
  // known to be free, and which one is in hand.

  datatype Ledger = Ledger(owed: set<AssignmentId>, free: set<AssignmentId>, current: Option<AssignmentId>)

  function Post(l: Ledger, act: Act): Ledger {
    match act
    case PrepareCollected(id) => l.(owed := l.owed + {id}, free := l.free - {id})
    case ClaimTarget(id, _) => l.(owed := l.owed - {id})
    case ReleaseTarget(id) => if id in l.free then l else l.(owed := l.owed + {id})
    case Load(id) => l.(current := Some(id))
    case Require(id, _) => l.(current := Some(id))
    case SetState(Preparing) =>
      if l.current.Some? then l.(owed := l.owed + {l.current.value}, free := l.free - {l.current.value}) else l
    case SetState(Available) =>
      if l.current.Some? then l.(owed := l.owed - {l.current.value}, free := l.free + {l.current.value}) else l
    case _ => l
  }

  /** Nothing is committed while a claim is owed. */
  predicate InOrder(l: Ledger, act: Act) {
    (act.Commit? ==> l.owed == {}) && (act == SetState(Preparing) ==> l.current.Some?) && R.KeepsWorkflowOwned(act)
  }

  predicate AllInOrder(l: Ledger, acts: seq<Act>)
    decreases |acts|
  {
    acts == [] || (InOrder(l, acts[0]) && AllInOrder(Post(l, acts[0]), acts[1..]))
  }

  function PostAll(l: Ledger, acts: seq<Act>): Ledger
    decreases |acts|
  {
    if acts == [] then l else PostAll(Post(l, acts[0]), acts[1..])
  }

  lemma {:induction false} OrderAppend(l: Ledger, a: seq<Act>, b: seq<Act>)
    ensures AllInOrder(l, a + b) <==> AllInOrder(l, a) && AllInOrder(PostAll(l, a), b)
    ensures PostAll(l, a + b) == PostAll(PostAll(l, a), b)
    decreases |a|
  {
    hide InOrder, Post;
    if a == [] {
      assert a + b == b;
    } else {
      assert (a + b)[0] == a[0] && (a + b)[1..] == a[1..] + b;
      OrderAppend(Post(l, a[0]), a[1..], b);
    }
  }

  ghost predicate Balanced(l: Ledger, s: Sys) {
    && (forall id :: id !in l.owed && AssignmentOf(s.db, id).plan.Some? ==> M.Claimed(s.db, id))
    && (forall id :: id in l.free ==> AssignmentOf(s.db, id).plan == None)
    && (l.current.Some? ==> s.locals.current == l.current.value)
  }

  lemma OtherRows(ctx: Ctx, s: Sys, act: Act)
    requires R.Proper(ctx) && !T.MovesClaim(act) && !act.PrepareCollected? && !act.SetState?
    ensures var after := Step(ctx, s, act).sys; after.db.assignments == s.db.assignments && after.db.workloads == s.db.workloads
    ensures !act.Load? && !act.Require? ==> Step(ctx, s, act).sys.locals.current == s.locals.current
  {
    T.StepClaims(ctx, s, act);
    if R.ElsewhereOnly(act) {
      R.OtherTables(ctx, s, act);
      M.LocalsKept(ctx, s, act);
    }
  }

  lemma RowStepBalances(ctx: Ctx, l: Ledger, s: Sys, act: Act)
    requires act.PrepareCollected? || act.SetState?
    requires R.RowsOk(s.db) && Balanced(l, s) && InOrder(l, act) && Step(ctx, s, act).Running?
    ensures Balanced(Post(l, act), Step(ctx, s, act).sys)
  {
    R.RowsOkAt(s.db, ctx.node, s.locals.current);
  }

  lemma ClaimStepBalances(ctx: Ctx, l: Ledger, s: Sys, act: Act)
    requires T.MovesClaim(act) && Balanced(l, s) && Step(ctx, s, act).Running?
    ensures Balanced(Post(l, act), Step(ctx, s, act).sys)
  {
  }

  lemma StepBalances(ctx: Ctx, l: Ledger, s: Sys, act: Act)
    requires R.Proper(ctx) && R.RowsOk(s.db) && Balanced(l, s) && InOrder(l, act) && Step(ctx, s, act).Running?
    ensures Balanced(Post(l, act), Step(ctx, s, act).sys)
  {
    if T.MovesClaim(act) {
      ClaimStepBalances(ctx, l, s, act);
    } else if act.PrepareCollected? || act.SetState? {
      RowStepBalances(ctx, l, s, act);
    } else {
      OtherRows(ctx, s, act);
      if act.Load? || act.Require? {
        assert Step(ctx, s, act).sys.locals.current == act.id;
      }
    }
  }

  /** A program in order keeps every owned assignment of the committed tables
      claimed, wherever it breaks off. */
  lemma {:induction false} ExecBalances(ctx: Ctx, l: Ledger, acts: seq<Act>, s: Sys)
    requires R.Proper(ctx) && R.RowsOk(s.db) && Balanced(l, s) && AllInOrder(l, acts) && OwnedClaimed(s.durable)
    ensures OwnedClaimed(Exec(ctx, acts, s).sys.durable)
    ensures Exec(ctx, acts, s).Running? ==> Balanced(PostAll(l, acts), Exec(ctx, acts, s).sys)
    decreases |acts|
  {
    hide R.RowsOk, Post, Saga.Step;
    if acts != [] {
      R.StepKeepsRows(ctx, s, acts[0]);
      M.StepDurable(ctx, acts[0], s);
      if Step(ctx, s, acts[0]).Running? {
        StepBalances(ctx, l, s, acts[0]);
        ExecBalances(ctx, Post(l, acts[0]), acts[1..], Step(ctx, s, acts[0]).sys);
      }
    }
  }

  // The programs are in order, and end with nothing owed.

  predicate Plain(act: Act) {
    !act.PrepareCollected? && !T.MovesClaim(act) && act != SetState(Preparing) && act != SetState(Available) && R.KeepsWorkflowOwned(act)
  }

  lemma {:induction false} PlainInOrder(l: Ledger, acts: seq<Act>)
    requires l.owed == {} && forall act :: act in acts ==> Plain(act)
    ensures AllInOrder(l, acts) && PostAll(l, acts).owed == {} && PostAll(l, acts).free == l.free
    decreases |acts|
  {
    if acts != [] {
      assert acts[0] in acts;
      PlainInOrder(Post(l, acts[0]), acts[1..]);
    }
  }

  lemma {:induction false} KeepsCurrent(l: Ledger, acts: seq<Act>)
    requires forall act :: act in acts ==> !act.Load? && !act.Require?
    ensures PostAll(l, acts).current == l.current
    decreases |acts|
  {
    if acts != [] {
      assert acts[0] in acts;
      KeepsCurrent(Post(l, acts[0]), acts[1..]);
    }
  }

  lemma {:induction false} PrepareAllOwes(l: Ledger, targets: seq<Target>)
    ensures AllInOrder(l, PrepareAll(targets)) && PostAll(l, PrepareAll(targets)).owed == l.owed + T.IdSet(targets)
    decreases |targets|
  {
    if targets == [] {
      assert T.IdSet(targets) == {};
    } else {
      var act := PrepareCollected(targets[0].id);
      PrepareAllOwes(Post(l, act), targets[1..]);
      assert PrepareAll(targets)[0] == act && PrepareAll(targets)[1..] == PrepareAll(targets[1..]);
      IdsSplit(targets);
    }
  }

  lemma IdsSplit(targets: seq<Target>)
    requires targets != []
    ensures T.IdSet(targets) == {targets[0].id} + T.IdSet(targets[1..])
  {
    assert targets == [targets[0]] + targets[1..];
  }

  lemma {:induction false} ClaimAllSettles(l: Ledger, targets: seq<Target>)
    ensures AllInOrder(l, ClaimAll(targets)) && PostAll(l, ClaimAll(targets)).owed == l.owed - T.IdSet(targets)
    decreases |targets|
  {
    if targets == [] {
      assert T.IdSet(targets) == {};
    } else {
      var act := ClaimTarget(targets[0].id, targets[0].revision);
      ClaimAllSettles(Post(l, act), targets[1..]);
      assert ClaimAll(targets)[0] == act && ClaimAll(targets)[1..] == ClaimAll(targets[1..]);
      IdsSplit(targets);
    }
  }

  lemma {:induction false} CompleteAllInOrder(l: Ledger, targets: seq<Target>)
    requires l.owed == {}
    ensures AllInOrder(l, CompleteAll(targets)) && PostAll(l, CompleteAll(targets)).owed == {}
    decreases |targets|
  {
    if targets != [] {
      var id := targets[0].id;
      var one := [Require(id, Verifying), SetState(Available), ReleaseTarget(id)];
      var next := Ledger({}, l.free + {id}, Some(id));
      OneInOrder(l, id);
      CompleteAllInOrder(next, targets[1..]);
      OrderAppend(l, one, CompleteAll(targets[1..]));
    }
  }

  lemma OneInOrder(l: Ledger, id: AssignmentId)
    requires l.owed == {}
    ensures var one := [Require(id, Verifying), SetState(Available), ReleaseTarget(id)];
      AllInOrder(l, one) && PostAll(l, one) == Ledger({}, l.free + {id}, Some(id))
  {
    var a, b, c := Require(id, Verifying), SetState(Available), ReleaseTarget(id);
    assert [a, b, c][1..] == [b, c] && [b, c][1..] == [c] && [c][1..] == [];
    var l1 := Post(l, a);
    var l2 := Post(l1, b);
    assert l2 == Ledger({}, l.free + {id}, Some(id)) && Post(l2, c) == l2;
    assert PostAll(l, [a, b, c]) == PostAll(l1, [b, c]) == PostAll(l2, [c]) == PostAll(l2, []);
    assert AllInOrder(l2, [c]) && AllInOrder(l1, [b, c]);
  }

  const NOTHING := Ledger({}, {}, None)

  lemma HostPrepareInOrder(l: Ledger, targets: seq<Target>)
    requires l.owed == {}
    ensures AllInOrder(l, HostPrepare(targets)) && PostAll(l, HostPrepare(targets)).owed == {}
  {
    var opening, rest := [ReadHost, SetHost(HostPlanning)] + CollectAll(targets), T.AfterClaims(targets);
    var mark, claim := PrepareAll(targets), ClaimAll(targets);
    PlainAround(targets);
    PlainInOrder(l, opening);
    var l1 := PostAll(l, opening);
    PrepareAllOwes(l1, targets);
    var l2 := PostAll(l1, mark);
    ClaimAllSettles(l2, targets);
    var l3 := PostAll(l2, claim);
    assert l3.owed == {};
    PlainInOrder(l3, rest);
    hide AllInOrder, PostAll;
    OrderAppend(l, opening + mark + claim, rest);
    OrderAppend(l, opening + mark, claim);
    OrderAppend(l, opening, mark);
    T.PrepareParts(targets);
    assert HostPrepare(targets) == opening + mark + claim + rest;
  }

  lemma PlainAround(targets: seq<Target>)
    ensures forall act :: act in [ReadHost, SetHost(HostPlanning)] + CollectAll(targets) ==> Plain(act)
    ensures forall act :: act in T.AfterClaims(targets) ==> Plain(act)
  {
    T.EachQuiet(targets);
    R.GuardsSteady(DataClusters(targets));
    ReadyPlain(targets);
  }

  lemma {:induction false} ReadyPlain(targets: seq<Target>)
    ensures forall act :: act in ReadyAll(targets) ==> Plain(act)
    decreases |targets|
  {
    if targets != [] {
      ReadyPlain(targets[1..]);
    }
  }

  lemma {:induction false} LoopsPlain(sorted: seq<Target>, index: nat)
    ensures forall act :: act in StopAll(sorted, index) ==> Plain(act)
    ensures forall act :: act in ReturnAll(sorted, index) ==> Plain(act)
    decreases |sorted|
  {
    if sorted != [] {
      LoopsPlain(sorted[1..], index + 1);
    }
  }

  lemma ReturnWorkPlain(targets: seq<Target>, rebooted: bool)
    ensures forall act :: act in HostReturnWork(targets, rebooted) + [FinalizePlan] ==> Plain(act)
  {
    LoopsPlain(StartOrder(targets), 1);
    R.GuardsSteady(DataClusters(targets));
    ChecksPlain(rebooted);
    forall act | act in HostReturnWork(targets, rebooted) + [FinalizePlan] ensures Plain(act) {
      assert act in Rediscovery() || act in ReturnAll(StartOrder(targets), 1) || act in UnguardAll(DataClusters(targets))
        || act in VerifyAll() || act in Cleanup(rebooted) || act == FinalizePlan;
    }
  }

  lemma ChecksPlain(rebooted: bool)
    ensures forall act :: act in Rediscovery() ==> Plain(act)
    ensures forall act :: act in VerifyAll() ==> Plain(act)
    ensures forall act :: act in Cleanup(rebooted) ==> Plain(act)
  {
  }

  lemma HostReturnInOrder(l: Ledger, targets: seq<Target>, rebooted: bool)
    requires l.owed == {}
    ensures AllInOrder(l, HostReturn(targets, rebooted)) && PostAll(l, HostReturn(targets, rebooted)).owed == {}
  {
    var work, complete, free := HostReturnWork(targets, rebooted) + [FinalizePlan], CompleteAll(targets), [SetHost(HostAvailable)];
    ReturnWorkPlain(targets, rebooted);
    PlainInOrder(l, work);
    CompleteAllInOrder(PostAll(l, work), targets);
    var l2 := PostAll(PostAll(l, work), complete);
    PlainInOrder(l2, free);
    hide AllInOrder, PostAll;
    OrderAppend(l, work + complete, free);
    OrderAppend(l, work, complete);
  }

  lemma HostInOrder(l: Ledger, action: R.HostAction, targets: seq<Target>)
    requires l.owed == {}
    ensures AllInOrder(l, R.HostProgram(action, targets)) && PostAll(l, R.HostProgram(action, targets)).owed == {}
  {
    match action
    case PrepareAction => HostPrepareInOrder(l, targets);
    case StopAction =>
      LoopsPlain(StopOrder(targets), 1);
      PlainInOrder(l, HostStop(targets));
    case RebootAction => PlainInOrder(l, HostReboot());
    case ReturnAction(rebooted) => HostReturnInOrder(l, targets, rebooted);
  }

  lemma ContainerPrepareInOrder(l: Ledger, t: Target)
    requires l.owed == {}
    ensures AllInOrder(l, ContainerPrepare(t)) && PostAll(l, ContainerPrepare(t)).owed == {}
  {
    var first := [Load(t.id), SetState(Preparing), ClaimTarget(t.id, t.revision)];
    var guards := if t.dataBearing then GuardAll([t.cluster]) else [];
    var rest := [Finished(CPrepare)] + guards + [SetState(ReadyToStop)];
    R.GuardsSteady([t.cluster]);
    FirstInOrder(l, t);
    PlainInOrder(PostAll(l, first), rest);
    OrderAppend(l, first, rest);
    assert ContainerPrepare(t) == first + rest;
  }

  lemma FirstInOrder(l: Ledger, t: Target)
    requires l.owed == {}
    ensures var first := [Load(t.id), SetState(Preparing), ClaimTarget(t.id, t.revision)];
      AllInOrder(l, first) && PostAll(l, first).owed == {}
  {
    var a, b, c := Load(t.id), SetState(Preparing), ClaimTarget(t.id, t.revision);
    assert [a, b, c][1..] == [b, c] && [b, c][1..] == [c] && [c][1..] == [];
    var l1 := Post(l, a);
    var l2 := Post(l1, b);
    var l3 := Post(l2, c);
    assert l3.owed == {};
    assert PostAll(l, [a, b, c]) == PostAll(l1, [b, c]) == PostAll(l2, [c]) == PostAll(l3, []);
    assert AllInOrder(l2, [c]) && AllInOrder(l1, [b, c]);
  }

  lemma ContainerReturnInOrder(l: Ledger, t: Target)
    requires l.owed == {} && l.current == Some(t.id)
    ensures AllInOrder(l, ContainerReturn(t)) && PostAll(l, ContainerReturn(t)).owed == {}
  {
    var guards := if t.dataBearing then UnguardAll([t.cluster]) else [];
    var work := ContainerStart(t) + ContainerReady(t) + ContainerCompanions(t) + guards;
    var end := [ReleaseTarget(t.id), SetState(Available), FinalizePlan];
    R.GuardsSteady([t.cluster]);
    PlainInOrder(l, work);
    KeepsCurrent(l, work);
    hide AllInOrder, PostAll;
    EndInOrder(PostAll(l, work), t);
    OrderAppend(l, work, end);
    assert ContainerReturn(t) == work + end;
  }

  lemma EndInOrder(l: Ledger, t: Target)
    requires l.owed == {} && l.current == Some(t.id)
    ensures var end := [ReleaseTarget(t.id), SetState(Available), FinalizePlan]; AllInOrder(l, end) && PostAll(l, end).owed == {}
  {
    var a, b, c := ReleaseTarget(t.id), SetState(Available), FinalizePlan;
    assert [a, b, c][1..] == [b, c] && [b, c][1..] == [c] && [c][1..] == [];
    var l1 := Post(l, a);
    var l2 := Post(l1, b);
    assert l2.owed == {} && Post(l2, c) == l2;
    assert PostAll(l, [a, b, c]) == PostAll(l1, [b, c]) == PostAll(l2, [c]) == PostAll(l2, []);
    assert AllInOrder(l2, [c]) && AllInOrder(l1, [b, c]);
  }

  lemma ContainerInOrder(l: Ledger, action: R.ContainerAction, t: Target)
    requires l.owed == {} && l.current == Some(t.id)
    ensures AllInOrder(l, M.ContainerProgram(action, t)) && PostAll(l, M.ContainerProgram(action, t)).owed == {}
  {
    match action
    case PrepareContainer => ContainerPrepareInOrder(l, t);
    case StopContainer => PlainInOrder(l, ContainerStop(t));
    case ReturnContainer => ContainerReturnInOrder(l, t);
  }

  // Runs.

  function LedgerOf(w: M.World, e: M.Event): Ledger
    requires e.Acts? || e.ContainerActs?
  {
    if e.Acts? then NOTHING else NOTHING.(current := Some(w.target(e.ctx.plan).id))
  }

  lemma {:induction false} PrefixInOrder(l: Ledger, acts: seq<Act>, k: nat)
    requires AllInOrder(l, acts) && k <= |acts|
    ensures AllInOrder(l, acts[..k])
  {
    assert acts == acts[..k] + acts[k..];
    OrderAppend(l, acts[..k], acts[k..]);
  }

  lemma SameRowsClaimed(db: Db, opening: Db)
    requires OwnedClaimed(db) && M.SameRows(db, opening)
    ensures OwnedClaimed(opening)
  {
    forall id | AssignmentOf(opening, id).plan.Some? ensures M.Claimed(opening, id) {
      assert AssignmentOf(db, id).plan.Some?;
    }
  }

  lemma ActionKeepsClaims(w: M.World, s: Sys, e: M.Event)
    requires (e.Acts? || e.ContainerActs?) && M.Possible(w, s, e) && M.Inv(w, s) && OwnedClaimed(s.db)
    ensures OwnedClaimed(M.After(w, s, e).db)
  {
    var acts, l, start := M.EventProgram(w, e), LedgerOf(w, e), M.Opened(s, e, w);
    if e.Acts? {
      HostInOrder(l, e.action, w.manifest(e.ctx.plan));
    } else {
      ContainerInOrder(l, e.container, w.target(e.ctx.plan));
    }
    PrefixInOrder(l, acts, e.cut);
    SameRowsClaimed(s.db, e.opening);
    assert Balanced(l, start) && R.RowsOk(start.db);
    hide Saga.Exec, AllInOrder, PostAll;
    ExecBalances(e.ctx, l, acts[..e.cut], start);
    assert e.cut == |acts| ==> acts[..e.cut] == acts;
  }

  lemma ReconcileKeepsClaims(w: M.World, db: Db, plan: PlanId)
    requires R.RowsOk(db) && OwnedClaimed(db)
    ensures OwnedClaimed(M.Reconciled(w, db, plan))
  {
    var first := if w.ofHost(plan) then R.RecoverHost(db, plan, w.node(plan)) else db;
    R.HostRecovers(db, plan, w.node(plan));
    R.AssignmentsRecover(first, plan, if w.ofHost(plan) then w.manifest(plan) else [w.target(plan)]);
    var after := M.Reconciled(w, db, plan);
    assert after.workloads == db.workloads && first.assignments == db.assignments;
    forall id | AssignmentOf(after, id).plan.Some? ensures M.Claimed(after, id) {
      assert AssignmentOf(first, id) == AssignmentOf(db, id) && M.Claimed(db, id);
    }
  }

  /** Main result on claims. Start with every owned workload claimed (on free
      tables none is owned). After any run of any plans' host and container
      actions, each broken off anywhere, with reconciliations and other work in
      between, every workload whose maintenance a plan owns is still claimed. */
  lemma {:induction false} OwnedIsClaimed(w: M.World, s: Sys, events: seq<M.Event>)
    requires M.Inv(w, s) && OwnedClaimed(s.db) && M.Feasible(w, s, events)
    ensures OwnedClaimed(M.Run(w, s, events).db)
    decreases |events|
  {
    if events != [] {
      M.AfterKeeps(w, s, events[0]);
      match events[0] {
        case Reconciles(plan) => ReconcileKeepsClaims(w, s.db, plan);
        case Elsewhere(db) =>
          assert forall id :: AssignmentOf(db, id) == AssignmentOf(s.db, id);
        case _ => ActionKeepsClaims(w, s, events[0]);
      }
      OwnedIsClaimed(w, M.After(w, s, events[0]), events[1..]);
    }
  }

  // What that means for a container's preparation. Unlike the host workflow it
  // does not ask whether its workload is available, and it marks the row before
  // it claims the workload.

  /** On a claimed workload it raises at the claim at the latest, and nothing it
      has written survives, wherever it breaks off. */
  lemma ClaimedIsRefused(ctx: Ctx, s: Sys, t: Target, k: nat)
    requires R.Proper(ctx) && M.Claimed(s.db, t.id) && k <= |ContainerPrepare(t)|
    ensures Exec(ctx, ContainerPrepare(t)[..k], s).sys.durable == s.durable
    ensures k >= 3 ==> Exec(ctx, ContainerPrepare(t)[..k], s).Raised?
  {
    var acts := ContainerPrepare(t);
    var s1 := Step(ctx, s, acts[0]).sys;
    assert acts[0] == Load(t.id) && acts[1] == SetState(Preparing) && acts[2] == ClaimTarget(t.id, t.revision);
    M.StepDurable(ctx, acts[0], s);
    M.StepDurable(ctx, acts[1], s1);
    if k > 0 {
      M.FirstStep(ctx, acts, k, s);
      var o2 := Step(ctx, s1, acts[1]);
      MarkKeepsClaims(ctx, s, t.id);
      if k > 1 {
        M.FirstStep(ctx, acts[1..], k - 1, s1);
        if k > 2 && o2.Running? {
          M.FirstStep(ctx, acts[1..][1..], k - 2, o2.sys);
          ClaimRefused(ctx, o2.sys, t);
        } else if k == 2 {
          assert acts[1..][1..][..0] == [];
        }
      } else {
        assert acts[1..][..0] == [];
      }
    }
  }

  lemma MarkKeepsClaims(ctx: Ctx, s: Sys, id: AssignmentId)
    ensures var s1 := Step(ctx, s, Load(id)).sys;
      && Step(ctx, s, Load(id)).Running? && Step(ctx, s1, SetState(Preparing)).sys.db.workloads == s.db.workloads
  {
  }

  lemma ClaimRefused(ctx: Ctx, s: Sys, t: Target)
    requires M.Claimed(s.db, t.id)
    ensures Step(ctx, s, ClaimTarget(t.id, t.revision)) == Raised(s)
  {
  }

  /** So after any such run no container preparation takes a workload over: if any
      plan owns the workload's maintenance, the preparation cannot complete and
      what is committed stays as it was; and one that completes found its workload
      available, under no plan and unclaimed. */
  lemma PrepareTakesNothingOver(w: M.World, s: Sys, events: seq<M.Event>, ctx: Ctx, opening: Db, cut: nat)
    requires M.Inv(w, s) && OwnedClaimed(s.db) && M.Feasible(w, s, events)
    requires var e := M.ContainerActs(ctx, R.PrepareContainer, opening, cut);
      M.Possible(w, M.Run(w, s, events), e)
    ensures var here, t, e := M.Run(w, s, events), w.target(ctx.plan), M.ContainerActs(ctx, R.PrepareContainer, opening, cut);
      var o := Exec(ctx, ContainerPrepare(t)[..cut], M.Opened(here, e, w));
      && (AssignmentOf(here.db, t.id).plan.Some? ==> o.sys.durable == here.durable && (cut >= 3 ==> o.Raised?))
      && (cut >= 3 && o.Running? ==>
            !M.Claimed(here.db, t.id) && AssignmentOf(here.db, t.id).plan == None && AssignmentOf(here.db, t.id).workflow == Available)
  {
    OwnedIsClaimed(w, s, events);
    M.RunKeeps(w, s, events);
    var here, t := M.Run(w, s, events), w.target(ctx.plan);
    var start := M.Opened(here, M.ContainerActs(ctx, R.PrepareContainer, opening, cut), w);
    R.RowsOkAt(here.db, ctx.node, t.id);
    if M.Claimed(here.db, t.id) {
      ClaimedIsRefused(ctx, start, t, cut);
    }
  }
}
