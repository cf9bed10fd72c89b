/** What a host action that completes has done, and what it has not. */
module SagaCompletion {
  import opened Wrappers
  import opened Lifecycle
  import opened Store
  import opened Saga
  import M = SagaMaintenance
  import R = SagaRecovery
  import T = SagaRoundTrip

  /** A return that completes has had a confirmed answer from the host, from every
      target's start, readiness and companions, from the final verification, and
      after a reboot from the executor's cleanup. */
  lemma ReturnedMeansVerified(ctx: Ctx, targets: seq<Target>, rebooted: bool, s: Sys, t: Target)
    requires R.Proper(ctx) && Exec(ctx, HostReturn(targets, rebooted), s).Running? && t in targets
    ensures var end := Exec(ctx, HostReturn(targets, rebooted), s).sys;
      && Remote(ctx.plan, HostReady, Confirmed) in end.calls
      && Remote(ctx.plan, StartUnit(t.id), Confirmed) in end.calls
      && Remote(ctx.plan, UnitReady(t.id), Confirmed) in end.calls
      && Remote(ctx.plan, ReconcileCompanions(t.id), Confirmed) in end.calls
      && (rebooted ==> Remote(ctx.plan, CleanupExecutor, Confirmed) in end.calls)
      && ctx.env.remote(VerifyReturn) == Confirmed
  {
    var acts := HostReturn(targets, rebooted);
    M.ExecLogs(ctx, acts, s);
    ReturnAsksAll(targets, rebooted, t);
    VerifiedInside(ctx, targets, rebooted, s);
  }

  lemma {:induction false} LoopAsks(sorted: seq<Target>, index: nat, t: Target)
    requires t in sorted
    ensures Ask(StartUnit(t.id)) in ReturnAll(sorted, index) && Ask(UnitReady(t.id)) in ReturnAll(sorted, index)
    ensures Ask(ReconcileCompanions(t.id)) in ReturnAll(sorted, index)
    decreases |sorted|
  {
    if sorted[0] == t {
      var one := ReturnOne(t, index);
      assert one[4] == Ask(StartUnit(t.id)) && one[8] == Ask(UnitReady(t.id)) && one[10] == Ask(ReconcileCompanions(t.id));
    } else {
      LoopAsks(sorted[1..], index + 1, t);
    }
  }

  lemma ReturnAsksAll(targets: seq<Target>, rebooted: bool, t: Target)
    requires t in targets
    ensures var acts := HostReturn(targets, rebooted);
      && Ask(HostReady) in acts && Ask(StartUnit(t.id)) in acts && Ask(UnitReady(t.id)) in acts
      && Ask(ReconcileCompanions(t.id)) in acts && (rebooted ==> Ask(CleanupExecutor) in acts)
  {
    var loop, tail, end := ReturnAll(StartOrder(targets), 1), T.ReturnTail(targets, rebooted), T.Completion(targets);
    T.ReturnParts(targets, rebooted);
    M.SortedMembers(StartPriority, targets);
    assert t in multiset(StartOrder(targets));
    LoopAsks(StartOrder(targets), 1, t);
    assert Rediscovery()[3] == Ask(HostReady);
    PartsInside(Rediscovery(), loop, tail, end);
    if rebooted {
      assert Cleanup(true)[3] == Ask(CleanupExecutor) && Ask(CleanupExecutor) in tail;
    }
  }

  lemma PartsInside(a: seq<Act>, b: seq<Act>, c: seq<Act>, d: seq<Act>)
    ensures forall act :: act in a || act in b || act in c ==> act in a + b + c + d
  {
  }

  /** The final verification answered `complete`, or the program would have
      stopped there. */
  lemma VerifiedInside(ctx: Ctx, targets: seq<Target>, rebooted: bool, s: Sys)
    requires Exec(ctx, HostReturn(targets, rebooted), s).Running?
    ensures ctx.env.remote(VerifyReturn) == Confirmed
  {
    hide Saga.Step;
    var work := Rediscovery() + ReturnAll(StartOrder(targets), 1) + UnguardAll(DataClusters(targets));
    var rest := Cleanup(rebooted) + [FinalizePlan] + CompleteAll(targets) + [SetHost(HostAvailable)];
    Regrouped(work, VerifyAll(), Cleanup(rebooted), [FinalizePlan], CompleteAll(targets), [SetHost(HostAvailable)]);
    assert HostReturn(targets, rebooted) == work + VerifyAll() + rest;
    ExecAppend(ctx, work + VerifyAll(), rest, s);
    ExecAppend(ctx, work, VerifyAll(), s);
    VerificationConfirms(ctx, Exec(ctx, work, s).sys);
  }

  lemma Regrouped(a: seq<Act>, b: seq<Act>, c: seq<Act>, d: seq<Act>, e: seq<Act>, f: seq<Act>)
    ensures a + b + c + d + e + f == a + b + (c + d + e + f)
  {
  }

  lemma ThreeSteps(ctx: Ctx, s: Sys, a: Act, b: Act, c: Act)
    requires Exec(ctx, [a, b, c], s).Running?
    ensures Step(ctx, s, a).Running? && Step(ctx, Step(ctx, s, a).sys, b).Running?
    ensures Step(ctx, Step(ctx, Step(ctx, s, a).sys, b).sys, c).Running?
  {
    hide Saga.Step;
    var s1 := Step(ctx, s, a).sys;
    assert [a, b, c][1..] == [b, c] && [b, c][1..] == [c];
    assert Exec(ctx, [a, b, c], s) == Exec(ctx, [b, c], s1);
    assert Exec(ctx, [b, c], s1) == Exec(ctx, [c], Step(ctx, s1, b).sys);
  }

  lemma RecordKeepsAnswer(ctx: Ctx, s: Sys)
    ensures Step(ctx, s, RecordReturn).sys.locals == s.locals
  {
  }

  lemma AskKeepsAnswer(ctx: Ctx, s: Sys)
    requires Step(ctx, s, AskReturn).Running?
    ensures Step(ctx, s, AskReturn).sys.locals.complete <==> ctx.env.remote(VerifyReturn) == Confirmed
  {
  }

  lemma RequireNeedsAnswer(ctx: Ctx, s: Sys)
    ensures Step(ctx, s, RequireReturn).Running? <==> s.locals.complete
  {
  }

  lemma VerificationConfirms(ctx: Ctx, s: Sys)
    requires Exec(ctx, VerifyAll(), s).Running?
    ensures ctx.env.remote(VerifyReturn) == Confirmed
  {
    hide Saga.Step, Saga.Exec;
    var announced := VerifyAll()[..2];
    assert VerifyAll() == announced + [AskReturn, RecordReturn, RequireReturn];
    ExecAppend(ctx, announced, [AskReturn, RecordReturn, RequireReturn], s);
    var s1 := Exec(ctx, announced, s).sys;
    ThreeSteps(ctx, s1, AskReturn, RecordReturn, RequireReturn);
    var s2 := Step(ctx, s1, AskReturn).sys;
    AskKeepsAnswer(ctx, s1);
    RecordKeepsAnswer(ctx, s2);
    RequireNeedsAnswer(ctx, Step(ctx, s2, RecordReturn).sys);
  }

  // What a failed action leaves behind.

  /** Recovery marks are written to the open transaction, and the exception that
      follows closes the connection without a commit. So wherever a host action
      breaks off, what survives is the tables from before it or as some earlier
      point `j` had them: the plan as it was opened or before, and no host and no
      assignment in recovery that was not so before. */
  lemma RecoveryMarksAreLost(ctx: Ctx, s: Sys, action: R.HostAction, targets: seq<Target>, k: nat) returns (j: nat)
    requires R.Proper(ctx) && R.RowsOk(s.db) && k <= |R.Work(action, targets)|
    ensures var broken := Exec(ctx, R.Work(action, targets)[..k], s).sys;
      var left := Exited(Raised(broken.(db := R.Recovered(broken.db, ctx, targets, true)))).db;
      && j <= k && left in {s.durable, Exec(ctx, R.Work(action, targets)[..j], s).sys.db}
      && left.plans in {s.durable.plans, s.db.plans}
      && (R.NoNewMarks(s.durable, left) || R.NoNewMarks(s.db, left))
  {
    R.WorkSound(action, targets);
    j := MarksAreLost(ctx, s, R.Work(action, targets), k);
  }

  /** The same for a container action. */
  lemma ContainerMarksAreLost(ctx: Ctx, s: Sys, action: R.ContainerAction, t: Target, k: nat) returns (j: nat)
    requires R.Proper(ctx) && R.RowsOk(s.db) && k <= |R.ContainerWork(action, t)|
    ensures var broken := Exec(ctx, R.ContainerWork(action, t)[..k], s).sys;
      var left := Exited(Raised(broken.(db := R.Recovered(broken.db, ctx, [t], false)))).db;
      && j <= k && left in {s.durable, Exec(ctx, R.ContainerWork(action, t)[..j], s).sys.db}
      && left.plans in {s.durable.plans, s.db.plans}
      && (R.NoNewMarks(s.durable, left) || R.NoNewMarks(s.db, left))
  {
    R.ContainerWorkSound(action, t);
    j := MarksAreLost(ctx, s, R.ContainerWork(action, t), k);
  }

  lemma Unmarking(act: Act)
    requires R.BeforeClose(act)
    ensures R.MarksNothing(act)
  {
  }

  lemma MarksAreLost(ctx: Ctx, s: Sys, acts: seq<Act>, k: nat) returns (j: nat)
    requires R.Proper(ctx) && R.RowsOk(s.db) && k <= |acts| && forall act :: act in acts ==> R.BeforeClose(act)
    ensures var left := Exec(ctx, acts[..k], s).sys.durable;
      && j <= k && left in {s.durable, Exec(ctx, acts[..j], s).sys.db}
      && left.plans in {s.durable.plans, s.db.plans}
      && (R.NoNewMarks(s.durable, left) || R.NoNewMarks(s.db, left))
  {
    hide Saga.Step, Saga.Exec, R.BeforeClose, R.HostMarked, R.AssignmentMarked;
    j := M.DurableIsEarlier(ctx, acts, k, s);
    forall act | act in acts[..j] ensures R.BeforeClose(act) && R.MarksNothing(act) {
      assert act in acts;
      Unmarking(act);
    }
    R.ExecKeepsRows(ctx, acts[..j], s);
    R.ExecMarksNothing(ctx, acts[..j], s);
  }
}
