/** The order in which units stop and start, and the step numbers that a host
    action hands out along the way. */
module SagaOrder {
  import opened Wrappers
  import opened Lifecycle
  import opened Store
  import opened Saga
  import M = SagaMaintenance
  import R = SagaRecovery
  import T = SagaRoundTrip

  // Stop order and start order.

  /** Whatever the role, known or not. */
  lemma PrioritiesMirror(role: string)
    ensures StopPriority(role) + StartPriority(role) == 60
  {
  }

  predicate Ordered(priority: string -> nat, sorted: seq<Target>) {
    |sorted| >= 2 ==> Before(priority, sorted[0], sorted[1]) && Ordered(priority, sorted[1..])
  }

  lemma {:induction false} InsertedOrdered(priority: string -> nat, t: Target, sorted: seq<Target>)
    requires Ordered(priority, sorted)
    ensures Ordered(priority, Inserted(priority, t, sorted))
    decreases |sorted|
  {
    if sorted == [] || Before(priority, t, sorted[0]) {
      assert Inserted(priority, t, sorted)[1..] == sorted;
    } else {
      InsertedOrdered(priority, t, sorted[1..]);
      assert Inserted(priority, t, sorted)[1..] == Inserted(priority, t, sorted[1..]);
    }
  }

  lemma {:induction false} SortedOrdered(priority: string -> nat, targets: seq<Target>)
    ensures Ordered(priority, Sorted(priority, targets))
    decreases |targets|
  {
    if targets != [] {
      SortedOrdered(priority, targets[1..]);
      InsertedOrdered(priority, targets[0], Sorted(priority, targets[1..]));
    }
  }

  lemma {:induction false} OrderedAt(priority: string -> nat, sorted: seq<Target>, i: nat, j: nat)
    requires Ordered(priority, sorted) && i <= j < |sorted|
    ensures i < j ==> Before(priority, sorted[i], sorted[j])
    decreases |sorted|
  {
    if i < j {
      if i > 0 {
        OrderedAt(priority, sorted[1..], i - 1, j - 1);
      } else if j > 1 {
        OrderedAt(priority, sorted[1..], 0, j - 1);
      }
    }
  }

  /** Targets of different classes start in exactly the reverse of their stop
      order; targets of one class go by assignment id both times. */
  lemma StartsInReverse(targets: seq<Target>, a: Target, b: Target, i: nat, j: nat, k: nat, l: nat)
    requires i < |StopOrder(targets)| && j < |StopOrder(targets)| && StopOrder(targets)[i] == a && StopOrder(targets)[j] == b
    requires k < |StartOrder(targets)| && l < |StartOrder(targets)| && StartOrder(targets)[k] == a && StartOrder(targets)[l] == b
    requires a.id != b.id
    ensures StopPriority(a.role) != StopPriority(b.role) ==> (i < j <==> l < k)
    ensures StopPriority(a.role) == StopPriority(b.role) ==> (i < j <==> a.id < b.id) && (k < l <==> a.id < b.id)
  {
    PrioritiesMirror(a.role);
    PrioritiesMirror(b.role);
    SortedOrdered(StopPriority, targets);
    SortedOrdered(StartPriority, targets);
    if i < j { OrderedAt(StopPriority, StopOrder(targets), i, j); } else { OrderedAt(StopPriority, StopOrder(targets), j, i); }
    if k < l { OrderedAt(StartPriority, StartOrder(targets), k, l); } else { OrderedAt(StartPriority, StartOrder(targets), l, k); }
  }

  // Step numbers.

  predicate PerTarget(name: HostStepName) {
    name in {Stop, StopComplete, Return, ReturnComplete, Verification}
  }

  predicate Used(name: HostStepName, index: nat, n: nat) {
    if PerTarget(name) then 1 <= index <= n else index == 0
  }

  ghost predicate NumbersDistinct(n: nat) {
    forall a: HostStepName, i: nat, b: HostStepName, j: nat ::
      Used(a, i, n) && Used(b, j, n) && HostSequence(a, i) == HostSequence(b, j) ==> a == b && i == j
  }

  /** With n targets no two steps of a host run share a number if and only if
      n is at most 99. */
  lemma DistinctExactlyUpTo99(n: nat)
    ensures NumbersDistinct(n) <==> n <= 99
  {
    if n > 99 {
      assert Used(Verification, 100, n) && Used(PostReturnStarted, 0, n);
      assert HostSequence(Verification, 100) == HostSequence(PostReturnStarted, 0);
    } else {
      forall a: HostStepName, i: nat, b: HostStepName, j: nat | Used(a, i, n) && Used(b, j, n) && HostSequence(a, i) == HostSequence(b, j)
        ensures a == b && i == j
      {
        BasesApart(a, i, b, j);
      }
    }
  }

  lemma BasesApart(a: HostStepName, i: nat, b: HostStepName, j: nat)
    requires Used(a, i, 99) && Used(b, j, 99) && HostSequence(a, i) == HostSequence(b, j)
    ensures a == b && i == j
  {
  }

  // What a shared number does to a run.

  /** Within a plan a number names one step: what the store's checks keep. */
  ghost predicate StepsUnique(db: Db) {
    forall x, y :: x in db.steps && y in db.steps && x.0 == y.0 && db.steps[x].sequence == db.steps[y].sequence ==> x == y
  }

  predicate Numbered(db: Db, plan: PlanId, key: StepKey, sequence: nat) {
    (plan, key) in db.steps && db.steps[(plan, key)].sequence == sequence
  }

  ghost predicate NumbersKept(a: Db, b: Db) {
    forall id :: id in a.steps ==> id in b.steps && b.steps[id].sequence == a.steps[id].sequence
  }

  lemma CreateUnique(db: Db, plan: PlanId, key: StepKey, sequence: nat, after: Db)
    requires StepsUnique(db) && CreateStep(db, plan, key, sequence) == Ok(after)
    ensures StepsUnique(after) && NumbersKept(db, after) && Numbered(after, plan, key, sequence)
  {
    if (plan, key) !in db.steps {
      forall x | x in db.steps && x.0 == plan ensures db.steps[x].sequence != sequence {
      }
    }
  }

  lemma MoveUnique(db: Db, plan: PlanId, key: StepKey, target: StepState, after: Db)
    requires StepsUnique(db) && TransitionStep(db, plan, key, target) == Ok(after)
    ensures StepsUnique(after) && NumbersKept(db, after)
  {
  }

  lemma RecordUnique(db: Db, plan: PlanId, e: StepEntry, after: Db)
    requires StepsUnique(db) && RecordStep(db, plan, e) == Ok(after)
    ensures StepsUnique(after) && NumbersKept(db, after) && Numbered(after, plan, e.row.step, e.sequence)
  {
    hide CreateStep, BeginStep, EndStep, RecordCheckpoint;
    var created, begun, ended := RecordShape(db, plan, e, after);
    CheckpointOnly(ended, plan, e.checkpoint, e.row, after);
    CreateUnique(db, plan, e.row.step, e.sequence, created);
    BeginUnique(created, plan, e.row.step, begun);
    EndUnique(begun, plan, e.row.step, e.row.effect, ended);
    Numbers(db, created, begun, ended, plan, e.row.step, e.sequence);
  }

  lemma Numbers(db: Db, created: Db, begun: Db, ended: Db, plan: PlanId, key: StepKey, sequence: nat)
    requires NumbersKept(db, created) && NumbersKept(created, begun) && NumbersKept(begun, ended)
    requires Numbered(created, plan, key, sequence)
    ensures NumbersKept(db, ended) && Numbered(ended, plan, key, sequence)
  {
  }

  lemma BeginUnique(db: Db, plan: PlanId, key: StepKey, after: Db)
    requires StepsUnique(db) && BeginStep(db, plan, key) == Ok(after)
    ensures StepsUnique(after) && NumbersKept(db, after)
  {
    if after != db {
      MoveUnique(db, plan, key, StepExecuting, after);
    }
  }

  lemma EndUnique(db: Db, plan: PlanId, key: StepKey, effect: SideEffect, after: Db)
    requires StepsUnique(db) && EndStep(db, plan, key, effect) == Ok(after)
    ensures StepsUnique(after) && NumbersKept(db, after)
  {
    if after != db {
      MoveUnique(db, plan, key, StepVerified, after);
    }
  }

  lemma StepUnique(ctx: Ctx, s: Sys, act: Act)
    requires R.Proper(ctx) && StepsUnique(s.db) && Step(ctx, s, act).Running?
    ensures var after := Step(ctx, s, act).sys.db;
      && StepsUnique(after) && NumbersKept(s.db, after)
      && (act.Record? ==> Numbered(after, ctx.plan, act.key, act.sequence))
  {
    if Records(act) {
      RecordUnique(s.db, ctx.plan, EntryOf(ctx, s.locals, act), Step(ctx, s, act).sys.db);
    } else {
      OtherSteps(ctx, s, act);
    }
  }

  lemma OtherSteps(ctx: Ctx, s: Sys, act: Act)
    requires R.Proper(ctx) && !Records(act)
    ensures Step(ctx, s, act).sys.db.steps == s.db.steps
  {
    if act.Guard? {
      R.GuardTables(ctx, s, act.guard, act.cluster);
    } else if act.FinalizePlan? {
      R.FinalizeTables(ctx, s);
    } else if R.MovesRow(act) {
      MoveSteps(ctx, s, act);
    }
  }

  lemma MoveSteps(ctx: Ctx, s: Sys, act: Act)
    requires R.MovesRow(act)
    ensures Step(ctx, s, act).sys.db.steps == s.db.steps
  {
  }

  /** A run that completes has given every step its number, and each number to
      one step. */
  lemma {:induction false} ExecUnique(ctx: Ctx, acts: seq<Act>, s: Sys)
    requires R.Proper(ctx) && StepsUnique(s.db) && Exec(ctx, acts, s).Running?
    ensures var after := Exec(ctx, acts, s).sys.db;
      && StepsUnique(after) && NumbersKept(s.db, after)
      && (forall act :: act in acts && act.Record? ==> Numbered(after, ctx.plan, act.key, act.sequence))
    decreases |acts|
  {
    if acts != [] {
      StepUnique(ctx, s, acts[0]);
      ExecUnique(ctx, acts[1..], Step(ctx, s, acts[0]).sys);
    }
  }

  lemma OneStepPerNumber(db: Db, plan: PlanId, a: StepKey, b: StepKey, sequence: nat)
    requires StepsUnique(db) && Numbered(db, plan, a, sequence) && Numbered(db, plan, b, sequence)
    ensures a == b
  {
    assert (plan, a) == (plan, b);
  }

  lemma Collides(ctx: Ctx, acts: seq<Act>, s: Sys, a: Act, b: Act)
    requires R.Proper(ctx) && StepsUnique(s.db) && a in acts && b in acts
    requires a.Record? && b.Record? && a.key != b.key && a.sequence == b.sequence
    ensures Exec(ctx, acts, s).Raised?
  {
    if Exec(ctx, acts, s).Running? {
      ExecUnique(ctx, acts, s);
      OneStepPerNumber(Exec(ctx, acts, s).sys.db, ctx.plan, a.key, b.key, a.sequence);
    }
  }

  lemma {:induction false} ReturnRecords(targets: seq<Target>, index: nat, i: nat)
    requires i < |targets|
    ensures HostRecord(Verification, Some(targets[i].id), index + i, EffectVerified) in ReturnAll(targets, index)
    decreases |targets|
  {
    if i == 0 {
      assert ReturnOne(targets[0], index)[11] in ReturnOne(targets[0], index);
    } else {
      ReturnRecords(targets[1..], index + 1, i - 1);
    }
  }

  lemma {:induction false} StopRecords(targets: seq<Target>, index: nat, i: nat)
    requires i < |targets|
    ensures HostRecord(Stop, Some(targets[i].id), index + i, MayHaveStarted) in StopAll(targets, index)
    ensures HostRecord(StopComplete, Some(targets[i].id), index + i, EffectVerified) in StopAll(targets, index)
    decreases |targets|
  {
    if i == 0 {
      assert StopOne(targets[0], index)[2] in StopOne(targets[0], index);
      assert StopOne(targets[0], index)[5] in StopOne(targets[0], index);
    } else {
      StopRecords(targets[1..], index + 1, i - 1);
    }
  }

  lemma SortedLength(priority: string -> nat, targets: seq<Target>)
    ensures |Sorted(priority, targets)| == |targets|
  {
    M.SortedMembers(priority, targets);
    assert |multiset(Sorted(priority, targets))| == |multiset(targets)|;
  }

  lemma ReturnAnnounces(targets: seq<Target>, rebooted: bool)
    ensures HostRecord(PostReturnStarted, None, 0, MayHaveStarted) in HostReturn(targets, rebooted)
  {
    var announced := HostRecord(PostReturnStarted, None, 0, MayHaveStarted);
    assert VerifyAll()[0] == announced;
    assert announced in Rediscovery() + ReturnAll(StartOrder(targets), 1) + UnguardAll(DataClusters(targets)) + VerifyAll();
    assert announced in HostReturnWork(targets, rebooted);
  }

  lemma LoopInside(a: seq<Act>, loop: seq<Act>, b: seq<Act>)
    ensures forall act :: act in loop ==> act in a + loop + b
  {
  }

  /** A program that verifies 100 targets and announces the final check asks for
      one number twice. */
  lemma HundredVerificationsCollide(ctx: Ctx, s: Sys, sorted: seq<Target>, acts: seq<Act>)
    requires R.Proper(ctx) && StepsUnique(s.db) && |sorted| >= 100
    requires forall act :: act in ReturnAll(sorted, 1) ==> act in acts
    requires HostRecord(PostReturnStarted, None, 0, MayHaveStarted) in acts
    ensures Exec(ctx, acts, s).Raised?
  {
    ReturnRecords(sorted, 1, 99);
    Collides(ctx, acts, s,
             HostRecord(Verification, Some(sorted[99].id), 100, EffectVerified), HostRecord(PostReturnStarted, None, 0, MayHaveStarted));
  }

  lemma LargeReturnFails(ctx: Ctx, s: Sys, targets: seq<Target>, rebooted: bool)
    requires R.Proper(ctx) && StepsUnique(s.db) && |targets| >= 100
    ensures Exec(ctx, HostReturn(targets, rebooted), s).Raised?
  {
    SortedLength(StartPriority, targets);
    ReturnAnnounces(targets, rebooted);
    T.ReturnParts(targets, rebooted);
    LoopInside(Rediscovery(), ReturnAll(StartOrder(targets), 1), T.ReturnTail(targets, rebooted) + T.Completion(targets));
    Associated(Rediscovery(), ReturnAll(StartOrder(targets), 1), T.ReturnTail(targets, rebooted), T.Completion(targets));
    HundredVerificationsCollide(ctx, s, StartOrder(targets), HostReturn(targets, rebooted));
  }

  lemma Associated(a: seq<Act>, b: seq<Act>, c: seq<Act>, d: seq<Act>)
    ensures a + b + c + d == a + b + (c + d)
  {
  }

  lemma LargeStopFails(ctx: Ctx, s: Sys, targets: seq<Target>)
    requires R.Proper(ctx) && StepsUnique(s.db) && |targets| >= 101
    ensures Exec(ctx, HostStop(targets), s).Raised?
  {
    var sorted := StopOrder(targets);
    SortedLength(StopPriority, targets);
    StopRecords(sorted, 1, 0);
    StopRecords(sorted, 1, 100);
    var early, late := HostRecord(StopComplete, Some(sorted[0].id), 1, EffectVerified), HostRecord(Stop, Some(sorted[100].id), 101, MayHaveStarted);
    assert early in HostStop(targets) && late in HostStop(targets);
    Collides(ctx, HostStop(targets), s, early, late);
  }

  /** No host with more than 99 workloads ever completes its return, and with
      more than 100 not even its stop: the shared number is refused, whatever
      the adapters answer. */
  lemma LargeHostsCannotReturn(ctx: Ctx, s: Sys, targets: seq<Target>, rebooted: bool)
    requires R.Proper(ctx) && StepsUnique(s.db)
    ensures Exec(ctx, HostReturn(targets, rebooted), s).Running? ==> |targets| <= 99
    ensures Exec(ctx, HostStop(targets), s).Running? ==> |targets| <= 100
  {
    if |targets| >= 100 {
      LargeReturnFails(ctx, s, targets, rebooted);
    }
    if |targets| >= 101 {
      LargeStopFails(ctx, s, targets);
    }
  }
}
