/** A whole maintenance, foretold: with willing adapters and unexpired locks it
    completes, for any targets that are free, up to the number at which the step
    numbers run out. */
module SagaJourney {
  import opened Wrappers
  import opened Lifecycle
  import opened Store
  import opened Saga
  import opened SagaProgress
  import O = SagaOrder
  import R = SagaRecovery
  import T = SagaRoundTrip

  /** A program accepted statement by statement, with the forecasts in between. */
  lemma {:induction false} Traced(ctx: Ctx, start: Db, acts: seq<Act>, fs: seq<Forecast>)
    requires |fs| == |acts| + 1
    requires forall i :: 0 <= i < |acts| ==> Accepts(ctx, start, fs[i], acts[i]) && fs[i + 1] == After(ctx, fs[i], acts[i])
    ensures AcceptsAll(ctx, start, fs[0], acts) && AfterAll(ctx, fs[0], acts) == fs[|acts|]
    decreases |acts|
  {
    hide Accepts, After;
    if acts != [] {
      Traced(ctx, start, acts[1..], fs[1..]);
    }
  }

  /** The rest of a program after its first statement. */
  lemma First(ctx: Ctx, start: Db, f: Forecast, act: Act, rest: seq<Act>)
    requires Accepts(ctx, start, f, act) && AcceptsAll(ctx, start, After(ctx, f, act), rest)
    ensures AcceptsAll(ctx, start, f, [act] + rest) && AfterAll(ctx, f, [act] + rest) == AfterAll(ctx, After(ctx, f, act), rest)
  {
    hide Accepts, After;
    assert ([act] + rest)[1..] == rest;
  }

  predicate AllIn(f: Forecast, targets: seq<Target>, workflow: WorkflowState) {
    forall t :: t in targets ==> t.id in f.rows.states && f.rows.states[t.id] == workflow
  }

  /** Only rows of these targets have changed. */
  predicate OthersSame(f: Forecast, b: Forecast, targets: seq<Target>) {
    forall id :: id in f.rows.states && id !in T.IdSet(targets) ==> id in b.rows.states && b.rows.states[id] == f.rows.states[id]
  }

  predicate HeadApart(targets: seq<Target>) {
    targets == [] || (HeadApart(targets[1..]) && forall t :: t in targets[1..] ==> t.id != targets[0].id)
  }

  lemma {:induction false} CollectAllGoes(ctx: Ctx, start: Db, f: Forecast, targets: seq<Target>)
    requires AllIn(f, targets, Available)
    ensures AcceptsAll(ctx, start, f, CollectAll(targets))
    ensures var b := AfterAll(ctx, f, CollectAll(targets));
      && b == f.(rows := f.rows.(collected := b.rows.collected)) && f.rows.collected <= b.rows.collected
      && forall t :: t in targets ==> t.id in b.rows.collected
    decreases |targets|
  {
    if targets != [] {
      var next := After(ctx, f, Collect(targets[0].id));
      CollectAllGoes(ctx, start, next, targets[1..]);
      First(ctx, start, f, Collect(targets[0].id), CollectAll(targets[1..]));
    }
  }

  lemma {:induction false} PrepareAllGoes(ctx: Ctx, start: Db, f: Forecast, targets: seq<Target>)
    requires AllIn(f, targets, Available) && HeadApart(targets) && forall t :: t in targets ==> t.id in f.rows.collected
    ensures AcceptsAll(ctx, start, f, PrepareAll(targets))
    ensures var b := AfterAll(ctx, f, PrepareAll(targets));
      b == f.(rows := b.rows) && AllIn(b, targets, Preparing) && OthersSame(f, b, targets)
    decreases |targets|
  {
    if targets != [] {
      var next := After(ctx, f, PrepareCollected(targets[0].id));
      PrepareAllGoes(ctx, start, next, targets[1..]);
      First(ctx, start, f, PrepareCollected(targets[0].id), PrepareAll(targets[1..]));
      RowsChained(f, next, AfterAll(ctx, next, PrepareAll(targets[1..])), targets, Preparing);
    }
  }

  lemma RowsChained(f: Forecast, next: Forecast, b: Forecast, targets: seq<Target>, workflow: WorkflowState)
    requires targets != [] && HeadApart(targets)
    requires next.rows.states == f.rows.states[targets[0].id := workflow]
    requires AllIn(b, targets[1..], workflow) && OthersSame(next, b, targets[1..])
    ensures AllIn(b, targets, workflow) && OthersSame(f, b, targets)
  {
    assert targets == [targets[0]] + targets[1..];
    assert T.IdSet(targets) == {targets[0].id} + T.IdSet(targets[1..]);
  }

  lemma {:induction false} ClaimAllGoes(ctx: Ctx, start: Db, f: Forecast, targets: seq<Target>)
    requires HeadApart(targets) && forall t :: t in targets ==> t.id in f.claims && f.claims[t.id] == Idle(t.revision)
    ensures AcceptsAll(ctx, start, f, ClaimAll(targets))
    ensures var b := AfterAll(ctx, f, ClaimAll(targets));
      && b == f.(claims := b.claims) && (forall t :: t in targets ==> t.id in b.claims && b.claims[t.id] == Held)
      && (forall id :: id in f.claims && f.claims[id] == Held ==> id in b.claims && b.claims[id] == Held)
    decreases |targets|
  {
    if targets != [] {
      var act := ClaimTarget(targets[0].id, targets[0].revision);
      var next := After(ctx, f, act);
      ClaimAllGoes(ctx, start, next, targets[1..]);
      First(ctx, start, f, act, ClaimAll(targets[1..]));
      assert targets == [targets[0]] + targets[1..];
    }
  }

  lemma ReadyOneGoes(ctx: Ctx, start: Db, f: Forecast, id: AssignmentId)
    requires id in f.rows.states && f.rows.states[id] == Preparing
    ensures var one := [Load(id), SetState(ReadyToStop)];
      var b := AfterAll(ctx, f, one);
      && AcceptsAll(ctx, start, f, one) && b == f.(rows := b.rows)
      && b.rows.states == f.rows.states[id := ReadyToStop]
  {
    var f1 := f.(rows := f.rows.(current := Some(id)));
    Traced(ctx, start, [Load(id), SetState(ReadyToStop)], [f, f1, f1.(rows := WithRow(f1.rows, id, ReadyToStop))]);
  }

  lemma {:induction false} ReadyAllGoes(ctx: Ctx, start: Db, f: Forecast, targets: seq<Target>)
    requires AllIn(f, targets, Preparing) && HeadApart(targets)
    ensures AcceptsAll(ctx, start, f, ReadyAll(targets))
    ensures var b := AfterAll(ctx, f, ReadyAll(targets));
      b == f.(rows := b.rows) && AllIn(b, targets, ReadyToStop) && OthersSame(f, b, targets)
    decreases |targets|
  {
    hide AcceptsAll, AfterAll, Accepts, After;
    if targets != [] {
      var one, rest := [Load(targets[0].id), SetState(ReadyToStop)], ReadyAll(targets[1..]);
      ReadyOneGoes(ctx, start, f, targets[0].id);
      var next := AfterAll(ctx, f, one);
      ReadyAllGoes(ctx, start, next, targets[1..]);
      AcceptsAppend(ctx, start, f, one, rest);
      RowsChained(f, next, AfterAll(ctx, next, rest), targets, ReadyToStop);
    } else {
      Empty(ctx, start, f);
    }
  }

  // The loops that record steps.

  /** The marks that a loop has added. */
  predicate MarksIn(marks: set<(StepKey, nat)>, names: set<HostStepName>, low: nat, high: nat) {
    forall m :: m in marks ==> m.0.HostStep? && m.0.name in names && low <= m.1 < high
  }

  /** A mark that is not in the way of these targets' records. */
  predicate MarkApart(m: (StepKey, nat), names: set<HostStepName>, targets: seq<Target>, index: nat) {
    && (m.0.HostStep? && m.0.name in names ==> forall t :: t in targets ==> m.0.target != Some(t.id))
    && (forall name :: name in names ==> m.1 < HostSequence(name, index) || HostSequence(name, index + |targets|) <= m.1)
  }

  /** Nothing recorded so far is in the way. */
  predicate Room(f: Forecast, names: set<HostStepName>, targets: seq<Target>, index: nat) {
    forall m :: m in f.marks ==> MarkApart(m, names, targets, index)
  }

  const STOPPING := {Stop, StopComplete}
  const RETURNING := {Return, ReturnComplete, Verification}

  /** One target's records, the `index`-th of the loop. */
  predicate OwnMarks(marks: set<(StepKey, nat)>, names: set<HostStepName>, t: Target, index: nat) {
    forall m :: m in marks ==> m.0.HostStep? && m.0.name in names && m.0.target == Some(t.id) && m.1 == HostSequence(m.0.name, index)
  }

  lemma RoomHere(f: Forecast, names: set<HostStepName>, targets: seq<Target>, index: nat, name: HostStepName)
    requires targets != [] && Room(f, names, targets, index) && name in names
    ensures Unused(f, HostStep(name, Some(targets[0].id)), HostSequence(name, index))
  {
    assert forall m :: m in f.marks ==> MarkApart(m, names, targets, index);
  }

  lemma RoomLeft(f: Forecast, next: Forecast, names: set<HostStepName>, targets: seq<Target>, index: nat)
    requires targets != [] && HeadApart(targets) && |targets| <= 100 && names in {STOPPING, RETURNING}
    requires Room(f, names, targets, index) && f.marks <= next.marks && OwnMarks(next.marks - f.marks, names, targets[0], index)
    ensures Room(next, names, targets[1..], index + 1)
  {
    forall m | m in next.marks ensures MarkApart(m, names, targets[1..], index + 1) {
      if m in f.marks {
        EarlierMark(m, names, targets, index);
      } else {
        assert m in next.marks - f.marks;
        OwnMark(m, names, targets, index);
      }
    }
  }

  lemma EarlierMark(m: (StepKey, nat), names: set<HostStepName>, targets: seq<Target>, index: nat)
    requires targets != [] && MarkApart(m, names, targets, index)
    ensures MarkApart(m, names, targets[1..], index + 1)
  {
  }

  lemma OwnMark(m: (StepKey, nat), names: set<HostStepName>, targets: seq<Target>, index: nat)
    requires targets != [] && HeadApart(targets) && |targets| <= 100 && names in {STOPPING, RETURNING}
    requires m.0.HostStep? && m.0.name in names && m.0.target == Some(targets[0].id) && m.1 == HostSequence(m.0.name, index)
    ensures MarkApart(m, names, targets[1..], index + 1)
  {
  }

  lemma MarksChained(f: Forecast, next: Forecast, b: Forecast, names: set<HostStepName>, t: Target, index: nat, low: nat, high: nat)
    requires f.marks <= next.marks && OwnMarks(next.marks - f.marks, names, t, index)
    requires forall name :: name in names ==> low <= HostSequence(name, index) < high
    requires next.marks <= b.marks && MarksIn(b.marks - next.marks, names, low, high)
    ensures f.marks <= b.marks && MarksIn(b.marks - f.marks, names, low, high)
  {
    forall m | m in b.marks - f.marks ensures m.0.HostStep? && m.0.name in names && low <= m.1 < high {
      if m in next.marks { assert m in next.marks - f.marks; } else { assert m in b.marks - next.marks; }
    }
  }

  /** Stopping and starting a unit go alike: take the row, announce, commit, ask,
      record, put the row on. */
  datatype Turn = Turn(from: WorkflowState, mid: WorkflowState, to: WorkflowState, begin: HostStepName, end: HostStepName)

  const STOP := Turn(ReadyToStop, Stopping, Maintenance, Stop, StopComplete)
  const START := Turn(Maintenance, Returning, Verifying, Return, ReturnComplete)

  function TurnHead(turn: Turn, id: AssignmentId, index: nat): seq<Act> {
    [Require(id, turn.from), SetState(turn.mid), HostRecord(turn.begin, Some(id), index, MayHaveStarted), Commit]
  }

  function TurnTail(turn: Turn, id: AssignmentId, index: nat, op: RemoteOp): seq<Act> {
    [Ask(op), HostRecord(turn.end, Some(id), index, EffectVerified), SetState(turn.to)]
  }

  function Mark(name: HostStepName, id: AssignmentId, index: nat): (StepKey, nat) {
    (HostStep(name, Some(id)), HostSequence(name, index))
  }

  lemma TurnHeadGoes(ctx: Ctx, start: Db, f: Forecast, turn: Turn, id: AssignmentId, index: nat)
    requires turn in {STOP, START} && id in f.rows.states && f.rows.states[id] == turn.from
    requires Unused(f, HostStep(turn.begin, Some(id)), HostSequence(turn.begin, index))
    ensures AcceptsAll(ctx, start, f, TurnHead(turn, id, index))
    ensures var b := AfterAll(ctx, f, TurnHead(turn, id, index));
      && b == f.(rows := b.rows, marks := f.marks + {Mark(turn.begin, id, index)})
      && b.rows.states == f.rows.states[id := turn.mid] && b.rows.current == Some(id)
  {
    var f1 := f.(rows := f.rows.(current := Some(id)));
    var f2 := f1.(rows := WithRow(f1.rows, id, turn.mid));
    var f3 := f2.(marks := f.marks + {Mark(turn.begin, id, index)});
    Traced(ctx, start, TurnHead(turn, id, index), [f, f1, f2, f3, f3]);
  }

  lemma TurnTailGoes(ctx: Ctx, start: Db, f: Forecast, turn: Turn, id: AssignmentId, index: nat, op: RemoteOp)
    requires turn in {STOP, START} && id in f.rows.states && f.rows.states[id] == turn.mid && f.rows.current == Some(id)
    requires ctx.env.remote(op).Confirmed? && Unused(f, HostStep(turn.end, Some(id)), HostSequence(turn.end, index))
    ensures AcceptsAll(ctx, start, f, TurnTail(turn, id, index, op))
    ensures var b := AfterAll(ctx, f, TurnTail(turn, id, index, op));
      && b == f.(rows := b.rows, marks := f.marks + {Mark(turn.end, id, index)}) && b.rows.states == f.rows.states[id := turn.to]
  {
    var f1 := f.(marks := f.marks + {Mark(turn.end, id, index)});
    var f2 := f1.(rows := WithRow(f1.rows, id, turn.to));
    Traced(ctx, start, TurnTail(turn, id, index, op), [f, f, f1, f2]);
  }

  lemma TurnGoes(ctx: Ctx, start: Db, f: Forecast, turn: Turn, id: AssignmentId, index: nat, op: RemoteOp)
    requires turn in {STOP, START} && id in f.rows.states && f.rows.states[id] == turn.from && ctx.env.remote(op).Confirmed?
    requires Unused(f, HostStep(turn.begin, Some(id)), HostSequence(turn.begin, index))
    requires Unused(f, HostStep(turn.end, Some(id)), HostSequence(turn.end, index))
    ensures var turned := TurnHead(turn, id, index) + TurnTail(turn, id, index, op);
      var b := AfterAll(ctx, f, turned);
      && AcceptsAll(ctx, start, f, turned)
      && b == f.(rows := b.rows, marks := b.marks) && b.rows.states == f.rows.states[id := turn.to]
      && b.marks == f.marks + {Mark(turn.begin, id, index), Mark(turn.end, id, index)}
  {
    hide Accepts, After, AcceptsAll, AfterAll;
    var head, tail := TurnHead(turn, id, index), TurnTail(turn, id, index, op);
    TurnHeadGoes(ctx, start, f, turn, id, index);
    var next := AfterAll(ctx, f, head);
    TurnTailGoes(ctx, start, next, turn, id, index, op);
    AcceptsAppend(ctx, start, f, head, tail);
    var b := AfterAll(ctx, next, tail);
    assert b.rows.states == f.rows.states[id := turn.to];
    assert b.marks == f.marks + {Mark(turn.begin, id, index), Mark(turn.end, id, index)};
  }

  lemma StopOneGoes(ctx: Ctx, start: Db, f: Forecast, t: Target, index: nat)
    requires t.id in f.rows.states && f.rows.states[t.id] == ReadyToStop && ctx.env.remote(StopUnit(t.id)).Confirmed?
    requires Unused(f, HostStep(Stop, Some(t.id)), HostSequence(Stop, index))
    requires Unused(f, HostStep(StopComplete, Some(t.id)), HostSequence(StopComplete, index))
    ensures AcceptsAll(ctx, start, f, StopOne(t, index))
    ensures var b := AfterAll(ctx, f, StopOne(t, index));
      && b == f.(rows := b.rows, marks := b.marks) && b.rows.states == f.rows.states[t.id := Maintenance]
      && f.marks <= b.marks && OwnMarks(b.marks - f.marks, STOPPING, t, index)
  {
    hide Accepts, After, AcceptsAll, AfterAll, Unused;
    TurnGoes(ctx, start, f, STOP, t.id, index, StopUnit(t.id));
    assert StopOne(t, index) == TurnHead(STOP, t.id, index) + TurnTail(STOP, t.id, index, StopUnit(t.id));
  }

  lemma StopMarksGrow(f: Forecast, next: Forecast, b: Forecast, t: Target, index: nat, end: nat)
    requires index < end <= index + 100 && f.marks <= next.marks && OwnMarks(next.marks - f.marks, STOPPING, t, index)
    requires next.marks <= b.marks && MarksIn(b.marks - next.marks, STOPPING, HostSequence(Stop, index + 1), HostSequence(StopComplete, end))
    ensures f.marks <= b.marks && MarksIn(b.marks - f.marks, STOPPING, HostSequence(Stop, index), HostSequence(StopComplete, end))
  {
    MarksWiden(b.marks - next.marks, STOPPING, HostSequence(Stop, index + 1), HostSequence(Stop, index), HostSequence(StopComplete, end));
    MarksChained(f, next, b, STOPPING, t, index, HostSequence(Stop, index), HostSequence(StopComplete, end));
  }

  lemma {:induction false} StopAllGoes(ctx: Ctx, start: Db, f: Forecast, targets: seq<Target>, index: nat)
    requires AllIn(f, targets, ReadyToStop) && HeadApart(targets) && Room(f, STOPPING, targets, index)
    requires |targets| <= 100
    requires forall t :: t in targets ==> ctx.env.remote(StopUnit(t.id)).Confirmed?
    ensures AcceptsAll(ctx, start, f, StopAll(targets, index))
    ensures var b := AfterAll(ctx, f, StopAll(targets, index));
      && b == f.(rows := b.rows, marks := b.marks) && AllIn(b, targets, Maintenance) && OthersSame(f, b, targets)
      && f.marks <= b.marks && MarksIn(b.marks - f.marks, STOPPING, HostSequence(Stop, index), HostSequence(StopComplete, index + |targets|))
    decreases |targets|
  {
    hide Room, OwnMarks, MarksIn, Unused, After, Accepts, AcceptsAll, AfterAll, Saga.StopOne, Saga.HostSequence;
    if targets != [] {
      var t, one, rest := targets[0], StopOne(targets[0], index), StopAll(targets[1..], index + 1);
      RoomHere(f, STOPPING, targets, index, Stop);
      RoomHere(f, STOPPING, targets, index, StopComplete);
      StopOneGoes(ctx, start, f, t, index);
      var next := AfterAll(ctx, f, one);
      RoomLeft(f, next, STOPPING, targets, index);
      StopAllGoes(ctx, start, next, targets[1..], index + 1);
      AcceptsAppend(ctx, start, f, one, rest);
      var b := AfterAll(ctx, next, rest);
      RowsChained(f, next, b, targets, Maintenance);
      StopMarksGrow(f, next, b, t, index, index + |targets|);
    } else {
      Empty(ctx, start, f);
      NoMarks(f, STOPPING, HostSequence(Stop, index), HostSequence(StopComplete, index));
    }
  }

  lemma MarksWiden(marks: set<(StepKey, nat)>, names: set<HostStepName>, low: nat, lower: nat, high: nat)
    requires MarksIn(marks, names, low, high) && lower <= low
    ensures MarksIn(marks, names, lower, high)
  {
  }

  lemma CheckGoes(ctx: Ctx, start: Db, f: Forecast, t: Target, index: nat)
    requires ctx.env.remote(UnitReady(t.id)).Confirmed? && ctx.env.remote(ReconcileCompanions(t.id)).Confirmed?
    requires Unused(f, HostStep(Verification, Some(t.id)), HostSequence(Verification, index))
    ensures var check := [Commit, Ask(UnitReady(t.id)), Commit, Ask(ReconcileCompanions(t.id)),
                          HostRecord(Verification, Some(t.id), index, EffectVerified)];
      AcceptsAll(ctx, start, f, check) && AfterAll(ctx, f, check) == f.(marks := f.marks + {Mark(Verification, t.id, index)})
  {
    var check := [Commit, Ask(UnitReady(t.id)), Commit, Ask(ReconcileCompanions(t.id)), HostRecord(Verification, Some(t.id), index, EffectVerified)];
    Traced(ctx, start, check, [f, f, f, f, f, f.(marks := f.marks + {Mark(Verification, t.id, index)})]);
  }

  /** A target's unit and what hangs on it answer as asked. */
  predicate Willing(ctx: Ctx, t: Target) {
    && ctx.env.remote(StopUnit(t.id)).Confirmed? && ctx.env.remote(StartUnit(t.id)).Confirmed?
    && ctx.env.remote(UnitReady(t.id)).Confirmed? && ctx.env.remote(ReconcileCompanions(t.id)).Confirmed?
  }

  lemma ReturnOneGoes(ctx: Ctx, start: Db, f: Forecast, t: Target, index: nat)
    requires t.id in f.rows.states && f.rows.states[t.id] == Maintenance && Willing(ctx, t)
    requires forall name :: name in RETURNING ==> Unused(f, HostStep(name, Some(t.id)), HostSequence(name, index))
    requires index <= 100
    ensures AcceptsAll(ctx, start, f, ReturnOne(t, index))
    ensures var b := AfterAll(ctx, f, ReturnOne(t, index));
      && b == f.(rows := b.rows, marks := b.marks) && b.rows.states == f.rows.states[t.id := Verifying]
      && f.marks <= b.marks && OwnMarks(b.marks - f.marks, RETURNING, t, index)
  {
    hide Accepts, After, AcceptsAll, AfterAll;
    var turned := TurnHead(START, t.id, index) + TurnTail(START, t.id, index, StartUnit(t.id));
    var check := [Commit, Ask(UnitReady(t.id)), Commit, Ask(ReconcileCompanions(t.id)), HostRecord(Verification, Some(t.id), index, EffectVerified)];
    TurnGoes(ctx, start, f, START, t.id, index, StartUnit(t.id));
    CheckGoes(ctx, start, AfterAll(ctx, f, turned), t, index);
    AcceptsAppend(ctx, start, f, turned, check);
    assert ReturnOne(t, index) == turned + check;
  }

  lemma NoMarks(f: Forecast, names: set<HostStepName>, low: nat, high: nat)
    ensures MarksIn(f.marks - f.marks, names, low, high)
  {
  }

  lemma RoomForAll(f: Forecast, names: set<HostStepName>, targets: seq<Target>, index: nat)
    requires targets != [] && Room(f, names, targets, index)
    ensures forall name :: name in names ==> Unused(f, HostStep(name, Some(targets[0].id)), HostSequence(name, index))
  {
  }

  lemma ReturnMarks(f: Forecast, next: Forecast, b: Forecast, t: Target, index: nat, end: nat)
    requires index < end && f.marks <= next.marks && OwnMarks(next.marks - f.marks, RETURNING, t, index)
    requires next.marks <= b.marks && MarksIn(b.marks - next.marks, RETURNING, HostSequence(Return, index + 1), HostSequence(Verification, end))
    requires end <= 101
    ensures f.marks <= b.marks && MarksIn(b.marks - f.marks, RETURNING, HostSequence(Return, index), HostSequence(Verification, end))
  {
    MarksWiden(b.marks - next.marks, RETURNING, HostSequence(Return, index + 1), HostSequence(Return, index), HostSequence(Verification, end));
    MarksChained(f, next, b, RETURNING, t, index, HostSequence(Return, index), HostSequence(Verification, end));
  }

  lemma {:induction false} ReturnAllGoes(ctx: Ctx, start: Db, f: Forecast, targets: seq<Target>, index: nat)
    requires AllIn(f, targets, Maintenance) && HeadApart(targets) && Room(f, RETURNING, targets, index)
    requires 1 <= index && index + |targets| <= 101 && forall t :: t in targets ==> Willing(ctx, t)
    ensures AcceptsAll(ctx, start, f, ReturnAll(targets, index))
    ensures var b := AfterAll(ctx, f, ReturnAll(targets, index));
      && b == f.(rows := b.rows, marks := b.marks) && AllIn(b, targets, Verifying) && OthersSame(f, b, targets)
      && f.marks <= b.marks && MarksIn(b.marks - f.marks, RETURNING, HostSequence(Return, index), HostSequence(Verification, index + |targets|))
    decreases |targets|
  {
    hide Room, OwnMarks, MarksIn, Unused, After, Accepts, AcceptsAll, AfterAll, Willing, Saga.ReturnOne, Saga.HostSequence;
    if targets != [] {
      var t, one, rest := targets[0], ReturnOne(targets[0], index), ReturnAll(targets[1..], index + 1);
      RoomForAll(f, RETURNING, targets, index);
      ReturnOneGoes(ctx, start, f, t, index);
      var next := AfterAll(ctx, f, one);
      RoomLeft(f, next, RETURNING, targets, index);
      ReturnAllGoes(ctx, start, next, targets[1..], index + 1);
      AcceptsAppend(ctx, start, f, one, rest);
      var b := AfterAll(ctx, next, rest);
      RowsChained(f, next, b, targets, Verifying);
      ReturnMarks(f, next, b, t, index, index + |targets|);
    } else {
      Empty(ctx, start, f);
      NoMarks(f, RETURNING, HostSequence(Return, index), HostSequence(Verification, index));
    }
  }

  // The other loops of a maintenance.

  predicate HeadOnce(clusters: seq<ClusterId>) {
    clusters == [] || (clusters[0] !in clusters[1..] && HeadOnce(clusters[1..]))
  }

  predicate AllAt(f: Forecast, clusters: seq<ClusterId>, stage: Stage) {
    forall c :: c in clusters ==> c in f.guards && f.guards[c] == stage
  }

  lemma GuardOneGoes(ctx: Ctx, start: Db, f: Forecast, c: ClusterId)
    requires c in f.guards && f.guards[c] == Unguarded && ctx.env.captureRead(c).Shows?
    ensures var one := [Commit, Guard(GuardCapture, c), Commit, Guard(GuardActivate, c)];
      AcceptsAll(ctx, start, f, one) && AfterAll(ctx, f, one) == f.(guards := f.guards[c := Kept])
  {
    var one := [Commit, Guard(GuardCapture, c), Commit, Guard(GuardActivate, c)];
    var captured, next := f.(guards := f.guards[c := JustCaptured]), f.(guards := f.guards[c := Kept]);
    assert captured.guards[c := Kept] == next.guards;
    Traced(ctx, start, one, [f, f, captured, captured, next]);
  }

  lemma {:induction false} GuardAllGoes(ctx: Ctx, start: Db, f: Forecast, clusters: seq<ClusterId>)
    requires AllAt(f, clusters, Unguarded) && HeadOnce(clusters)
    requires forall c :: c in clusters ==> ctx.env.captureRead(c).Shows?
    ensures AcceptsAll(ctx, start, f, GuardAll(clusters))
    ensures var b := AfterAll(ctx, f, GuardAll(clusters));
      && b == f.(guards := b.guards) && b.guards.Keys == f.guards.Keys && AllAt(b, clusters, Kept)
      && forall c :: c in f.guards && c !in clusters ==> b.guards[c] == f.guards[c]
    decreases |clusters|
  {
    if clusters != [] {
      hide AcceptsAll, AfterAll, Accepts, After;
      var c := clusters[0];
      var one := [Commit, Guard(GuardCapture, c), Commit, Guard(GuardActivate, c)];
      GuardOneGoes(ctx, start, f, c);
      GuardAllGoes(ctx, start, f.(guards := f.guards[c := Kept]), clusters[1..]);
      AcceptsAppend(ctx, start, f, one, GuardAll(clusters[1..]));
    } else {
      Empty(ctx, start, f);
    }
  }

  lemma Empty(ctx: Ctx, start: Db, f: Forecast)
    ensures AcceptsAll(ctx, start, f, []) && AfterAll(ctx, f, []) == f
  {
  }

  lemma {:induction false} UnguardAllGoes(ctx: Ctx, start: Db, f: Forecast, clusters: seq<ClusterId>)
    requires AllAt(f, clusters, Kept)
    ensures AcceptsAll(ctx, start, f, UnguardAll(clusters)) && AfterAll(ctx, f, UnguardAll(clusters)) == f
    decreases |clusters|
  {
    if clusters != [] {
      var one := [Commit, Guard(GuardRestore, clusters[0])];
      Traced(ctx, start, one, [f, f, f]);
      UnguardAllGoes(ctx, start, f, clusters[1..]);
      AcceptsAppend(ctx, start, f, one, UnguardAll(clusters[1..]));
    }
  }

  predicate AllHeld(f: Forecast, targets: seq<Target>) {
    forall t :: t in targets ==> t.id in f.claims && f.claims[t.id] == Held
  }

  lemma CompleteOneGoes(ctx: Ctx, start: Db, f: Forecast, id: AssignmentId)
    requires id in f.rows.states && f.rows.states[id] == Verifying && id in f.claims && f.claims[id] == Held
    ensures var one := [Require(id, Verifying), SetState(Available), ReleaseTarget(id)];
      var b := AfterAll(ctx, f, one);
      && AcceptsAll(ctx, start, f, one) && b == f.(rows := b.rows, claims := f.claims - {id})
      && b.rows.states == f.rows.states[id := Available]
  {
    var one := [Require(id, Verifying), SetState(Available), ReleaseTarget(id)];
    var f1 := f.(rows := f.rows.(current := Some(id)));
    var f2 := f1.(rows := WithRow(f1.rows, id, Available));
    Traced(ctx, start, one, [f, f1, f2, f2.(claims := f.claims - {id})]);
  }

  lemma {:induction false} CompleteAllGoes(ctx: Ctx, start: Db, f: Forecast, targets: seq<Target>)
    requires AllIn(f, targets, Verifying) && AllHeld(f, targets) && HeadApart(targets)
    ensures AcceptsAll(ctx, start, f, CompleteAll(targets))
    ensures var b := AfterAll(ctx, f, CompleteAll(targets)); b == f.(rows := b.rows, claims := b.claims)
    decreases |targets|
  {
    if targets != [] {
      hide AcceptsAll, AfterAll, Accepts, After;
      var id := targets[0].id;
      var one := [Require(id, Verifying), SetState(Available), ReleaseTarget(id)];
      CompleteOneGoes(ctx, start, f, id);
      CompleteAllGoes(ctx, start, AfterAll(ctx, f, one), targets[1..]);
      AcceptsAppend(ctx, start, f, one, CompleteAll(targets[1..]));
    } else {
      Empty(ctx, start, f);
    }
  }

  // The four actions.

  lemma {:induction false} SortedApart(priority: string -> nat, targets: seq<Target>)
    requires HeadApart(targets)
    ensures HeadApart(Sorted(priority, targets)) && forall t :: t in Sorted(priority, targets) <==> t in targets
    decreases |targets|
  {
    if targets != [] {
      SortedApart(priority, targets[1..]);
      InsertedApart(priority, targets[0], Sorted(priority, targets[1..]));
      assert targets == [targets[0]] + targets[1..];
    }
  }

  lemma {:induction false} InsertedApart(priority: string -> nat, t: Target, sorted: seq<Target>)
    requires HeadApart(sorted) && forall u :: u in sorted ==> u.id != t.id
    ensures HeadApart(Inserted(priority, t, sorted)) && forall u :: u in Inserted(priority, t, sorted) <==> u == t || u in sorted
    decreases |sorted|
  {
    if sorted == [] || Before(priority, t, sorted[0]) {
      assert Inserted(priority, t, sorted)[1..] == sorted;
    } else {
      InsertedApart(priority, t, sorted[1..]);
      assert Inserted(priority, t, sorted)[1..] == Inserted(priority, t, sorted[1..]);
      assert sorted == [sorted[0]] + sorted[1..];
    }
  }

  /** Each cluster once: the list rises. */
  predicate Rises(clusters: seq<ClusterId>) {
    |clusters| >= 2 ==> clusters[0] < clusters[1] && Rises(clusters[1..])
  }

  lemma {:induction false} InsertedRises(c: ClusterId, sorted: seq<ClusterId>)
    requires Rises(sorted)
    ensures Rises(InsertedCluster(c, sorted))
    decreases |sorted|
  {
    if sorted != [] && c > sorted[0] {
      InsertedRises(c, sorted[1..]);
      assert InsertedCluster(c, sorted)[1..] == InsertedCluster(c, sorted[1..]);
    } else if sorted == [] || c < sorted[0] {
      assert InsertedCluster(c, sorted)[1..] == sorted;
    }
  }

  lemma {:induction false} ClustersRise(targets: seq<Target>)
    ensures Rises(DataClusters(targets))
    decreases |targets|
  {
    if targets != [] {
      ClustersRise(targets[1..]);
      InsertedRises(targets[0].cluster, DataClusters(targets[1..]));
    }
  }

  lemma {:induction false} HeadIsLeast(clusters: seq<ClusterId>, i: nat)
    requires Rises(clusters) && 0 < i < |clusters|
    ensures clusters[0] < clusters[i]
    decreases i
  {
    if i > 1 {
      HeadIsLeast(clusters[1..], i - 1);
    }
  }

  lemma {:induction false} RisesOnce(clusters: seq<ClusterId>)
    requires Rises(clusters)
    ensures HeadOnce(clusters)
    decreases |clusters|
  {
    if clusters != [] {
      RisesOnce(clusters[1..]);
      forall i | 0 < i < |clusters| ensures clusters[i] != clusters[0] {
        HeadIsLeast(clusters, i);
      }
    }
  }

  predicate At(f: Forecast, state: HostState, workflow: WorkflowState) {
    f.host == HostView(state, workflow, true)
  }

  /** What a forecast of free targets needs for a preparation. */
  predicate Preparable(ctx: Ctx, f: Forecast, targets: seq<Target>) {
    && f.host.state == HostAvailable && f.host.workflow == Available && f.marks == {}
    && AllIn(f, targets, Available) && HeadApart(targets)
    && (forall t :: t in targets ==> t.id in f.claims && f.claims[t.id] == Idle(t.revision))
    && AllAt(f, DataClusters(targets), Unguarded)
    && forall c :: c in DataClusters(targets) ==> ctx.env.captureRead(c).Shows?
  }

  lemma AssignmentsGo(ctx: Ctx, start: Db, f: Forecast, targets: seq<Target>)
    requires AllIn(f, targets, Available) && HeadApart(targets)
    requires forall t :: t in targets ==> t.id in f.claims && f.claims[t.id] == Idle(t.revision)
    ensures AcceptsAll(ctx, start, f, PrepareAssignments(targets))
    ensures var b := AfterAll(ctx, f, PrepareAssignments(targets));
      && b == f.(rows := b.rows, claims := b.claims) && AllIn(b, targets, ReadyToStop) && AllHeld(b, targets)
  {
    hide AcceptsAll, AfterAll, Accepts, After;
    var a, m, c, r := CollectAll(targets), PrepareAll(targets), ClaimAll(targets), ReadyAll(targets);
    CollectAllGoes(ctx, start, f, targets);
    var f1 := AfterAll(ctx, f, a);
    PrepareAllGoes(ctx, start, f1, targets);
    var f2 := AfterAll(ctx, f1, m);
    ClaimAllGoes(ctx, start, f2, targets);
    var f3 := AfterAll(ctx, f2, c);
    ReadyAllGoes(ctx, start, f3, targets);
    AcceptsAppend(ctx, start, f, a + m + c, r);
    AcceptsAppend(ctx, start, f, a + m, c);
    AcceptsAppend(ctx, start, f, a, m);
  }

  lemma PrepareGoes(ctx: Ctx, start: Db, f: Forecast, targets: seq<Target>)
    requires Preparable(ctx, f, targets)
    ensures AcceptsAll(ctx, start, f, HostPrepare(targets))
    ensures var b := AfterAll(ctx, f, HostPrepare(targets));
      && At(b, HostPlanning, ReadyToStop) && AllIn(b, targets, ReadyToStop) && AllHeld(b, targets)
      && b.guards.Keys == f.guards.Keys && AllAt(b, DataClusters(targets), Kept)
      && (forall c :: c in f.guards && c !in DataClusters(targets) ==> b.guards[c] == f.guards[c])
      && b.marks == {(HostStep(Prepare, None), HostSequence(Prepare, 0))} && b.verified == f.verified && b.open == f.open
  {
    hide AcceptsAll, AfterAll, Accepts, After;
    var opening, record, ready := [ReadHost, SetHost(HostPlanning)], [HostRecord(Prepare, None, 0, EffectVerified)], [SetHostWorkflow(ReadyToStop)];
    var assignments, guards := PrepareAssignments(targets), GuardAll(DataClusters(targets));
    OpeningGoes(ctx, start, f);
    var f1 := f.(host := HostView(HostPlanning, Preparing, true));
    AssignmentsGo(ctx, start, f1, targets);
    var f2 := AfterAll(ctx, f1, assignments);
    RecordGoes(ctx, start, f2, Prepare, EffectVerified);
    var f3 := f2.(marks := {(HostStep(Prepare, None), HostSequence(Prepare, 0))});
    assert f2.marks + {(HostStep(Prepare, None), HostSequence(Prepare, 0))} == f3.marks;
    ClustersRise(targets);
    RisesOnce(DataClusters(targets));
    GuardAllGoes(ctx, start, f3, DataClusters(targets));
    WorkflowGoes(ctx, start, AfterAll(ctx, f3, guards), ReadyToStop);
    AcceptsAppend(ctx, start, f, opening + assignments + record + guards, ready);
    AcceptsAppend(ctx, start, f, opening + assignments + record, guards);
    AcceptsAppend(ctx, start, f, opening + assignments, record);
    AcceptsAppend(ctx, start, f, opening, assignments);
  }

  lemma OpeningGoes(ctx: Ctx, start: Db, f: Forecast)
    requires f.host.state == HostAvailable && f.host.workflow == Available
    ensures AcceptsAll(ctx, start, f, [ReadHost, SetHost(HostPlanning)])
    ensures AfterAll(ctx, f, [ReadHost, SetHost(HostPlanning)]) == f.(host := HostView(HostPlanning, Preparing, true))
  {
    Traced(ctx, start, [ReadHost, SetHost(HostPlanning)],
           [f, f.(host := f.host.(read := true)), f.(host := HostView(HostPlanning, Preparing, true))]);
  }

  lemma RecordGoes(ctx: Ctx, start: Db, f: Forecast, name: HostStepName, effect: SideEffect)
    requires Unused(f, HostStep(name, None), HostSequence(name, 0))
    ensures AcceptsAll(ctx, start, f, [HostRecord(name, None, 0, effect)])
    ensures AfterAll(ctx, f, [HostRecord(name, None, 0, effect)]) == f.(marks := f.marks + {(HostStep(name, None), HostSequence(name, 0))})
  {
    Traced(ctx, start, [HostRecord(name, None, 0, effect)], [f, f.(marks := f.marks + {(HostStep(name, None), HostSequence(name, 0))})]);
  }

  lemma WorkflowGoes(ctx: Ctx, start: Db, f: Forecast, workflow: WorkflowState)
    requires f.host.read && LegalWorkflow(f.host.workflow, workflow)
    ensures AcceptsAll(ctx, start, f, [SetHostWorkflow(workflow)])
    ensures AfterAll(ctx, f, [SetHostWorkflow(workflow)]) == f.(host := HostView(f.host.state, workflow, true))
  {
    Traced(ctx, start, [SetHostWorkflow(workflow)], [f, f.(host := HostView(f.host.state, workflow, true))]);
  }

  // The names and numbers used before the reboot.

  predicate EarlyMarks(marks: set<(StepKey, nat)>) {
    forall m :: m in marks ==> m.0.HostStep? && m.1 <= 460 && m.0.name in {Prepare, Stop, StopComplete, Reboot, RebootComplete}
  }

  lemma StopGoes(ctx: Ctx, start: Db, f: Forecast, targets: seq<Target>)
    requires At(f, HostPlanning, ReadyToStop) && AllIn(f, targets, ReadyToStop) && HeadApart(targets) && |targets| <= 100
    requires f.marks == {(HostStep(Prepare, None), HostSequence(Prepare, 0))}
    requires forall t :: t in targets ==> Willing(ctx, t)
    ensures AcceptsAll(ctx, start, f, HostStop(targets))
    ensures var b := AfterAll(ctx, f, HostStop(targets));
      && At(b, HostMaintenance, Maintenance) && AllIn(b, targets, Maintenance)
      && b == f.(host := b.host, rows := b.rows, marks := b.marks)
      && forall m :: m in b.marks ==> m.0.HostStep? && m.0.name in {Prepare, Stop, StopComplete} && m.1 <= 400
  {
    hide AcceptsAll, AfterAll, Accepts, After, Willing;
    var sorted := StopOrder(targets);
    var loop, tail := StopAll(sorted, 1), [SetHostWorkflow(Maintenance), SetHost(HostMaintenance)];
    SortedApart(StopPriority, targets);
    O.SortedLength(StopPriority, targets);
    var f1 := f.(host := HostView(HostPlanning, Stopping, true));
    WorkflowGoes(ctx, start, f, Stopping);
    StopRoom(f1, sorted);
    forall t | t in sorted ensures ctx.env.remote(StopUnit(t.id)).Confirmed? {
      WillingStop(ctx, t);
    }
    StopAllGoes(ctx, start, f1, sorted, 1);
    var f2 := AfterAll(ctx, f1, loop);
    MaintenanceGoes(ctx, start, f2);
    AcceptsAppend(ctx, start, f, [SetHostWorkflow(Stopping)] + loop, tail);
    AcceptsAppend(ctx, start, f, [SetHostWorkflow(Stopping)], loop);
    StopMarks(f1, f2, |targets|);
  }

  lemma WillingStop(ctx: Ctx, t: Target)
    requires Willing(ctx, t)
    ensures ctx.env.remote(StopUnit(t.id)).Confirmed?
  {
  }

  lemma StopRoom(f: Forecast, sorted: seq<Target>)
    requires f.marks == {(HostStep(Prepare, None), HostSequence(Prepare, 0))}
    ensures Room(f, STOPPING, sorted, 1)
  {
  }

  lemma StopMarks(f: Forecast, b: Forecast, n: nat)
    requires f.marks == {(HostStep(Prepare, None), HostSequence(Prepare, 0))} && n <= 100
    requires MarksIn(b.marks - f.marks, STOPPING, HostSequence(Stop, 1), HostSequence(StopComplete, 1 + n))
    ensures forall m :: m in b.marks ==> m.0.HostStep? && m.0.name in {Prepare, Stop, StopComplete} && m.1 <= 400
  {
    forall m | m in b.marks ensures m.0.HostStep? && m.0.name in {Prepare, Stop, StopComplete} && m.1 <= 400 {
      if m !in f.marks { assert m in b.marks - f.marks; }
    }
  }

  lemma MaintenanceGoes(ctx: Ctx, start: Db, f: Forecast)
    requires At(f, HostPlanning, Stopping)
    ensures var tail := [SetHostWorkflow(Maintenance), SetHost(HostMaintenance)];
      AcceptsAll(ctx, start, f, tail) && AfterAll(ctx, f, tail) == f.(host := HostView(HostMaintenance, Maintenance, true))
  {
    Traced(ctx, start, [SetHostWorkflow(Maintenance), SetHost(HostMaintenance)],
           [f, f.(host := HostView(HostPlanning, Maintenance, true)), f.(host := HostView(HostMaintenance, Maintenance, true))]);
  }

  /** Announce, commit, ask, record, for the host as a whole. */
  function Announced(begin: HostStepName, op: RemoteOp, end: HostStepName): seq<Act> {
    [HostRecord(begin, None, 0, MayHaveStarted), Commit, Ask(op), HostRecord(end, None, 0, EffectVerified)]
  }

  lemma AnnouncedGoes(ctx: Ctx, start: Db, f: Forecast, begin: HostStepName, op: RemoteOp, end: HostStepName)
    requires Unused(f, HostStep(begin, None), HostSequence(begin, 0)) && Unused(f, HostStep(end, None), HostSequence(end, 0))
    requires begin != end && HostSequence(begin, 0) != HostSequence(end, 0) && ctx.env.remote(op).Confirmed?
    ensures AcceptsAll(ctx, start, f, Announced(begin, op, end))
    ensures AfterAll(ctx, f, Announced(begin, op, end))
         == f.(marks := f.marks + {(HostStep(begin, None), HostSequence(begin, 0)), (HostStep(end, None), HostSequence(end, 0))})
  {
    var first, asked, last := [HostRecord(begin, None, 0, MayHaveStarted)], [Commit, Ask(op)], [HostRecord(end, None, 0, EffectVerified)];
    var f1 := f.(marks := f.marks + {(HostStep(begin, None), HostSequence(begin, 0))});
    assert Unused(f1, HostStep(end, None), HostSequence(end, 0));
    assert f1.marks + {(HostStep(end, None), HostSequence(end, 0))}
        == f.marks + {(HostStep(begin, None), HostSequence(begin, 0)), (HostStep(end, None), HostSequence(end, 0))};
    hide Accepts, After, AcceptsAll, AfterAll, Unused, Saga.HostSequence;
    RecordGoes(ctx, start, f, begin, MayHaveStarted);
    AskGoes(ctx, start, f1, op);
    RecordGoes(ctx, start, f1, end, EffectVerified);
    AcceptsAppend(ctx, start, f, first + asked, last);
    AcceptsAppend(ctx, start, f, first, asked);
    assert Announced(begin, op, end) == first + asked + last;
  }

  lemma AskGoes(ctx: Ctx, start: Db, f: Forecast, op: RemoteOp)
    requires ctx.env.remote(op).Confirmed?
    ensures AcceptsAll(ctx, start, f, [Commit, Ask(op)]) && AfterAll(ctx, f, [Commit, Ask(op)]) == f
  {
    Traced(ctx, start, [Commit, Ask(op)], [f, f, f]);
  }

  lemma RebootGoes(ctx: Ctx, start: Db, f: Forecast)
    requires forall m :: m in f.marks ==> m.0.HostStep? && m.0.name in {Prepare, Stop, StopComplete} && m.1 <= 400
    requires ctx.env.remote(RebootHost).Confirmed?
    ensures AcceptsAll(ctx, start, f, HostReboot())
    ensures var b := AfterAll(ctx, f, HostReboot()); b == f.(marks := b.marks) && EarlyMarks(b.marks)
  {
    AnnouncedGoes(ctx, start, f, Reboot, RebootHost, RebootComplete);
    assert HostReboot() == Announced(Reboot, RebootHost, RebootComplete);
  }

  // The return.

  /** The adapters that a return asks beyond its targets. */
  predicate WillingHost(ctx: Ctx, rebooted: bool) {
    && ctx.env.remote(HostReady).Confirmed? && ctx.env.remote(VerifyReturn).Confirmed?
    && (rebooted ==> ctx.env.executorConfigured && ctx.env.remote(CleanupExecutor).Confirmed?)
  }

  lemma RediscoveryGoes(ctx: Ctx, start: Db, f: Forecast)
    requires At(f, HostMaintenance, Maintenance) && EarlyMarks(f.marks) && ctx.env.remote(HostReady).Confirmed?
    ensures AcceptsAll(ctx, start, f, Rediscovery())
    ensures AfterAll(ctx, f, Rediscovery())
         == f.(host := HostView(HostMaintenance, Returning, true),
               marks := f.marks + {(HostStep(HostRediscovery, None), HostSequence(HostRediscovery, 0)),
                                   (HostStep(HostRediscoveryComplete, None), HostSequence(HostRediscoveryComplete, 0))})
  {
    hide Accepts, After, AcceptsAll, AfterAll;
    var f1 := f.(host := HostView(HostMaintenance, Returning, true));
    WorkflowGoes(ctx, start, f, Returning);
    EarlyUnused(f1);
    AnnouncedGoes(ctx, start, f1, HostRediscovery, HostReady, HostRediscoveryComplete);
    assert Rediscovery() == [SetHostWorkflow(Returning)] + Announced(HostRediscovery, HostReady, HostRediscoveryComplete);
    AcceptsAppend(ctx, start, f, [SetHostWorkflow(Returning)], Announced(HostRediscovery, HostReady, HostRediscoveryComplete));
  }

  lemma EarlyUnused(f: Forecast)
    requires EarlyMarks(f.marks)
    ensures Unused(f, HostStep(HostRediscovery, None), HostSequence(HostRediscovery, 0))
    ensures Unused(f, HostStep(HostRediscoveryComplete, None), HostSequence(HostRediscoveryComplete, 0))
  {
  }

  const BEFORE_CHECKS := {Prepare, Stop, StopComplete, Reboot, RebootComplete, HostRediscovery, HostRediscoveryComplete} + RETURNING

  /** What is recorded once `n` targets have been verified. */
  predicate ReturnMarked(marks: set<(StepKey, nat)>, n: nat) {
    forall m :: m in marks ==> ReturnMark(m, n)
  }

  predicate ReturnMark(m: (StepKey, nat), n: nat) {
    m.0.HostStep? && m.0.name in BEFORE_CHECKS && m.1 <= 7300 + n
  }

  lemma ReturnRoom(f: Forecast, b: Forecast, sorted: seq<Target>)
    requires EarlyMarks(f.marks)
    requires b.marks == f.marks + {(HostStep(HostRediscovery, None), HostSequence(HostRediscovery, 0)),
                                   (HostStep(HostRediscoveryComplete, None), HostSequence(HostRediscoveryComplete, 0))}
    ensures Room(b, RETURNING, sorted, 1) && ReturnMarked(b.marks, 0)
  {
  }

  lemma ReturnLoopMarks(f: Forecast, b: Forecast, n: nat)
    requires ReturnMarked(f.marks, 0) && n <= 100
    requires MarksIn(b.marks - f.marks, RETURNING, HostSequence(Return, 1), HostSequence(Verification, 1 + n))
    ensures ReturnMarked(b.marks, n)
  {
    forall m | m in b.marks ensures ReturnMark(m, n) {
      if m !in f.marks { assert m in b.marks - f.marks; }
    }
  }

  /** The return up to the guards: every unit is started and verified. */
  lemma WorkloadsGo(ctx: Ctx, start: Db, f: Forecast, targets: seq<Target>)
    requires At(f, HostMaintenance, Maintenance) && AllIn(f, targets, Maintenance) && HeadApart(targets) && |targets| <= 100
    requires EarlyMarks(f.marks) && AllAt(f, DataClusters(targets), Kept) && ctx.env.remote(HostReady).Confirmed?
    requires forall t :: t in targets ==> Willing(ctx, t)
    ensures var work := Rediscovery() + ReturnAll(StartOrder(targets), 1) + UnguardAll(DataClusters(targets));
      var b := AfterAll(ctx, f, work);
      && AcceptsAll(ctx, start, f, work) && At(b, HostMaintenance, Returning) && AllIn(b, targets, Verifying)
      && b == f.(host := b.host, rows := b.rows, marks := b.marks) && ReturnMarked(b.marks, |targets|)
  {
    hide AcceptsAll, AfterAll, Accepts, After, Willing, Room, MarksIn, ReturnMarked, EarlyMarks;
    var sorted := StartOrder(targets);
    var loop, guards := ReturnAll(sorted, 1), UnguardAll(DataClusters(targets));
    SortedApart(StartPriority, targets);
    O.SortedLength(StartPriority, targets);
    RediscoveryGoes(ctx, start, f);
    var f1 := AfterAll(ctx, f, Rediscovery());
    ReturnRoom(f, f1, sorted);
    ReturnAllGoes(ctx, start, f1, sorted, 1);
    var f2 := AfterAll(ctx, f1, loop);
    ReturnLoopMarks(f1, f2, |targets|);
    UnguardAllGoes(ctx, start, f2, DataClusters(targets));
    AcceptsAppend(ctx, start, f, Rediscovery() + loop, guards);
    AcceptsAppend(ctx, start, f, Rediscovery(), loop);
  }

  lemma ChecksGo(ctx: Ctx, start: Db, f: Forecast, n: nat, rebooted: bool)
    requires n <= 99 && ReturnMarked(f.marks, n) && WillingHost(ctx, rebooted)
    ensures var checks := VerifyAll() + Cleanup(rebooted);
      var b := AfterAll(ctx, f, checks);
      AcceptsAll(ctx, start, f, checks) && b == f.(marks := b.marks, verified := true)
  {
    hide AcceptsAll, AfterAll, Accepts, After, Saga.Cleanup;
    VerifyGoes(ctx, start, f, n);
    var f1 := AfterAll(ctx, f, VerifyAll());
    if rebooted {
      CleanupGoes(ctx, start, f1);
    } else {
      assert Cleanup(false) == [] by { NoCleanup(); }
      Empty(ctx, start, f1);
    }
    AcceptsAppend(ctx, start, f, VerifyAll(), Cleanup(rebooted));
  }

  lemma NoCleanup()
    ensures Cleanup(false) == []
  {
  }

  lemma VerifyGoes(ctx: Ctx, start: Db, f: Forecast, n: nat)
    requires n <= 99 && ReturnMarked(f.marks, n) && ctx.env.remote(VerifyReturn).Confirmed?
    ensures AcceptsAll(ctx, start, f, VerifyAll())
    ensures var b := AfterAll(ctx, f, VerifyAll());
      && b == f.(marks := b.marks, verified := true)
      && forall m :: m in b.marks ==> m.0.HostStep? && m.1 <= 7410 && m.0.name !in {ExecutorCleanup, ExecutorCleanupComplete}
  {
    var f1 := f.(marks := f.marks + {(HostStep(PostReturnStarted, None), HostSequence(PostReturnStarted, 0))});
    ChecksUnused(f, f1, n);
    hide ReturnMarked, Accepts, After, AcceptsAll, AfterAll;
    RecordGoes(ctx, start, f, PostReturnStarted, MayHaveStarted);
    AnswerGoes(ctx, start, f1);
    AcceptsAppend(ctx, start, f, [HostRecord(PostReturnStarted, None, 0, MayHaveStarted)], [Commit, AskReturn, RecordReturn, RequireReturn]);
    assert VerifyAll() == [HostRecord(PostReturnStarted, None, 0, MayHaveStarted)] + [Commit, AskReturn, RecordReturn, RequireReturn];
  }

  lemma AnswerGoes(ctx: Ctx, start: Db, f: Forecast)
    requires ctx.env.remote(VerifyReturn).Confirmed? && Unused(f, HostStep(PostReturn, None), HostSequence(PostReturn, 0))
    ensures var rest := [Commit, AskReturn, RecordReturn, RequireReturn];
      && AcceptsAll(ctx, start, f, rest)
      && AfterAll(ctx, f, rest) == f.(marks := f.marks + {(HostStep(PostReturn, None), HostSequence(PostReturn, 0))}, verified := true)
  {
    hide Saga.HostSequence;
    var f1 := f.(verified := true);
    var f2 := f.(marks := f.marks + {(HostStep(PostReturn, None), HostSequence(PostReturn, 0))}, verified := true);
    Traced(ctx, start, [Commit, AskReturn, RecordReturn, RequireReturn], [f, f, f1, f2, f2]);
  }

  lemma ChecksUnused(f: Forecast, f1: Forecast, n: nat)
    requires n <= 99 && ReturnMarked(f.marks, n)
    requires f1.marks == f.marks + {(HostStep(PostReturnStarted, None), HostSequence(PostReturnStarted, 0))}
    ensures Unused(f, HostStep(PostReturnStarted, None), HostSequence(PostReturnStarted, 0))
    ensures Unused(f1, HostStep(PostReturn, None), HostSequence(PostReturn, 0))
    ensures forall m :: m in f1.marks ==> m.0.HostStep? && m.1 <= 7410 && m.0.name !in {ExecutorCleanup, ExecutorCleanupComplete}
  {
    forall m | m in f.marks ensures ReturnMark(m, n) {
    }
  }

  lemma CleanupGoes(ctx: Ctx, start: Db, f: Forecast)
    requires WillingHost(ctx, true)
    requires forall m :: m in f.marks ==> m.0.HostStep? && m.1 <= 7410 && m.0.name !in {ExecutorCleanup, ExecutorCleanupComplete}
    ensures var b := AfterAll(ctx, f, Cleanup(true)); AcceptsAll(ctx, start, f, Cleanup(true)) && b == f.(marks := b.marks)
  {
    assert Unused(f, HostStep(ExecutorCleanup, None), HostSequence(ExecutorCleanup, 0));
    assert Unused(f, HostStep(ExecutorCleanupComplete, None), HostSequence(ExecutorCleanupComplete, 0));
    assert Cleanup(true) == [RequireExecutor] + Announced(ExecutorCleanup, CleanupExecutor, ExecutorCleanupComplete);
    assert Accepts(ctx, start, f, RequireExecutor) && After(ctx, f, RequireExecutor) == f;
    hide Accepts, After, AcceptsAll, AfterAll, Unused, Saga.Cleanup, Announced;
    AnnouncedGoes(ctx, start, f, ExecutorCleanup, CleanupExecutor, ExecutorCleanupComplete);
    First(ctx, start, f, RequireExecutor, Announced(ExecutorCleanup, CleanupExecutor, ExecutorCleanupComplete));
  }

  lemma CompletionGoes(ctx: Ctx, start: Db, f: Forecast, targets: seq<Target>)
    requires At(f, HostMaintenance, Returning) && AllIn(f, targets, Verifying) && AllHeld(f, targets) && HeadApart(targets)
    requires f.open && Closable(ctx, start)
    ensures AcceptsAll(ctx, start, f, T.Completion(targets))
  {
    hide AcceptsAll, AfterAll;
    var f1 := f.(open := false);
    Traced(ctx, start, [FinalizePlan], [f, f1]);
    CompleteAllGoes(ctx, start, f1, targets);
    var f2 := AfterAll(ctx, f1, CompleteAll(targets));
    Traced(ctx, start, [SetHost(HostAvailable)], [f2, f2.(host := HostView(HostAvailable, Available, true))]);
    AcceptsAppend(ctx, start, f, [FinalizePlan] + CompleteAll(targets), [SetHost(HostAvailable)]);
    AcceptsAppend(ctx, start, f, [FinalizePlan], CompleteAll(targets));
  }

  lemma ReturnGoes(ctx: Ctx, start: Db, f: Forecast, targets: seq<Target>, rebooted: bool)
    requires At(f, HostMaintenance, Maintenance) && AllIn(f, targets, Maintenance) && HeadApart(targets) && |targets| <= 99
    requires EarlyMarks(f.marks) && AllAt(f, DataClusters(targets), Kept) && AllHeld(f, targets) && f.open && Closable(ctx, start)
    requires WillingHost(ctx, rebooted) && forall t :: t in targets ==> Willing(ctx, t)
    ensures AcceptsAll(ctx, start, f, HostReturn(targets, rebooted))
  {
    hide AcceptsAll, AfterAll, Accepts, After, Willing, ReturnMarked, EarlyMarks, Closable;
    var work := Rediscovery() + ReturnAll(StartOrder(targets), 1) + UnguardAll(DataClusters(targets));
    var checks := VerifyAll() + Cleanup(rebooted);
    WorkloadsGo(ctx, start, f, targets);
    var f1 := AfterAll(ctx, f, work);
    ChecksGo(ctx, start, f1, |targets|, rebooted);
    var f2 := AfterAll(ctx, f1, checks);
    CompletionGoes(ctx, start, f2, targets);
    AcceptsAppend(ctx, start, f, work + checks, T.Completion(targets));
    AcceptsAppend(ctx, start, f, work, checks);
    T.ReturnParts(targets, rebooted);
    ReturnGrouped(targets, rebooted);
  }

  lemma ReturnGrouped(targets: seq<Target>, rebooted: bool)
    ensures Rediscovery() + ReturnAll(StartOrder(targets), 1) + UnguardAll(DataClusters(targets)) + (VerifyAll() + Cleanup(rebooted))
         == Rediscovery() + ReturnAll(StartOrder(targets), 1) + T.ReturnTail(targets, rebooted)
  {
  }

  // The whole journey.

  predicate FreeTarget(db: Db, t: Target) {
    AssignmentOf(db, t.id).workflow == Available && t.id in db.workloads && db.workloads[t.id] == WorkloadRow(true, t.revision, None)
  }

  /** Free targets on a free host, a plan that has recorded nothing yet, and data
      clusters without a guard where activating one does not raise. */
  ghost predicate ReadyToPrepare(ctx: Ctx, targets: seq<Target>, s: Sys) {
    && R.Proper(ctx) && T.Distinct(targets)
    && HostOf(s.db, ctx.node).state == HostAvailable && HostOf(s.db, ctx.node).workflow == Available
    && (forall t :: t in targets ==> FreeTarget(s.db, t))
    && (forall id :: id in s.db.steps ==> id.0 != ctx.plan) && (forall id :: id in s.db.checkpoints ==> id.0 != ctx.plan)
    && (forall c :: c in DataClusters(targets) ==> ctx.env.captureRead(c).Shows?)
    && (forall c :: c in DataClusters(targets) ==> GuardAs(Unguarded, ctx, c, GuardsOf(s.db, c), LayersOf(s, c)))
  }

  /** All that, a plan in execution whose locks do not expire before the close,
      and adapters that do as asked. */
  ghost predicate Startable(j: T.Journey, s: Sys) {
    && T.OnePlan(j) && j.prepare.ticket.run == j.stop.ticket.run == j.reboot.ticket.run && ReadyToPrepare(j.prepare, j.targets, s)
    && O.StepsUnique(s.db)
    && (forall t :: t in j.targets ==> Willing(j.stop, t) && Willing(j.back, t))
    && (j.rebooted ==> j.reboot.env.remote(RebootHost).Confirmed?) && WillingHost(j.back, j.rebooted)
    && Closable(j.back, s.db)
  }

  ghost function Prepared(j: T.Journey, s: Sys): Outcome {
    Exec(j.prepare, HostPrepare(j.targets), s)
  }

  ghost function Stopped(j: T.Journey, s: Sys): Outcome {
    Exec(j.stop, HostStop(j.targets), T.Entered(j.stop, Prepared(j, s).sys))
  }

  ghost function Rebooted(j: T.Journey, s: Sys): Outcome {
    if j.rebooted then Exec(j.reboot, HostReboot(), T.Entered(j.reboot, Stopped(j, s).sys)) else Stopped(j, s)
  }

  ghost function Returned(j: T.Journey, s: Sys): Outcome {
    Exec(j.back, HostReturn(j.targets, j.rebooted), T.Entered(j.back, Rebooted(j, s).sys))
  }

  ghost predicate Ends(j: T.Journey, s: Sys) {
    Prepared(j, s).Running? && Stopped(j, s).Running? && Rebooted(j, s).Running? && Returned(j, s).Running?
  }

  /** What the tables foretell at the start. */
  ghost function Outset(targets: seq<Target>, s: Sys): Forecast {
    var ids := T.IdSet(targets);
    Forecast(HostView(HostAvailable, Available, false), RowsView(map id | id in ids :: Available, {}, None),
             map id | id in ids && id in s.db.workloads :: Idle(s.db.workloads[id].revision), {},
             map c | c in DataClusters(targets) :: Unguarded, s.locals.complete, true)
  }

  lemma {:induction false} DistinctApart(targets: seq<Target>)
    requires T.Distinct(targets)
    ensures HeadApart(targets)
    decreases |targets|
  {
    if targets != [] {
      forall i, k | 0 <= i < k < |targets[1..]| ensures targets[1..][i].id != targets[1..][k].id {
        assert targets[i + 1].id != targets[k + 1].id;
      }
      DistinctApart(targets[1..]);
    }
  }

  lemma OutsetHolds(ctx: Ctx, targets: seq<Target>, s: Sys)
    requires ReadyToPrepare(ctx, targets, s)
    ensures As(ctx, s.db, Outset(targets, s), s) && Preparable(ctx, Outset(targets, s), targets)
  {
    var f := Outset(targets, s);
    DistinctApart(targets);
    forall t | t in targets ensures t.id in f.rows.states && t.id in f.claims && f.claims[t.id] == Idle(t.revision) {
      assert t.id in T.IdSet(targets);
    }
    OutsetTables(ctx, targets, s);
  }

  lemma OutsetTables(ctx: Ctx, targets: seq<Target>, s: Sys)
    requires ReadyToPrepare(ctx, targets, s)
    ensures As(ctx, s.db, Outset(targets, s), s)
  {
    var f := Outset(targets, s);
    hide GuardAs;
    assert RowsAs(f.rows, s.db.assignments, ctx.plan, s.locals);
    assert ClaimsAs(f.claims, s.db.workloads, ctx.ticket.run);
    assert GuardsAs(f.guards, ctx, s.db.guards, s.layers);
  }

  /** The next action takes over where one has ended, with its own answers. */
  lemma Handed(ctx: Ctx, next: Ctx, start: Db, f: Forecast, s: Sys)
    requires As(ctx, start, f, s) && next.plan == ctx.plan && next.node == ctx.node && next.ticket.run == ctx.ticket.run
    requires forall c :: c in f.guards ==> f.guards[c] == Kept
    ensures As(next, start, f.(host := f.host.(read := true)), T.Entered(next, s))
  {
    hide ClaimsAs, StepsAs, CheckpointsAs, PlansAs;
    RowsElsewhere(f.rows, s.db.assignments, ctx.plan, s.locals, T.Entered(next, s).locals);
  }

  predicate Follows(ctx: Ctx, next: Ctx) {
    R.Proper(ctx) && next.plan == ctx.plan && next.node == ctx.node && next.ticket.run == ctx.ticket.run
  }

  /** One action, run as foretold, with the next one about to start. */
  lemma Carried(ctx: Ctx, next: Ctx, start: Db, f: Forecast, s: Sys, acts: seq<Act>, b: Forecast)
    requires Follows(ctx, next) && As(ctx, start, f, s) && AcceptsAll(ctx, start, f, acts) && b == AfterAll(ctx, f, acts)
    requires b.host.read && forall c :: c in b.guards ==> b.guards[c] == Kept
    ensures Exec(ctx, acts, s).Running? && As(next, start, b, T.Entered(next, Exec(ctx, acts, s).sys))
  {
    hide As, AcceptsAll, AfterAll, Saga.Exec;
    ProgramForetold(ctx, start, f, s, acts);
    assert b.(host := b.host.(read := true)) == b;
    Handed(ctx, next, start, b, Exec(ctx, acts, s).sys);
  }

  lemma Journeyed(j: T.Journey, s: Sys)
    requires Startable(j, s)
    ensures R.Proper(j.prepare) && R.Proper(j.stop) && R.Proper(j.reboot) && R.Proper(j.back)
    ensures j.prepare.plan == j.stop.plan == j.reboot.plan == j.back.plan && j.prepare.node == j.stop.node == j.reboot.node == j.back.node
    ensures j.prepare.ticket.run == j.stop.ticket.run == j.reboot.ticket.run == j.back.ticket.run
    ensures HeadApart(j.targets)
    ensures (forall t :: t in j.targets ==> Willing(j.stop, t)) && (forall t :: t in j.targets ==> Willing(j.back, t))
    ensures (j.rebooted ==> j.reboot.env.remote(RebootHost).Confirmed?) && WillingHost(j.back, j.rebooted) && Closable(j.back, s.db)
    ensures O.StepsUnique(s.db)
  {
    DistinctApart(j.targets);
  }

  predicate AllKept(f: Forecast) {
    forall c :: c in f.guards ==> f.guards[c] == Kept
  }

  /** A preparation completes, with every guard past its activation. */
  lemma PrepareCompletes(ctx: Ctx, targets: seq<Target>, s: Sys) returns (f: Forecast)
    requires ReadyToPrepare(ctx, targets, s)
    ensures Exec(ctx, HostPrepare(targets), s).Running? && As(ctx, s.db, f, Exec(ctx, HostPrepare(targets), s).sys)
    ensures At(f, HostPlanning, ReadyToStop) && AllIn(f, targets, ReadyToStop) && AllHeld(f, targets)
    ensures AllKept(f) && AllAt(f, DataClusters(targets), Kept) && f.open
    ensures f.marks == {(HostStep(Prepare, None), HostSequence(Prepare, 0))}
  {
    OutsetHolds(ctx, targets, s);
    var f0 := Outset(targets, s);
    assert forall c :: c in f0.guards ==> c in DataClusters(targets);
    assert f0.open && R.Proper(ctx);
    hide As, AcceptsAll, AfterAll, ReadyToPrepare, Saga.HostPrepare, Saga.Exec, Outset, Preparable;
    PrepareGoes(ctx, s.db, f0, targets);
    f := AfterAll(ctx, f0, HostPrepare(targets));
    ProgramForetold(ctx, s.db, f0, s, HostPrepare(targets));
  }

  lemma PrepareStage(j: T.Journey, s: Sys) returns (f: Forecast)
    requires Startable(j, s)
    ensures Prepared(j, s).Running? && As(j.stop, s.db, f, T.Entered(j.stop, Prepared(j, s).sys))
    ensures At(f, HostPlanning, ReadyToStop) && AllIn(f, j.targets, ReadyToStop) && AllHeld(f, j.targets)
    ensures AllKept(f) && AllAt(f, DataClusters(j.targets), Kept) && f.open
    ensures f.marks == {(HostStep(Prepare, None), HostSequence(Prepare, 0))}
  {
    Journeyed(j, s);
    hide As, ReadyToPrepare, Saga.HostPrepare, Saga.Exec, Closable, Willing, WillingHost;
    f := PrepareCompletes(j.prepare, j.targets, s);
    assert f.(host := f.host.(read := true)) == f;
    Handed(j.prepare, j.stop, s.db, f, Prepared(j, s).sys);
  }

  /** Nothing but the preparation and the stops is recorded. */
  predicate StopMarked(f: Forecast) {
    forall m :: m in f.marks ==> m.0.HostStep? && m.0.name in {Prepare, Stop, StopComplete} && m.1 <= 400
  }

  /** The host is down: every target stopped and held, every guard in place. */
  predicate Down(f: Forecast, targets: seq<Target>) {
    && At(f, HostMaintenance, Maintenance) && AllIn(f, targets, Maintenance) && AllHeld(f, targets)
    && AllKept(f) && AllAt(f, DataClusters(targets), Kept) && f.open
  }

  lemma StopStage(ctx: Ctx, next: Ctx, start: Db, f: Forecast, s: Sys, targets: seq<Target>) returns (b: Forecast)
    requires Follows(ctx, next) && As(ctx, start, f, s) && HeadApart(targets) && |targets| <= 100
    requires At(f, HostPlanning, ReadyToStop) && AllIn(f, targets, ReadyToStop) && AllHeld(f, targets)
    requires AllKept(f) && AllAt(f, DataClusters(targets), Kept) && f.open
    requires f.marks == {(HostStep(Prepare, None), HostSequence(Prepare, 0))}
    requires forall t :: t in targets ==> Willing(ctx, t)
    ensures Exec(ctx, HostStop(targets), s).Running? && As(next, start, b, T.Entered(next, Exec(ctx, HostStop(targets), s).sys))
    ensures Down(b, targets) && StopMarked(b)
  {
    hide As, AcceptsAll, AfterAll, Saga.HostStop, Saga.Exec, Willing;
    StopGoes(ctx, start, f, targets);
    b := AfterAll(ctx, f, HostStop(targets));
    Carried(ctx, next, start, f, s, HostStop(targets), b);
  }

  lemma RebootStage(ctx: Ctx, next: Ctx, start: Db, f: Forecast, s: Sys, targets: seq<Target>) returns (b: Forecast)
    requires Follows(ctx, next) && As(ctx, start, f, s) && Down(f, targets) && StopMarked(f) && ctx.env.remote(RebootHost).Confirmed?
    ensures Exec(ctx, HostReboot(), s).Running? && As(next, start, b, T.Entered(next, Exec(ctx, HostReboot(), s).sys))
    ensures Down(b, targets) && EarlyMarks(b.marks)
  {
    hide As, AcceptsAll, AfterAll, Saga.HostReboot, Saga.Exec;
    RebootGoes(ctx, start, f);
    b := AfterAll(ctx, f, HostReboot());
    Carried(ctx, next, start, f, s, HostReboot(), b);
  }

  lemma DownStage(j: T.Journey, s: Sys, next: Ctx) returns (f: Forecast)
    requires Startable(j, s) && |j.targets| <= 100 && Follows(j.stop, next)
    ensures Prepared(j, s).Running? && Stopped(j, s).Running? && As(next, s.db, f, T.Entered(next, Stopped(j, s).sys))
    ensures Down(f, j.targets) && StopMarked(f)
  {
    assert Stopped(j, s) == Exec(j.stop, HostStop(j.targets), T.Entered(j.stop, Prepared(j, s).sys));
    hide *;
    f := PrepareStage(j, s);
    Journeyed(j, s);
    f := StopStage(j.stop, next, s.db, f, T.Entered(j.stop, Prepared(j, s).sys), j.targets);
  }

  lemma StopMarksEarly(f: Forecast)
    requires StopMarked(f)
    ensures EarlyMarks(f.marks)
  {
  }

  /** With up to 100 targets the journey reaches its return. */
  lemma ReturnReached(j: T.Journey, s: Sys) returns (f: Forecast)
    requires Startable(j, s) && |j.targets| <= 100
    ensures Prepared(j, s).Running? && Stopped(j, s).Running? && Rebooted(j, s).Running?
    ensures As(j.back, s.db, f, T.Entered(j.back, Rebooted(j, s).sys))
    ensures Down(f, j.targets) && EarlyMarks(f.marks)
  {
    Journeyed(j, s);
    assert Follows(j.stop, j.reboot) && Follows(j.stop, j.back) && Follows(j.reboot, j.back);
    assert Rebooted(j, s) == if j.rebooted then Exec(j.reboot, HostReboot(), T.Entered(j.reboot, Stopped(j, s).sys)) else Stopped(j, s);
    hide *;
    if j.rebooted {
      f := DownStage(j, s, j.reboot);
      f := RebootStage(j.reboot, j.back, s.db, f, T.Entered(j.reboot, Stopped(j, s).sys), j.targets);
    } else {
      f := DownStage(j, s, j.back);
      StopMarksEarly(f);
    }
  }

  lemma SmallJourneyEnds(j: T.Journey, s: Sys)
    requires Startable(j, s) && |j.targets| <= 99
    ensures Ends(j, s)
  {
    var f := ReturnReached(j, s);
    Journeyed(j, s);
    hide As, AcceptsAll, AfterAll, Startable, Saga.HostReturn, Saga.Exec, Willing, WillingHost, Closable;
    ReturnGoes(j.back, s.db, f, j.targets, j.rebooted);
    ProgramForetold(j.back, s.db, f, T.Entered(j.back, Rebooted(j, s).sys), HostReturn(j.targets, j.rebooted));
  }

  lemma UniqueAtReturn(j: T.Journey, s: Sys)
    requires Startable(j, s) && Prepared(j, s).Running? && Stopped(j, s).Running? && Rebooted(j, s).Running?
    ensures O.StepsUnique(Rebooted(j, s).sys.db)
  {
    Journeyed(j, s);
    hide Startable, Saga.HostPrepare, Saga.HostStop, Saga.HostReboot, Saga.Exec;
    O.ExecUnique(j.prepare, HostPrepare(j.targets), s);
    O.ExecUnique(j.stop, HostStop(j.targets), T.Entered(j.stop, Prepared(j, s).sys));
    if j.rebooted {
      O.ExecUnique(j.reboot, HostReboot(), T.Entered(j.reboot, Stopped(j, s).sys));
    }
  }

  /** Main progress result: under these conditions a maintenance completes if and
      only if the host has at most 99 workloads. With exactly 100 it is taken down,
      every unit is started and verified again, and only then the return fails. */
  lemma MaintenanceCompletesExactlyUpTo99(j: T.Journey, s: Sys)
    requires Startable(j, s)
    ensures Ends(j, s) <==> |j.targets| <= 99
    ensures Ends(j, s) ==> T.Completes(j, s, Prepared(j, s).sys, Stopped(j, s).sys, Rebooted(j, s).sys, Returned(j, s).sys)
    ensures |j.targets| == 100 ==>
      && Rebooted(j, s).Running? && Returned(j, s).Raised?
      && Exec(j.back, Rediscovery() + ReturnAll(StartOrder(j.targets), 1), T.Entered(j.back, Rebooted(j, s).sys)).Running?
  {
    hide Saga.Exec, Startable;
    if |j.targets| <= 99 {
      SmallJourneyEnds(j, s);
    } else {
      if Ends(j, s) {
        UniqueAtReturn(j, s);
        Journeyed(j, s);
        O.LargeHostsCannotReturn(j.back, T.Entered(j.back, Rebooted(j, s).sys), j.targets, j.rebooted);
      }
      if |j.targets| == 100 {
        HundredUnitsStart(j, s);
      }
    }
  }

  lemma HundredUnitsStart(j: T.Journey, s: Sys)
    requires Startable(j, s) && |j.targets| == 100
    ensures Prepared(j, s).Running? && Stopped(j, s).Running? && Rebooted(j, s).Running?
    ensures Exec(j.back, Rediscovery() + ReturnAll(StartOrder(j.targets), 1), T.Entered(j.back, Rebooted(j, s).sys)).Running?
  {
    var f := ReturnReached(j, s);
    Journeyed(j, s);
    hide As, AcceptsAll, AfterAll, Startable, Saga.Rediscovery, Saga.Exec, Willing, WillingHost, Closable;
    assert j.back.env.remote(HostReady).Confirmed? by { HostAnswers(j.back, j.rebooted); }
    WorkloadsGo(j.back, s.db, f, j.targets);
    var started := Rediscovery() + ReturnAll(StartOrder(j.targets), 1);
    AcceptsAppend(j.back, s.db, f, started, UnguardAll(DataClusters(j.targets)));
    ProgramForetold(j.back, s.db, f, T.Entered(j.back, Rebooted(j, s).sys), started);
  }

  lemma HostAnswers(ctx: Ctx, rebooted: bool)
    requires WillingHost(ctx, rebooted)
    ensures ctx.env.remote(HostReady).Confirmed?
  {
  }
}
