/** Whole runs of guard operations on one cluster, by any number of plans, with
    writes lost before or after effect, reads that fail, and the controller
    dying between a remote write and the row that records it. */
module AllocationGuardRuns {
  import opened Wrappers
  import opened AllocationSettings
  import opened AllocationGuard

  datatype Event =
    | Capture(plan: PlanId, read: ReadAnswer, crash: Crash)
    | Activate(plan: PlanId, answers: ActivateAnswers, crash: Crash)
    | Restore(plan: PlanId, trigger: Trigger, put: PutAnswer, read: ReadAnswer, crash: Crash)

  function StepOutcome(s: ClusterState, e: Event): (ClusterState, Outcome) {
    match e
    case Capture(plan, read, crash) => CaptureSpec(s, plan, read, crash)
    case Activate(plan, answers, crash) => ActivateSpec(s, plan, answers, crash)
    case Restore(plan, trigger, put, read, crash) => RestoreSpec(s, plan, trigger, put, read, crash)
  }

  function Step(s: ClusterState, e: Event): ClusterState {
    StepOutcome(s, e).0
  }

  function Run(s: ClusterState, events: seq<Event>): ClusterState
    decreases |events|
  {
    if events == [] then s else Run(Step(s, events[0]), events[1..])
  }

  function Init(base: Layers): ClusterState {
    ClusterState(base, map[])
  }

  function Guarded(base: Layers): Layers {
    base.(persistent := Some(PRIMARIES))
  }

  predicate RecordOk(base: Layers, plan: PlanId, record: GuardRecord) {
    && record.checkpoint.plan == plan
    && record.checkpoint.phase == record.phase
    && record.checkpoint.captured == base
  }

  predicate BaseOrGuarded(base: Layers, layers: Layers) {
    layers == base || layers == Guarded(base)
  }

  /** `owner` is the one plan with an outstanding guard, if there is one. */
  ghost predicate Inv(base: Layers, s: ClusterState, owner: Option<PlanId>) {
    && BaseOrGuarded(base, s.layers)
    && (owner.None? ==> s.layers == base)
    && (owner.Some? ==> owner.value in s.records)
    && (forall plan :: plan in s.records ==> RecordOk(base, plan, s.records[plan]))
    && (forall plan :: plan in s.records ==> (s.records[plan].phase != Restored <==> owner == Some(plan)))
  }

  lemma OwnerIsUnrestored(base: Layers, s: ClusterState, owner: Option<PlanId>)
    requires Inv(base, s, owner)
    ensures HasUnrestored(s.records) <==> owner.Some?
  {
    if owner.Some? {
      assert s.records[owner.value].phase != Restored;
    }
  }

  /** What an activation can answer for a row that holds the baseline. */
  lemma ActivationFacts(base: Layers, layers: Layers, cp: Checkpoint, a: ActivateAnswers)
    requires BaseOrGuarded(base, layers) && cp.captured == base && cp.phase == Captured
    ensures var (after, r) := ActivationSpec(layers, cp, a);
      && BaseOrGuarded(base, after)
      && r != NotCaptured
      && (r.Answer? ==> var next := r.result.checkpoint;
            && next.captured == base && next.plan == cp.plan && next.phase != Captured
            && (next.phase == Restored ==> after == base)
            && (next.phase == Active ==> Guarding(after)))
  {
  }

  lemma RestorationFacts(base: Layers, layers: Layers, cp: Checkpoint, trigger: Trigger, put: PutAnswer, read: ReadAnswer)
    requires BaseOrGuarded(base, layers) && cp.captured == base
    ensures var after := RestoredLayers(layers, cp, put);
            var next := CleanupVerdict(after, cp, trigger, put, read).checkpoint;
      && BaseOrGuarded(base, after)
      && next.captured == base && next.plan == cp.plan && next.phase in {Restored, RecoveryRequired}
      && (next.phase == Restored ==> after == base)
      && (put.Acknowledged? && read.Shows? ==> next.phase == Restored)
      && after == if put.LostBefore? then layers else base
  {
  }

  /** Writing the owner's row: the row keeps its capture, and a row may become
      restored only when the setting is back at the baseline. */
  lemma PersistKeeps(base: Layers, s: ClusterState, plan: PlanId, cp: Checkpoint, crash: Crash) returns (owner: Option<PlanId>)
    requires Inv(base, s, Some(plan))
    requires cp.plan == plan && cp.captured == base
    requires cp.phase == Restored ==> s.layers == base
    requires LegalPhase(s.records[plan].phase, cp.phase)
    ensures Inv(base, Persisted(s, plan, s.records[plan].revision, cp, crash).0, owner)
    ensures Persisted(s, plan, s.records[plan].revision, cp, crash).1 == if crash == DiesBeforePersist then Died else Returned(cp)
    ensures crash == Survives && cp.phase == Restored ==> owner == None
  {
    owner := if crash != DiesBeforePersist && cp.phase == Restored then None else Some(plan);
  }

  lemma ActivationKeeps(base: Layers, s: ClusterState, owner: Option<PlanId>, e: Event) returns (next: Option<PlanId>)
    requires e.Activate? && Inv(base, s, owner)
    ensures Inv(base, Step(s, e), next) && NeverRefusedByTheStore(s, e)
  {
    next := owner;
    OwnerIsUnrestored(base, s, owner);
    if e.plan in s.records && s.records[e.plan].phase == Captured {
      var cp := s.records[e.plan].checkpoint;
      var (layers, activation) := ActivationSpec(s.layers, cp, e.answers);
      ActivationFacts(base, s.layers, cp, e.answers);
      var touched := s.(layers := layers);
      assert Inv(base, touched, owner);
      if !(e.crash == DiesAfterPut && !Overridden(base)) {
        var written := if activation.Answer? then activation.result.checkpoint else cp.(phase := RecoveryRequired);
        next := PersistKeeps(base, touched, e.plan, written, e.crash);
      }
    }
  }

  lemma RestorationKeeps(base: Layers, s: ClusterState, owner: Option<PlanId>, e: Event) returns (next: Option<PlanId>)
    requires e.Restore? && Inv(base, s, owner)
    ensures Inv(base, Step(s, e), next) && NeverRefusedByTheStore(s, e)
    ensures owner == Some(e.plan) && e.put.Acknowledged? && e.read.Shows? && e.crash == Survives ==> next == None
  {
    next := owner;
    OwnerIsUnrestored(base, s, owner);
    if e.plan in s.records && s.records[e.plan].phase != Restored {
      var cp := s.records[e.plan].checkpoint;
      RestorationFacts(base, s.layers, cp, e.trigger, e.put, e.read);
      var touched := s.(layers := RestoredLayers(s.layers, cp, e.put));
      assert Inv(base, touched, owner);
      if e.crash != DiesAfterPut {
        next := PersistKeeps(base, touched, e.plan, CleanupVerdict(touched.layers, cp, e.trigger, e.put, e.read).checkpoint, e.crash);
      }
    }
  }

  lemma CaptureKeeps(base: Layers, s: ClusterState, owner: Option<PlanId>, e: Event) returns (next: Option<PlanId>)
    requires e.Capture? && Inv(base, s, owner)
    ensures Inv(base, Step(s, e), next) && NeverRefusedByTheStore(s, e)
  {
    OwnerIsUnrestored(base, s, owner);
    next := if Step(s, e) == s then owner else Some(e.plan);
  }

  predicate NeverRefusedByTheStore(s: ClusterState, e: Event) {
    StepOutcome(s, e).1 !in {Raised(IllegalTransition), Raised(RevisionConflict)}
  }

  lemma StepKeeps(base: Layers, s: ClusterState, owner: Option<PlanId>, e: Event) returns (next: Option<PlanId>)
    requires Inv(base, s, owner)
    ensures Inv(base, Step(s, e), next) && NeverRefusedByTheStore(s, e)
  {
    match e
    case Capture(_, _, _) => next := CaptureKeeps(base, s, owner, e);
    case Activate(_, _, _) => next := ActivationKeeps(base, s, owner, e);
    case Restore(_, _, _, _, _) => next := RestorationKeeps(base, s, owner, e);
  }

  lemma {:induction false} RunKeeps(base: Layers, s: ClusterState, owner: Option<PlanId>, events: seq<Event>) returns (last: Option<PlanId>)
    requires Inv(base, s, owner)
    ensures Inv(base, Run(s, events), last)
    decreases |events|
  {
    last := owner;
    if events != [] {
      var next := StepKeeps(base, s, owner, events[0]);
      last := RunKeeps(base, Step(s, events[0]), next, events[1..]);
    }
  }

  /** Main safety result. After any run the setting is the original one or the
      original with persistent `primaries`; it is the original one whenever no
      guard is outstanding; at most one guard is outstanding; every guard ever
      captured holds exactly the original setting; and the next operation is
      never refused by the store's phase trigger or revision check. */
  lemma SettingIsNeverLost(base: Layers, events: seq<Event>, e: Event)
    ensures var s := Run(Init(base), events);
      && (s.layers == base || s.layers == base.(persistent := Some(PRIMARIES)))
      && ((forall p :: p in s.records ==> s.records[p].phase == Restored) ==> s.layers == base)
      && (forall p :: p in s.records ==> s.records[p].checkpoint.captured == base)
      && (forall p, q :: p in s.records && q in s.records ==>
            s.records[p].phase == Restored || s.records[q].phase == Restored || p == q)
      && StepOutcome(s, e).1 !in {Raised(IllegalTransition), Raised(RevisionConflict)}
  {
    var owner := RunKeeps(base, Init(base), None, events);
    var _ := StepKeeps(base, Run(Init(base), events), owner, e);
    OwnerIsUnrestored(base, Run(Init(base), events), owner);
  }

  predicate KeepsCaptures(before: Records, after: Records) {
    forall p :: p in before ==>
      && p in after
      && after[p].checkpoint.captured == before[p].checkpoint.captured
      && (before[p].phase == Restored ==> after[p] == before[p])
  }

  lemma StepKeepsCaptures(base: Layers, s: ClusterState, owner: Option<PlanId>, e: Event)
    requires Inv(base, s, owner)
    ensures KeepsCaptures(s.records, Step(s, e).records)
  {
    hide CleanupVerdict, ActivationSpec, RestorationPayload, AfterPut;
    var next := StepKeeps(base, s, owner, e);
    assert forall p :: p in s.records ==> p in Step(s, e).records;
  }

  lemma {:induction false} CapturesKeptFrom(base: Layers, s: ClusterState, owner: Option<PlanId>, events: seq<Event>)
    requires Inv(base, s, owner)
    ensures KeepsCaptures(s.records, Run(s, events).records)
    decreases |events|
  {
    if events != [] {
      var next := StepKeeps(base, s, owner, events[0]);
      StepKeepsCaptures(base, s, owner, events[0]);
      CapturesKeptFrom(base, Step(s, events[0]), next, events[1..]);
    }
  }

  /** A guard row is never dropped, its capture never rewritten, and a restored
      row never touched again, however a run goes on after `earlier`. */
  lemma CapturesNeverChange(base: Layers, earlier: seq<Event>, later: seq<Event>)
    ensures var s := Run(Init(base), earlier); KeepsCaptures(s.records, Run(s, later).records)
  {
    var owner := RunKeeps(base, Init(base), None, earlier);
    CapturesKeptFrom(base, Run(Init(base), earlier), owner, later);
  }

  /** While one plan's guard is outstanding no operation of any other plan
      changes the setting or any row. */
  lemma OthersChangeNothing(base: Layers, events: seq<Event>, owner: PlanId, e: Event)
    requires var s := Run(Init(base), events); owner in s.records && s.records[owner].phase != Restored
    requires e.plan != owner
    ensures Step(Run(Init(base), events), e) == Run(Init(base), events)
  {
    var who := RunKeeps(base, Init(base), None, events);
    OwnerIsUnrestored(base, Run(Init(base), events), who);
  }

  /** From every reachable state the owner gets the cluster back with one
      restoration whose write and read both work, whatever happened before. */
  lemma OneHealthyRestoreIsEnough(base: Layers, events: seq<Event>, owner: PlanId, trigger: Trigger, view: FaithfulRendering)
    requires var s := Run(Init(base), events); owner in s.records && s.records[owner].phase != Restored
    ensures var s := Step(Run(Init(base), events), Restore(owner, trigger, Acknowledged, Shows(view), Survives));
      s.layers == base && owner in s.records && s.records[owner].phase == Restored && !HasUnrestored(s.records)
  {
    var who := RunKeeps(base, Init(base), None, events);
    var s := Run(Init(base), events);
    var e := Restore(owner, trigger, Acknowledged, Shows(view), Survives);
    var next := RestorationKeeps(base, s, who, e);
    StepKeepsCaptures(base, s, who, e);
    OwnerIsUnrestored(base, Step(s, e), next);
  }

  // An `active` row: exactly when it may be believed.

  /** The controller dies after this restoring write reached the cluster. */
  predicate UndoesSilently(s: ClusterState, e: Event) {
    && e.Restore? && e.crash != Survives && !e.put.LostBefore?
    && e.plan in s.records && s.records[e.plan].phase == Active
  }

  /** Whether the latest activation has been undone that way. */
  function Undone(s: ClusterState, undone: bool, events: seq<Event>): bool
    decreases |events|
  {
    if events == [] then undone else Undone(Step(s, events[0]), UndoneBy(s, undone, events[0]), events[1..])
  }

  function UndoneBy(s: ClusterState, undone: bool, e: Event): bool {
    if UndoesSilently(s, e) then true
    else if e.Activate? && e.plan in s.records && s.records[e.plan].phase == Captured then false
    else undone
  }

  ghost predicate ActiveShows(base: Layers, s: ClusterState, undone: bool) {
    forall p :: p in s.records && s.records[p].phase == Active ==>
      if undone then s.layers == base else Guarding(s.layers)
  }

  lemma ActiveAfterStep(base: Layers, s: ClusterState, owner: Option<PlanId>, undone: bool, e: Event)
    requires Inv(base, s, owner) && ActiveShows(base, s, undone)
    ensures ActiveShows(base, Step(s, e), UndoneBy(s, undone, e))
  {
    hide StepOutcome;
    match e
    case Capture(_, _, _) => ActiveAfterCapture(base, s, owner, undone, e);
    case Activate(_, _, _) => ActiveAfterActivate(base, s, owner, undone, e);
    case Restore(_, _, _, _, _) => ActiveAfterRestore(base, s, owner, undone, e);
  }

  lemma ActiveAfterCapture(base: Layers, s: ClusterState, owner: Option<PlanId>, undone: bool, e: Event)
    requires e.Capture? && Inv(base, s, owner) && ActiveShows(base, s, undone)
    ensures ActiveShows(base, Step(s, e), UndoneBy(s, undone, e))
  {
    OwnerIsUnrestored(base, s, owner);
  }

  /** A row that an activation turns active was verified in the act. */
  lemma ActivatedRow(base: Layers, s: ClusterState, e: Event)
    requires e.Activate? && e.plan in s.records && s.records[e.plan].phase == Captured
    requires RecordOk(base, e.plan, s.records[e.plan]) && BaseOrGuarded(base, s.layers)
    ensures var after := Step(s, e);
      && (forall p :: p in after.records && p != e.plan ==> p in s.records && after.records[p] == s.records[p])
      && (e.plan in after.records && after.records[e.plan].phase == Active ==> Guarding(after.layers))
  {
    hide CleanupVerdict, RestorationPayload, ActivationSpec, AfterPut, Guarding;
    ActivationFacts(base, s.layers, s.records[e.plan].checkpoint, e.answers);
  }

  lemma ActiveAfterActivate(base: Layers, s: ClusterState, owner: Option<PlanId>, undone: bool, e: Event)
    requires e.Activate? && Inv(base, s, owner) && ActiveShows(base, s, undone)
    ensures ActiveShows(base, Step(s, e), UndoneBy(s, undone, e))
  {
    if e.plan in s.records && s.records[e.plan].phase == Captured {
      hide StepOutcome;
      ActivatedRow(base, s, e);
    } else {
      OwnerIsUnrestored(base, s, owner);
      hide ActivationSpec;
      assert Step(s, e) == s;
    }
  }

  lemma ActiveAfterRestore(base: Layers, s: ClusterState, owner: Option<PlanId>, undone: bool, e: Event)
    requires e.Restore? && Inv(base, s, owner) && ActiveShows(base, s, undone)
    ensures ActiveShows(base, Step(s, e), UndoneBy(s, undone, e))
  {
    hide CleanupVerdict, RestoredLayers;
    OwnerIsUnrestored(base, s, owner);
    if e.plan in s.records && s.records[e.plan].phase != Restored {
      RestorationFacts(base, s.layers, s.records[e.plan].checkpoint, e.trigger, e.put, e.read);
    }
  }

  lemma {:induction false} ActiveShowsFrom(base: Layers, s: ClusterState, owner: Option<PlanId>, undone: bool, events: seq<Event>)
    requires Inv(base, s, owner) && ActiveShows(base, s, undone)
    ensures ActiveShows(base, Run(s, events), Undone(s, undone, events))
    decreases |events|
  {
    if events != [] {
      ActiveAfterStep(base, s, owner, undone, events[0]);
      var next := StepKeeps(base, s, owner, events[0]);
      ActiveShowsFrom(base, Step(s, events[0]), next, UndoneBy(s, undone, events[0]), events[1..]);
    }
  }

  /** A row that says `active` is telling the truth if and only if no restoring
      write has reached the cluster, since that activation, from a controller
      that then died; or the original setting was itself a guard. */
  lemma ActiveIsTrueExactlyWhen(base: Layers, events: seq<Event>, plan: PlanId)
    requires var s := Run(Init(base), events); plan in s.records && s.records[plan].phase == Active
    ensures Guarding(Run(Init(base), events).layers)
       <==> (!Undone(Init(base), false, events) || Guarding(base))
  {
    ActiveShowsFrom(base, Init(base), None, false, events);
  }

  /** A run in which it is not true: after dying between the restoring write
      and its row, the row still says `active`, the setting is back at the
      baseline, and activating again reports success without writing. */
  lemma ActiveCanBeStale(plan: PlanId, view: FaithfulRendering)
    ensures
      var none := Layers(None, None);
      var good := ActivateAnswers(Acknowledged, Shows(view), Acknowledged, Shows(view));
      var run := [Capture(plan, Shows(view), Survives), Activate(plan, good, Survives),
                  Restore(plan, OnSuccess, Acknowledged, Shows(view), DiesAfterPut)];
      var s := Run(Init(none), run);
      var again := ActivateSpec(s, plan, good, Survives);
      && plan in s.records && s.records[plan].phase == Active && s.layers == none
      && again.0 == s && again.1.Returned? && again.1.checkpoint.phase == Active
      && !Guarding(s.layers)
  {
    var none := Layers(None, None);
    var good := ActivateAnswers(Acknowledged, Shows(view), Acknowledged, Shows(view));
    var e0, e1, e2 := Capture(plan, Shows(view), Survives), Activate(plan, good, Survives),
                      Restore(plan, OnSuccess, Acknowledged, Shows(view), DiesAfterPut);
    var s0 := Init(none);
    var s1 := Step(s0, e0);
    var s2 := Step(s1, e1);
    assert s1.records[plan].phase == Captured;
    assert ApplyPut(none, GUARD_PUT) == Guarded(none);
    assert s2.records[plan].phase == Active;
    assert Run(s0, [e0, e1, e2]) == Run(s1, [e0, e1, e2][1..]);
    assert [e0, e1, e2][1..] == [e1, e2] && [e1, e2][1..] == [e2] && [e2][1..] == [];
    assert Run(s1, [e1, e2]) == Run(s2, [e2]) == Step(s2, e2);
  }
}
