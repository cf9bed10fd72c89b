/** Maintenance states and the four transition tables. */
module Lifecycle {

  datatype PlanState =
    | Draft | Ready | Blocked | Executing | Paused | PlanRecovery | Succeeded | PlanFailed | Cancelled

  datatype StepState = StepPending | StepExecuting | StepVerified | StepSkipped | StepFailed | StepRecovery

  datatype HostState = HostAvailable | HostPlanning | HostMaintenance | HostDraining | HostRecovery

  datatype WorkflowState =
    | Available | Preparing | ReadyToStop | Stopping | Maintenance | Returning | Verifying
    | WorkflowBlocked | RecoveryRequired

  datatype SideEffect = NotStarted | Prepared | MayHaveStarted | EffectVerified

  function PlanTransitions(s: PlanState): set<PlanState> {
    match s
    case Draft => {Ready, Blocked, Cancelled}
    case Ready => {Executing, Blocked, Cancelled}
    case Blocked => {Draft, Ready, PlanFailed, Cancelled}
    case Executing => {Paused, PlanRecovery, Succeeded, PlanFailed}
    case Paused => {Executing, PlanRecovery, PlanFailed, Cancelled}
    case PlanRecovery => {Executing, Succeeded, PlanFailed, Cancelled}
    case Succeeded => {}
    case PlanFailed => {}
    case Cancelled => {}
  }

  function StepTransitions(s: StepState): set<StepState> {
    match s
    case StepPending => {StepExecuting, StepSkipped, StepFailed}
    case StepExecuting => {StepVerified, StepFailed, StepRecovery}
    case StepRecovery => {StepExecuting, StepVerified, StepFailed, StepSkipped}
    case StepVerified => {}
    case StepSkipped => {}
    case StepFailed => {}
  }

  function HostTransitions(s: HostState): set<HostState> {
    match s
    case HostAvailable => {HostPlanning}
    case HostPlanning => {HostAvailable, HostMaintenance, HostRecovery}
    case HostMaintenance => {HostAvailable, HostDraining, HostRecovery}
    case HostDraining => {HostAvailable, HostMaintenance, HostRecovery}
    case HostRecovery => {HostAvailable, HostPlanning, HostMaintenance}
  }

  function WorkflowTransitions(s: WorkflowState): set<WorkflowState> {
    match s
    case Available => {Preparing}
    case Preparing => {Available, ReadyToStop, Maintenance, WorkflowBlocked, RecoveryRequired}
    case ReadyToStop => {Available, Stopping, WorkflowBlocked, RecoveryRequired}
    case Stopping => {Maintenance, WorkflowBlocked, RecoveryRequired}
    case Maintenance => {Available, Returning, WorkflowBlocked, RecoveryRequired}
    case Returning => {Available, Verifying, WorkflowBlocked, RecoveryRequired}
    case Verifying => {Available, WorkflowBlocked, RecoveryRequired}
    case WorkflowBlocked => {Available, Preparing, RecoveryRequired}
    case RecoveryRequired => {Available, Preparing, Maintenance, Returning}
  }

  // A repeated transition is refused by the validators, and no table lists one.

  predicate LegalPlan(a: PlanState, b: PlanState) { a != b && b in PlanTransitions(a) }

  predicate LegalStep(a: StepState, b: StepState) { a != b && b in StepTransitions(a) }

  predicate LegalHost(a: HostState, b: HostState) { a != b && b in HostTransitions(a) }

  predicate LegalWorkflow(a: WorkflowState, b: WorkflowState) { a != b && b in WorkflowTransitions(a) }

  /** The workflow state a host gets with each host state. */
  function HostWorkflowState(s: HostState): WorkflowState {
    match s
    case HostAvailable => Available
    case HostPlanning => Preparing
    case HostMaintenance => Maintenance
    case HostDraining => Returning
    case HostRecovery => RecoveryRequired
  }

  predicate Terminal(s: PlanState) {
    s in {Succeeded, PlanFailed, Cancelled}
  }

  /** States in which an execution is under way and must own its locks. */
  predicate InFlight(s: PlanState) {
    s in {Executing, Paused, PlanRecovery}
  }

  /** A terminal plan state is exactly one that no transition leaves. */
  lemma TerminalIsFinal(s: PlanState)
    ensures Terminal(s) <==> forall t :: !LegalPlan(s, t)
  {
    if !Terminal(s) {
      assert LegalPlan(s, match s case Draft => Ready case Ready => Executing case Blocked => Draft case Executing => Paused
                          case Paused => Executing case PlanRecovery => Executing case _ => Cancelled);
    }
  }
}
