/** One cluster's allocation guard: the controller that overrides and restores
    the setting through an unreliable client, and the service that surrounds it
    with a durable ownership record. */
module AllocationGuard {
  import opened Wrappers
  import opened AllocationSettings

  type PlanId = nat

  datatype Phase = Captured | Active | Restored | RecoveryRequired
  datatype Trigger = OnSuccess | OnFailure | OnCancel | OnRecovery

  type FaithfulRendering = r: Rendering | Faithful(r) witness Rendering(Flat, map[], map[], map[])

  /** How one write can end: acknowledged, failed without effect, or failed
      after it took effect. */
  datatype PutAnswer = Acknowledged | LostBefore(category: string) | LostAfter(category: string)

  /** How one read can end. A body that is read shows the real layers, in some
      layout and among some other settings. */
  datatype ReadAnswer = Shows(rendering: FaithfulRendering) | ReadFails(category: string) | Garbled

  datatype Response = Body(json: Json) | RequestError(category: string)

  function PutError(answer: PutAnswer): Option<string> {
    if answer.Acknowledged? then None else Some(answer.category)
  }

  function AfterPut(layers: Layers, body: PutBody, answer: PutAnswer): Layers {
    if answer.LostBefore? then layers else ApplyPut(layers, body)
  }

  function Answered(layers: Layers, answer: ReadAnswer): Response {
    match answer
    case Shows(rendering) => Body(Render(rendering, layers))
    case ReadFails(category) => RequestError(category)
    case Garbled => Body(JArray([]))
  }

  class ElasticsearchClient {
    var layers: Layers

    constructor (layers: Layers)
      ensures this.layers == layers
    {
      this.layers := layers;
    }

    method PutSettings(body: PutBody, answer: PutAnswer) returns (error: Option<string>)
      modifies this
      ensures layers == AfterPut(old(layers), body, answer)
      ensures error == PutError(answer)
    {
      if !answer.LostBefore? {
        layers := ApplyPut(layers, body);
      }
      error := PutError(answer);
    }

    method Settings(answer: ReadAnswer) returns (response: Response)
      ensures response == Answered(layers, answer)
      ensures answer.Shows? ==> response.Body? && CaptureSetting(response.json) == Good(layers)
      ensures answer.Garbled? ==> response.Body? && CaptureSetting(response.json) == Malformed
    {
      response := Answered(layers, answer);
      if answer.Shows? {
        CaptureReadsTheLayers(answer.rendering, layers);
      }
    }
  }

  datatype Checkpoint = Checkpoint(plan: PlanId, phase: Phase, captured: Layers, observed: Option<Layers>)

  datatype CleanupResult = CleanupResult(
    restored: bool, trigger: Trigger, verified: bool, checkpoint: Checkpoint, error: Option<string>)
  {
    /** The checks the result model runs on construction. */
    predicate Accepted() {
      if restored then verified && checkpoint.phase == Restored else checkpoint.phase == RecoveryRequired
    }
  }

  datatype ApplyStatus = Activated | Failed | NeedsRecovery

  datatype ApplyResult = ApplyResult(
    status: ApplyStatus, checkpoint: Checkpoint, cleanup: Option<CleanupResult>, error: Option<string>)
  {
    predicate Accepted() {
      if status == Activated then checkpoint.phase == Active && cleanup == None else cleanup.Some?
    }
  }

  datatype ActivateAnswers = ActivateAnswers(
    put: PutAnswer, read: ReadAnswer, cleanupPut: PutAnswer, cleanupRead: ReadAnswer)

  datatype Activation =
    | Answer(result: ApplyResult)
    | NotCaptured
    | TransientPrecedence
    | InvalidResponse

  // What one restoration leaves behind: the setting, and the verdict on it.

  function RestoredLayers(layers: Layers, cp: Checkpoint, put: PutAnswer): Layers {
    AfterPut(layers, RestorationPayload(cp.captured), put)
  }

  function RestoreError(put: PutAnswer, otherwise: string): Option<string> {
    if put.Acknowledged? then Some(otherwise) else Some("allocation-restoration-" + put.category)
  }

  function CleanupVerdict(after: Layers, cp: Checkpoint, trigger: Trigger, put: PutAnswer, read: ReadAnswer): CleanupResult {
    match read
    case Shows(_) =>
      if after == cp.captured then
        CleanupResult(true, trigger, true, cp.(phase := Restored, observed := Some(after)),
                      if put.Acknowledged? then None else Some("allocation-restoration-" + put.category))
      else
        CleanupResult(false, trigger, false, cp.(phase := RecoveryRequired, observed := Some(after)),
                      RestoreError(put, "allocation-restoration-verification-failed"))
    case ReadFails(category) =>
      CleanupResult(false, trigger, false, cp.(phase := RecoveryRequired, observed := None),
                    RestoreError(put, "allocation-restoration-" + category))
    case Garbled =>
      CleanupResult(false, trigger, false, cp.(phase := RecoveryRequired, observed := None),
                    RestoreError(put, "allocation-restoration-invalid-response"))
  }

  /** The setting as the guard wants it. */
  predicate Guarding(layers: Layers) {
    layers.persistent == Some(PRIMARIES) && layers.Effective() == PRIMARIES
  }

  predicate Overridden(captured: Layers) {
    captured.transient.Some? && captured.transient.value != PRIMARIES
  }

  function CleanedUp(layers: Layers, cp: Checkpoint, a: ActivateAnswers, error: string): (Layers, Activation) {
    var after := RestoredLayers(layers, cp, a.cleanupPut);
    var cleanup := CleanupVerdict(after, cp, OnFailure, a.cleanupPut, a.cleanupRead);
    (after, Answer(ApplyResult(if cleanup.restored then Failed else NeedsRecovery, cleanup.checkpoint, Some(cleanup), Some(error))))
  }

  function ActivationSpec(layers: Layers, cp: Checkpoint, a: ActivateAnswers): (Layers, Activation) {
    if cp.phase != Captured then (layers, NotCaptured)
    else if Overridden(cp.captured) then (layers, TransientPrecedence)
    else
      var guarded := AfterPut(layers, GUARD_PUT, a.put);
      if !a.put.Acknowledged? then CleanedUp(guarded, cp, a, "allocation-guard-" + a.put.category)
      else
        match a.read
        case ReadFails(category) => CleanedUp(guarded, cp, a, "allocation-guard-" + category)
        case Garbled => (guarded, InvalidResponse)
        case Shows(_) =>
          if Guarding(guarded) then
            (guarded, Answer(ApplyResult(Activated, cp.(phase := Active, observed := Some(guarded)), None, None)))
          else CleanedUp(guarded, cp, a, "allocation-guard-verification-failed")
  }

  class AllocationGuardController {
    const client: ElasticsearchClient

    constructor (client: ElasticsearchClient)
      ensures this.client == client
    {
      this.client := client;
    }

    /** Reads the setting; a malformed body raises and is reported as such. */
    method Capture(plan: PlanId, answer: ReadAnswer) returns (r: Result<Checkpoint, GuardError>)
      ensures r.Ok? <==> answer.Shows?
      ensures r.Ok? ==> r.value == Checkpoint(plan, Captured, client.layers, Some(client.layers))
      ensures answer.ReadFails? ==> r == Err(RequestFailed(answer.category))
      ensures answer.Garbled? ==> r == Err(BadResponse)
    {
      var response := client.Settings(answer);
      match response
      case RequestError(category) => r := Err(RequestFailed(category));
      case Body(json) =>
        var captured := CaptureSetting(json);
        if captured.Malformed? {
          r := Err(BadResponse);
        } else {
          r := Ok(Checkpoint(plan, Captured, captured.value, Some(captured.value)));
        }
    }

    /** The verdict follows what the verifying read saw, not whether the write
        was acknowledged. */
    method Restore(cp: Checkpoint, trigger: Trigger, put: PutAnswer, read: ReadAnswer) returns (r: CleanupResult)
      modifies client
      ensures client.layers == RestoredLayers(old(client.layers), cp, put)
      ensures r == CleanupVerdict(client.layers, cp, trigger, put, read)
      ensures r.Accepted()
      ensures r.restored <==> read.Shows? && client.layers == cp.captured
    {
      var payload := RestorationPayload(cp.captured);
      var putError := client.PutSettings(payload, put);
      var requestError := if putError.Some? then Some("allocation-restoration-" + putError.value) else None;
      var response := client.Settings(read);
      if response.RequestError? {
        return CleanupResult(false, trigger, false, cp.(phase := RecoveryRequired, observed := None),
          if requestError.Some? then requestError else Some("allocation-restoration-" + response.category));
      }
      var observed := CaptureSetting(response.json);
      if observed.Malformed? {
        return CleanupResult(false, trigger, false, cp.(phase := RecoveryRequired, observed := None),
          if requestError.Some? then requestError else Some("allocation-restoration-invalid-response"));
      }
      var verified := observed.value.persistent == cp.captured.persistent && observed.value.transient == cp.captured.transient;
      if !verified {
        return CleanupResult(false, trigger, false, cp.(phase := RecoveryRequired, observed := Some(observed.value)),
          if requestError.Some? then requestError else Some("allocation-restoration-verification-failed"));
      }
      return CleanupResult(true, trigger, true, cp.(phase := Restored, observed := Some(observed.value)), requestError);
    }

    /** `Activated` means the read saw the guard in force; every other answer
        carries the outcome of a restoration. */
    method Activate(cp: Checkpoint, a: ActivateAnswers) returns (r: Activation)
      modifies client
      ensures (client.layers, r) == ActivationSpec(old(client.layers), cp, a)
      ensures r.Answer? ==> r.result.Accepted() && (r.result.cleanup.Some? ==> r.result.cleanup.value.Accepted())
      ensures r.Answer? && r.result.status == Activated ==> a.read.Shows? && Guarding(client.layers)
      ensures r.Answer? && r.result.status == Failed ==> a.cleanupRead.Shows? && client.layers == cp.captured
    {
      if cp.phase != Captured {
        return NotCaptured;
      }
      var transient := cp.captured.transient;
      if transient.Some? && transient.value != PRIMARIES {
        return TransientPrecedence;
      }
      var error := client.PutSettings(GUARD_PUT, a.put);
      if error.Some? {
        r := ActivationFailed(cp, a, "allocation-guard-" + error.value);
        return;
      }
      var response := client.Settings(a.read);
      if response.RequestError? {
        r := ActivationFailed(cp, a, "allocation-guard-" + response.category);
        return;
      }
      var observed := CaptureSetting(response.json);
      if observed.Malformed? {
        return InvalidResponse;
      }
      if !(observed.value.persistent == Some(PRIMARIES) && observed.value.Effective() == PRIMARIES) {
        r := ActivationFailed(cp, a, "allocation-guard-verification-failed");
        return;
      }
      return Answer(ApplyResult(Activated, cp.(phase := Active, observed := Some(observed.value)), None, None));
    }

    method ActivationFailed(cp: Checkpoint, a: ActivateAnswers, error: string) returns (r: Activation)
      modifies client
      ensures (client.layers, r) == CleanedUp(old(client.layers), cp, a, error)
    {
      var cleanup := Restore(cp, OnFailure, a.cleanupPut, a.cleanupRead);
      r := Answer(ApplyResult(if cleanup.restored then Failed else NeedsRecovery, cleanup.checkpoint, Some(cleanup), Some(error)));
    }
  }

  datatype GuardError =
    | GuardConflict | GuardNotOwned | GuardNotFound | WrongPhase | Precedence
    | BadResponse | RequestFailed(category: string) | RevisionConflict | IllegalTransition

  /** A durable ownership row. */
  datatype GuardRecord = GuardRecord(phase: Phase, checkpoint: Checkpoint, revision: nat)

  type Records = map<PlanId, GuardRecord>

  predicate HasUnrestored(records: Records) {
    exists plan :: plan in records && records[plan].phase != Restored
  }

  /** The database trigger on guard rows. */
  predicate LegalPhase(before: Phase, after: Phase) {
    before == after
    || (before == Captured && after != Captured)
    || (before == Active && after in {Restored, RecoveryRequired})
    || (before == RecoveryRequired && after == Restored)
  }

  function Created(records: Records, plan: PlanId, cp: Checkpoint): Result<Records, GuardError> {
    if plan in records then
      if records[plan].phase == Captured && records[plan].checkpoint == cp then Ok(records) else Err(GuardConflict)
    else if HasUnrestored(records) then Err(GuardConflict)
    else Ok(records[plan := GuardRecord(Captured, cp, 1)])
  }

  function Transitioned(records: Records, plan: PlanId, revision: nat, cp: Checkpoint): Result<Records, GuardError> {
    if plan !in records then Err(GuardNotFound)
    else if records[plan].revision != revision then Err(RevisionConflict)
    else if cp.plan != plan then Err(GuardNotOwned)
    else if !LegalPhase(records[plan].phase, cp.phase) then Err(IllegalTransition)
    else Ok(records[plan := GuardRecord(cp.phase, cp, revision + 1)])
  }

  /** Where the controller process may die inside one operation. */
  datatype Crash = Survives | DiesAfterPut | DiesBeforePersist

  datatype Outcome = Returned(checkpoint: Checkpoint) | Raised(error: GuardError) | Died

  function Reported(error: Option<GuardError>, cp: Checkpoint): Outcome {
    if error.Some? then Raised(error.value) else Returned(cp)
  }

  datatype ClusterState = ClusterState(layers: Layers, records: Records)

  // The three service operations as functions of the cluster's setting and rows.

  function Persisted(s: ClusterState, plan: PlanId, revision: nat, cp: Checkpoint, crash: Crash): (ClusterState, Outcome) {
    if crash == DiesBeforePersist then (s, Died)
    else
      match Transitioned(s.records, plan, revision, cp)
      case Err(e) => (s, Raised(e))
      case Ok(records) => (s.(records := records), Returned(cp))
  }

  function Owned(s: ClusterState, plan: PlanId): Result<GuardRecord, GuardError> {
    if plan in s.records then Ok(s.records[plan])
    else if HasUnrestored(s.records) then Err(GuardNotOwned)
    else Err(GuardNotFound)
  }

  function CaptureSpec(s: ClusterState, plan: PlanId, read: ReadAnswer, crash: Crash): (ClusterState, Outcome) {
    if plan in s.records then
      if s.records[plan].phase != Restored then (s, Returned(s.records[plan].checkpoint))
      else (s, Raised(GuardConflict))
    else if HasUnrestored(s.records) then (s, Raised(GuardConflict))
    else
      match read
      case ReadFails(category) => (s, Raised(RequestFailed(category)))
      case Garbled => (s, Raised(BadResponse))
      case Shows(_) =>
        var cp := Checkpoint(plan, Captured, s.layers, Some(s.layers));
        if crash == DiesBeforePersist then (s, Died)
        else (s.(records := s.records[plan := GuardRecord(Captured, cp, 1)]), Returned(cp))
  }

  function ActivateSpec(s: ClusterState, plan: PlanId, a: ActivateAnswers, crash: Crash): (ClusterState, Outcome) {
    match Owned(s, plan)
    case Err(e) => (s, Raised(e))
    case Ok(record) =>
      var cp := record.checkpoint;
      if record.phase == Restored then (s, Raised(GuardNotOwned))
      else if cp.phase == Active then (s, Returned(cp))
      else if cp.phase != Captured then (s, Raised(WrongPhase))
      else if crash == DiesAfterPut && !Overridden(cp.captured) then
        (s.(layers := AfterPut(s.layers, GUARD_PUT, a.put)), Died)
      else
        var (layers, activation) := ActivationSpec(s.layers, cp, a);
        var touched := s.(layers := layers);
        match activation
        case Answer(result) => Persisted(touched, plan, record.revision, result.checkpoint, crash)
        case TransientPrecedence => RaiseAfterPersist(touched, plan, record, crash, Precedence)
        case InvalidResponse => RaiseAfterPersist(touched, plan, record, crash, BadResponse)
        case NotCaptured => RaiseAfterPersist(touched, plan, record, crash, WrongPhase)
  }

  /** An activation that raises is first recorded as needing recovery. */
  function RaiseAfterPersist(s: ClusterState, plan: PlanId, record: GuardRecord, crash: Crash, error: GuardError): (ClusterState, Outcome) {
    var (after, outcome) := Persisted(s, plan, record.revision, record.checkpoint.(phase := RecoveryRequired), crash);
    (after, if outcome.Returned? then Raised(error) else outcome)
  }

  function RestoreSpec(s: ClusterState, plan: PlanId, trigger: Trigger, put: PutAnswer, read: ReadAnswer, crash: Crash): (ClusterState, Outcome) {
    match Owned(s, plan)
    case Err(e) => (s, Raised(e))
    case Ok(record) =>
      var cp := record.checkpoint;
      if cp.phase == Restored then (s, Returned(cp))
      else
        var touched := s.(layers := RestoredLayers(s.layers, cp, put));
        if crash == DiesAfterPut then (touched, Died)
        else
          Persisted(touched, plan, record.revision, CleanupVerdict(touched.layers, cp, trigger, put, read).checkpoint, crash)
  }

  class GuardRepository {
    var records: Records

    constructor ()
      ensures records == map[]
    {
      records := map[];
    }

    method Create(plan: PlanId, cp: Checkpoint) returns (error: Option<GuardError>)
      modifies this
      ensures error.None? ==> Created(old(records), plan, cp) == Ok(records)
      ensures error.Some? ==> records == old(records) && Created(old(records), plan, cp) == Err(error.value)
    {
      if plan in records {
        error := if records[plan].phase == Captured && records[plan].checkpoint == cp then None else Some(GuardConflict);
        return;
      }
      if exists other :: other in records && records[other].phase != Restored {
        return Some(GuardConflict);
      }
      records := records[plan := GuardRecord(Captured, cp, 1)];
      error := None;
    }

    method Transition(plan: PlanId, revision: nat, cp: Checkpoint) returns (error: Option<GuardError>)
      modifies this
      ensures error.None? ==> Transitioned(old(records), plan, revision, cp) == Ok(records)
      ensures error.Some? ==> records == old(records) && Transitioned(old(records), plan, revision, cp) == Err(error.value)
    {
      if plan !in records { return Some(GuardNotFound); }
      var current := records[plan];
      if current.revision != revision { return Some(RevisionConflict); }
      if cp.plan != plan { return Some(GuardNotOwned); }
      if !LegalPhase(current.phase, cp.phase) { return Some(IllegalTransition); }
      records := records[plan := GuardRecord(cp.phase, cp, current.revision + 1)];
      error := None;
    }
  }

  class AllocationGuardService {
    const repository: GuardRepository
    const controller: AllocationGuardController

    constructor (repository: GuardRepository, controller: AllocationGuardController)
      ensures this.repository == repository && this.controller == controller
    {
      this.repository := repository;
      this.controller := controller;
    }

    function State(): ClusterState
      reads this, repository, controller, controller.client
    {
      ClusterState(controller.client.layers, repository.records)
    }

    method OwnedRecord(plan: PlanId) returns (r: Result<GuardRecord, GuardError>)
      ensures r == Owned(State(), plan)
    {
      if plan in repository.records { return Ok(repository.records[plan]); }
      if exists other :: other in repository.records && repository.records[other].phase != Restored {
        return Err(GuardNotOwned);
      }
      return Err(GuardNotFound);
    }

    method Persist(plan: PlanId, record: GuardRecord, cp: Checkpoint, crash: Crash) returns (outcome: Outcome)
      modifies repository
      ensures (State(), outcome) == Persisted(old(State()), plan, record.revision, cp, crash)
    {
      if crash == DiesBeforePersist { return Died; }
      var error := repository.Transition(plan, record.revision, cp);
      outcome := Reported(error, cp);
    }

    method Capture(plan: PlanId, read: ReadAnswer, crash: Crash) returns (outcome: Outcome)
      modifies repository
      ensures (State(), outcome) == CaptureSpec(old(State()), plan, read, crash)
    {
      if plan in repository.records {
        var current := repository.records[plan];
        if current.phase in {Captured, Active, RecoveryRequired} {
          return Returned(current.checkpoint);
        }
        return Raised(GuardConflict);
      }
      if exists other :: other in repository.records && repository.records[other].phase != Restored {
        return Raised(GuardConflict);
      }
      var checkpoint := controller.Capture(plan, read);
      if checkpoint.Err? {
        return Raised(checkpoint.error);
      }
      if crash == DiesBeforePersist { return Died; }
      var error := repository.Create(plan, checkpoint.value);
      outcome := Reported(error, checkpoint.value);
    }

    method Activate(plan: PlanId, a: ActivateAnswers, crash: Crash) returns (outcome: Outcome)
      modifies repository, controller.client
      ensures (State(), outcome) == ActivateSpec(old(State()), plan, a, crash)
    {
      var owned := OwnedRecord(plan);
      if owned.Err? { return Raised(owned.error); }
      var record := owned.value;
      if record.phase == Restored { return Raised(GuardNotOwned); }
      var checkpoint := record.checkpoint;
      if checkpoint.phase == Active { return Returned(checkpoint); }
      if checkpoint.phase != Captured { return Raised(WrongPhase); }
      if crash == DiesAfterPut && !Overridden(checkpoint.captured) {
        var _ := controller.client.PutSettings(GUARD_PUT, a.put);
        return Died;
      }
      var activation := controller.Activate(checkpoint, a);
      if activation.Answer? {
        outcome := Persist(plan, record, activation.result.checkpoint, crash);
        return;
      }
      outcome := Persist(plan, record, checkpoint.(phase := RecoveryRequired), crash);
      if outcome.Returned? {
        outcome := Raised(if activation.TransientPrecedence? then Precedence
                          else if activation.InvalidResponse? then BadResponse else WrongPhase);
      }
    }

    method Restore(plan: PlanId, trigger: Trigger, put: PutAnswer, read: ReadAnswer, crash: Crash) returns (outcome: Outcome)
      modifies repository, controller.client
      ensures (State(), outcome) == RestoreSpec(old(State()), plan, trigger, put, read, crash)
    {
      hide CleanupVerdict, Transitioned, RestorationPayload, AfterPut;
      var owned := OwnedRecord(plan);
      if owned.Err? { return Raised(owned.error); }
      var record := owned.value;
      if record.checkpoint.phase == Restored { return Returned(record.checkpoint); }
      if crash == DiesAfterPut {
        var _ := controller.client.PutSettings(RestorationPayload(record.checkpoint.captured), put);
        return Died;
      }
      var result := controller.Restore(record.checkpoint, trigger, put, read);
      outcome := Persist(plan, record, result.checkpoint, crash);
    }
  }
}
