/** The action coordinator: it opens, closes and fails one plan action at a
    time, and owns the plan's lifecycle state and locks. */
module Execution {
  import opened Wrappers
  import opened Lifecycle
  import opened Store

  datatype Action = Execute | Pause | Resume | Cancel | Recover

  /** Answers of the validations that read tables this model leaves out. */
  datatype Checks = Checks(hash: bool, safePoint: bool, snapshot: bool, revisions: bool, noConflict: bool, run: bool)

  datatype Ticket = Ticket(plan: PlanId, run: RunId, action: Action, token: Token)

  datatype AdapterResult = AdapterResult(state: Option<PlanState>, evidence: set<LockScope>)

  function ActionStates(action: Action): set<PlanState> {
    match action
    case Execute => {Ready}
    case Pause => {Executing}
    case Resume => {Paused}
    case Cancel => {Draft, Ready, Blocked, Executing, Paused, PlanRecovery}
    case Recover => {PlanRecovery}
  }

  function DefaultResult(action: Action): Option<PlanState> {
    match action
    case Execute => None
    case Pause => Some(Paused)
    case Resume => None
    case Cancel => Some(Cancelled)
    case Recover => Some(Executing)
  }

  function AllowedResults(action: Action): set<Option<PlanState>> {
    match action
    case Execute => {None, Some(Executing), Some(Succeeded), Some(PlanFailed), Some(PlanRecovery)}
    case Pause => {Some(Paused), Some(PlanRecovery)}
    case Resume => {None, Some(Executing), Some(Succeeded), Some(PlanFailed), Some(PlanRecovery)}
    case Cancel => {Some(Cancelled), Some(PlanRecovery)}
    case Recover => {Some(Executing), Some(Succeeded), Some(PlanFailed), Some(Cancelled), Some(PlanRecovery)}
  }

  function ResultState(action: Action, result: AdapterResult): Option<PlanState> {
    if result.state.Some? then result.state else DefaultResult(action)
  }

  predicate AcceptedResult(action: Action, result: AdapterResult) {
    ResultState(action, result) in AllowedResults(action)
  }

  function LockScopes(plan: PlanId, content: PlanContent, recovery: bool): set<LockScope> {
    (if content.node.Some? then {HostLock(content.node.value)} else {})
    + (set c | c in content.clusters :: ClusterLock(c))
    + (set a | a in content.revisions :: AssignmentLock(a))
    + (if recovery then {RecoveryLock(plan)} else {})
  }

  predicate ChecksPass(action: Action, checks: Checks) {
    && checks.hash
    && (action in {Pause, Resume, Cancel} ==> checks.safePoint)
    && (action in {Execute, Resume} ==> checks.snapshot && checks.revisions && checks.noConflict)
  }

  function StaleLocks(db: Db, plan: PlanId, now: int): set<LockScope> {
    set scope | scope in db.locks && db.locks[scope].owner == plan && Expired(db.locks[scope], now)
  }

  /** The token of the plan's first active lock, or none. */
  ghost function TokenOf(db: Db, plan: PlanId): (token: Option<Token>)
    ensures token.None? <==> ActiveLocks(db, plan) == {}
    ensures token.Some? ==> exists s :: s in db.locks && db.locks[s] == LockRow(plan, token.value, db.locks[s].expires)
  {
    var held := ActiveLocks(db, plan);
    if held == {} then None
    else var scope :| scope in held; Some(db.locks[scope].token)
  }

  function AttachRun(db: Db, plan: PlanId, freshRun: RunId): Db
    requires plan in db.plans
  {
    if db.plans[plan].run.Some? then db
    else db.(plans := db.plans[plan := db.plans[plan].(run := Some(freshRun))])
  }

  /** The locks an opening action takes: all of the plan's, under the token it
      already has or a new one; `None` leaves the locks alone. */
  ghost function Locked(db: Db, plan: PlanId, recovery: bool, now: int, ttl: nat): Result<(Db, Token), StoreError>
    requires plan in db.plans
  {
    var held := TokenOf(db, plan);
    var token := if held.Some? then held.value else db.nextToken;
    var locked := AcquireLocks(db, LockScopes(plan, db.plans[plan].content, recovery), plan, token, now, ttl);
    if locked.Err? then Err(locked.error)
    else Ok((locked.value.(nextToken := if held.Some? then db.nextToken else db.nextToken + 1), token))
  }

  /** An execution takes its locks, a recovery too unless some are stale; the
      other actions on a plan in flight need locks to be there. */
  ghost function OpeningLocks(db: Db, attached: Db, plan: PlanId, action: Action, now: int, ttl: nat): (r: Result<(Db, Token), StoreError>)
    requires plan in db.plans && plan in attached.plans
    ensures r.Ok? ==> r.value.0.plans == attached.plans
  {
    if action in {Execute, Recover} && StaleLocks(db, plan, now) == {} then Locked(attached, plan, action == Recover, now, ttl)
    else if action !in {Execute, Recover} && InFlight(db.plans[plan].state) && ActiveLocks(db, plan) == {} then Err(Validation)
    else Ok((attached, TokenOf(db, plan).GetOr(0)))
  }

  ghost function PrepareSpec(db: Db, plan: PlanId, action: Action, checks: Checks, freshRun: RunId, now: int, ttl: nat): Result<(Db, Ticket), StoreError> {
    if plan !in db.plans then Err(RecordNotFound)
    else
      var row := db.plans[plan];
      var stale := StaleLocks(db, plan, now);
      if row.state !in ActionStates(action) || !ChecksPass(action, checks) then Err(Validation)
      else if stale != {} && action != Recover then Err(Validation)
      else if row.run.Some? && !checks.run then Err(Validation)
      else
        var attached := AttachRun(db, plan, freshRun);
        var run := attached.plans[plan].run.value;
        var locked := OpeningLocks(db, attached, plan, action, now, ttl);
        if locked.Err? then Err(locked.error)
        else
          var (current, token) := locked.value;
          var ticket := Ticket(plan, run, action, token);
          if action in {Execute, Resume} then
            match TransitionPlan(current, plan, current.plans[plan].revision, Executing)
            case Err(e) => Err(e)
            case Ok(moved) => Ok((moved, ticket))
          else Ok((current, ticket))
  }

  /** The open transaction after an opening, refused or not. */
  ghost function PrepareView(db: Db, plan: PlanId, action: Action, checks: Checks, freshRun: RunId, now: int, ttl: nat): Db {
    match PrepareSpec(db, plan, action, checks, freshRun, now, ttl)
    case Ok(value) => value.0
    case Err(_) =>
      if plan !in db.plans then db
      else
        var row := db.plans[plan];
        if row.state !in ActionStates(action) || !ChecksPass(action, checks) then db
        else if (StaleLocks(db, plan, now) != {} && action != Recover) || (row.run.Some? && !checks.run) then db
        else
          var attached := AttachRun(db, plan, freshRun);
          var locked := OpeningLocks(db, attached, plan, action, now, ttl);
          if locked.Err? then attached else locked.value.0
  }

  function WithoutLocks(db: Db, scopes: set<LockScope>): Db {
    db.(locks := map s | s in db.locks && s !in scopes :: db.locks[s])
  }

  ghost function RecoverStaleSpec(db: Db, plan: PlanId, result: AdapterResult, now: int, ttl: nat): (r: Result<Db, StoreError>)
    requires plan in db.plans
    ensures r.Ok? ==> r.value.plans == db.plans
  {
    var stale := StaleLocks(db, plan, now);
    if !(stale <= result.evidence) then Err(Validation)
    else if stale == {} then Ok(db)
    else
      var locked := Locked(WithoutLocks(db, stale), plan, true, now, ttl);
      if locked.Err? then Err(locked.error) else Ok(locked.value.0)
  }

  /** ... refused or not: the dropped locks stay dropped. */
  ghost function RecoverStaleView(db: Db, plan: PlanId, result: AdapterResult, now: int, ttl: nat): Db
    requires plan in db.plans
  {
    var stale := StaleLocks(db, plan, now);
    match RecoverStaleSpec(db, plan, result, now, ttl)
    case Ok(after) => after
    case Err(_) => if stale <= result.evidence then WithoutLocks(db, stale) else db
  }

  /** Cancelling an executing plan goes through `paused`. */
  function TransitionForResult(db: Db, plan: PlanId, target: PlanState): Result<Db, StoreError>
    requires plan in db.plans
  {
    var paused :=
      if target == Cancelled && db.plans[plan].state == Executing
      then TransitionPlan(db, plan, db.plans[plan].revision, Paused) else Ok(db);
    if paused.Err? then paused
    else TransitionPlan(paused.value, plan, paused.value.plans[plan].revision, target)
  }

  ghost function ReleaseActiveSpec(db: Db, plan: PlanId, now: int): Result<Db, StoreError> {
    var token := TokenOf(db, plan);
    if token.None? then Ok(db)
    else if StaleLocks(db, plan, now) != {} then Err(Validation)
    else ReleaseLocks(db, token.value, now)
  }

  predicate TicketMatches(db: Db, ticket: Ticket, sameContent: bool) {
    ticket.plan in db.plans && db.plans[ticket.plan].run == Some(ticket.run) && sameContent
  }

  ghost function FinalizeSpec(db: Db, ticket: Ticket, result: AdapterResult, sameContent: bool, now: int, ttl: nat): Result<Db, StoreError> {
    var plan := ticket.plan;
    if plan !in db.plans then Err(RecordNotFound)
    else if !TicketMatches(db, ticket, sameContent) then Err(Validation)
    else
      var rediscovered := if ticket.action == Recover then RecoverStaleSpec(db, plan, result, now, ttl) else Ok(db);
      if rediscovered.Err? then rediscovered
      else if !AcceptedResult(ticket.action, result) then Err(Validation)
      else Settled(rediscovered.value, plan, ResultState(ticket.action, result), now)
  }

  /** The end of an action: the plan takes the adapter's state, and a plan that
      is now terminal gives up its locks. */
  ghost function Settled(db: Db, plan: PlanId, target: Option<PlanState>, now: int): Result<Db, StoreError>
    requires plan in db.plans
  {
    var moved :=
      if target.Some? && target.value != db.plans[plan].state then TransitionForResult(db, plan, target.value) else Ok(db);
    if moved.Err? then moved
    else if Terminal(moved.value.plans[plan].state) then ReleaseActiveSpec(moved.value, plan, now)
    else moved
  }

  /** The open transaction after a close, refused or not. */
  ghost function FinalizeView(db: Db, ticket: Ticket, result: AdapterResult, sameContent: bool, now: int, ttl: nat): Db {
    if !TicketMatches(db, ticket, sameContent) then db
    else if ticket.action == Recover then
      var rediscovered := RecoverStaleSpec(db, ticket.plan, result, now, ttl);
      if rediscovered.Err? then RecoverStaleView(db, ticket.plan, result, now, ttl)
      else if !AcceptedResult(ticket.action, result) then rediscovered.value
      else SettledView(rediscovered.value, ticket.plan, ResultState(ticket.action, result), now)
    else if !AcceptedResult(ticket.action, result) then db
    else SettledView(db, ticket.plan, ResultState(ticket.action, result), now)
  }

  ghost function SettledView(db: Db, plan: PlanId, target: Option<PlanState>, now: int): Db
    requires plan in db.plans
  {
    var moved :=
      if target.Some? && target.value != db.plans[plan].state then TransitionForResult(db, plan, target.value) else Ok(db);
    if moved.Err? then db
    else
      var settled := Settled(db, plan, target, now);
      if settled.Err? then moved.value else settled.value
  }

  function FailSpec(db: Db, ticket: Ticket, sameContent: bool): Result<Db, StoreError> {
    if ticket.plan !in db.plans then Err(RecordNotFound)
    else if !TicketMatches(db, ticket, sameContent) then Err(Validation)
    else
      var row := db.plans[ticket.plan];
      if row.state in {Executing, Paused} then TransitionPlan(db, ticket.plan, row.revision, PlanRecovery)
      else if row.state == Ready then TransitionPlan(db, ticket.plan, row.revision, Blocked)
      else Ok(db)
  }

  /** One owner, one token: what makes a plan's first lock speak for all. */
  ghost predicate TokensOk(db: Db) {
    forall s, t :: s in db.locks && t in db.locks && db.locks[s].owner == db.locks[t].owner ==>
      db.locks[s].token == db.locks[t].token
  }

  /** The connection the services work on. */
  class MaintenanceRepository {
    var db: Db

    constructor (db: Db)
      ensures this.db == db
    {
      this.db := db;
    }
  }

  class MaintenanceExecutionService {
    const repository: MaintenanceRepository
    const ttl: nat

    constructor (repository: MaintenanceRepository, ttl: nat)
      ensures this.repository == repository && this.ttl == ttl
    {
      this.repository := repository;
      this.ttl := ttl;
    }

    method CurrentToken(plan: PlanId) returns (token: Option<Token>)
      requires TokensOk(repository.db)
      ensures token == TokenOf(repository.db, plan)
    {
      var held := ActiveLocks(repository.db, plan);
      if held == {} { return None; }
      var scope :| scope in held;
      return Some(repository.db.locks[scope].token);
    }

    method TakeLocks(plan: PlanId, recovery: bool, now: int) returns (r: Result<Token, StoreError>)
      requires TokensOk(repository.db) && plan in repository.db.plans
      modifies repository
      ensures match Locked(old(repository.db), plan, recovery, now, ttl)
              case Err(e) => r == Err(e) && repository.db == old(repository.db)
              case Ok(value) => r == Ok(value.1) && repository.db == value.0
    {
      var db := repository.db;
      var held := CurrentToken(plan);
      var token := held.GetOr(db.nextToken);
      var locked := AcquireLocks(db, LockScopes(plan, db.plans[plan].content, recovery), plan, token, now, ttl);
      if locked.Err? { return Err(locked.error); }
      repository.db := locked.value.(nextToken := if held.Some? then db.nextToken else db.nextToken + 1);
      return Ok(token);
    }

    /** Opens an action. */
    method Prepare(plan: PlanId, action: Action, checks: Checks, freshRun: RunId, now: int) returns (r: Result<Ticket, StoreError>)
      requires TokensOk(repository.db)
      modifies repository
      ensures match PrepareSpec(old(repository.db), plan, action, checks, freshRun, now, ttl)
              case Err(e) => r == Err(e)
              case Ok(value) => r == Ok(value.1) && repository.db == value.0
      ensures repository.db == PrepareView(old(repository.db), plan, action, checks, freshRun, now, ttl)
    {
      var db := repository.db;
      if plan !in db.plans { return Err(RecordNotFound); }
      var row := db.plans[plan];
      if row.state !in ActionStates(action) || !ChecksPass(action, checks) { return Err(Validation); }
      var stale := StaleLocks(db, plan, now);
      if stale != {} && action != Recover { return Err(Validation); }
      if row.run.Some? && !checks.run { return Err(Validation); }
      var held := CurrentToken(plan);
      repository.db := AttachRun(db, plan, freshRun);
      var run := repository.db.plans[plan].run.value;
      var token := held.GetOr(0);
      if action in {Execute, Recover} {
        if stale == {} {
          var taken := TakeLocks(plan, action == Recover, now);
          if taken.Err? { return Err(taken.error); }
          token := taken.value;
        }
      } else if InFlight(row.state) && held.None? {
        return Err(Validation);
      }
      if action in {Execute, Resume} {
        var moved := TransitionPlan(repository.db, plan, repository.db.plans[plan].revision, Executing);
        if moved.Err? { return Err(moved.error); }
        repository.db := moved.value;
      }
      return Ok(Ticket(plan, run, action, token));
    }

    method DropStaleLocks(plan: PlanId, stale: set<LockScope>, now: int)
      requires stale == StaleLocks(repository.db, plan, now)
      modifies repository
      ensures repository.db == WithoutLocks(old(repository.db), stale)
    {
      var start := repository.db;
      var todo := stale;
      assert WithoutLocks(start, {}).locks == start.locks;
      while todo != {}
        invariant todo <= stale
        invariant repository.db == WithoutLocks(start, stale - todo)
        decreases |todo|
      {
        var scope :| scope in todo;
        repository.db := RecoverStaleLock(repository.db, scope, now).value;
        assert repository.db.locks == WithoutLocks(start, stale - (todo - {scope})).locks;
        todo := todo - {scope};
      }
      assert stale - todo == stale;
    }

    /** Takes every expired lock of the plan out on its evidence, one by one,
        then takes the whole lock set again. */
    method RecoverStaleLocks(plan: PlanId, result: AdapterResult, now: int) returns (error: Option<StoreError>)
      requires TokensOk(repository.db) && plan in repository.db.plans
      modifies repository
      ensures match RecoverStaleSpec(old(repository.db), plan, result, now, ttl)
              case Err(e) => error == Some(e)
              case Ok(db) => error == None && repository.db == db
      ensures repository.db == RecoverStaleView(old(repository.db), plan, result, now, ttl)
    {
      var start := repository.db;
      var stale := StaleLocks(start, plan, now);
      if !(stale <= result.evidence) { return Some(Validation); }
      if stale == {} { return None; }
      DropStaleLocks(plan, stale, now);
      var taken := TakeLocks(plan, true, now);
      error := if taken.Err? then Some(taken.error) else None;
    }

    method ReleaseActiveLocks(plan: PlanId, now: int) returns (error: Option<StoreError>)
      requires TokensOk(repository.db)
      modifies repository
      ensures match ReleaseActiveSpec(old(repository.db), plan, now)
              case Err(e) => error == Some(e) && repository.db == old(repository.db)
              case Ok(db) => error == None && repository.db == db
    {
      var token := CurrentToken(plan);
      if token.None? { return None; }
      if StaleLocks(repository.db, plan, now) != {} { return Some(Validation); }
      var released := ReleaseLocks(repository.db, token.value, now);
      if released.Err? { return Some(released.error); }
      repository.db := released.value;
      return None;
    }

    /** Closes an action with the adapter's answer. When it refuses, the lifecycle
        move may already stand in the open transaction. */
    method Finalize(ticket: Ticket, result: AdapterResult, sameContent: bool, now: int) returns (error: Option<StoreError>)
      requires TokensOk(repository.db)
      modifies repository
      ensures match FinalizeSpec(old(repository.db), ticket, result, sameContent, now, ttl)
              case Err(e) => error == Some(e)
              case Ok(db) => error == None && repository.db == db
      ensures repository.db == FinalizeView(old(repository.db), ticket, result, sameContent, now, ttl)
    {
      var plan := ticket.plan;
      if plan !in repository.db.plans { return Some(RecordNotFound); }
      if !TicketMatches(repository.db, ticket, sameContent) { return Some(Validation); }
      if ticket.action == Recover {
        error := RecoverStaleLocks(plan, result, now);
        if error.Some? { return; }
      }
      if !AcceptedResult(ticket.action, result) { return Some(Validation); }
      error := Settle(plan, ResultState(ticket.action, result), now);
    }

    method Settle(plan: PlanId, target: Option<PlanState>, now: int) returns (error: Option<StoreError>)
      requires TokensOk(repository.db) && plan in repository.db.plans
      modifies repository
      ensures match Settled(old(repository.db), plan, target, now)
              case Err(e) => error == Some(e)
              case Ok(db) => error == None && repository.db == db
      ensures repository.db == SettledView(old(repository.db), plan, target, now)
    {
      if target.Some? && target.value != repository.db.plans[plan].state {
        var moved := TransitionForResult(repository.db, plan, target.value);
        if moved.Err? { return Some(moved.error); }
        repository.db := moved.value;
      }
      if Terminal(repository.db.plans[plan].state) {
        error := ReleaseActiveLocks(plan, now);
        return;
      }
      return None;
    }

    method Fail(ticket: Ticket, sameContent: bool) returns (error: Option<StoreError>)
      modifies repository
      ensures match FailSpec(old(repository.db), ticket, sameContent)
              case Err(e) => error == Some(e) && repository.db == old(repository.db)
              case Ok(db) => error == None && repository.db == db
    {
      var db := repository.db;
      if ticket.plan !in db.plans { return Some(RecordNotFound); }
      if !TicketMatches(db, ticket, sameContent) { return Some(Validation); }
      var row := db.plans[ticket.plan];
      var moved := Ok(db);
      if row.state in {Executing, Paused} {
        moved := TransitionPlan(db, ticket.plan, row.revision, PlanRecovery);
      } else if row.state == Ready {
        moved := TransitionPlan(db, ticket.plan, row.revision, Blocked);
      }
      repository.db := moved.value;
      return None;
    }
  }
}
