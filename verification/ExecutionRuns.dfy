/** Runs of the action coordinator: any number of plans, any tickets in any
    order, every refused operation rolled back as a whole. */
module ExecutionRuns {
  import opened Wrappers
  import opened Lifecycle
  import opened Store
  import opened Execution

  // The invariant of plans and locks.

  /** Which token each owner uses, and whose token each one is. */
  datatype Keys = Keys(token: map<PlanId, Token>, owner: map<Token, PlanId>)

  predicate HoldsAll(locks: map<LockScope, LockRow>, plan: PlanId, content: PlanContent) {
    forall s :: s in LockScopes(plan, content, false) ==> s in locks && locks[s].owner == plan
  }

  predicate LockOk(lock: LockRow, keys: Keys, nextToken: Token) {
    && lock.token < nextToken
    && lock.owner in keys.token && keys.token[lock.owner] == lock.token
    && lock.token in keys.owner && keys.owner[lock.token] == lock.owner
  }

  ghost predicate OwnersOk(db: Db, keys: Keys) {
    forall s :: s in db.locks ==> LockOk(db.locks[s], keys, db.nextToken)
  }

  /** Only plans in flight hold locks. */
  ghost predicate NoIdleLocks(db: Db) {
    forall s :: s in db.locks ==> db.locks[s].owner in db.plans && InFlight(db.plans[db.locks[s].owner].state)
  }

  /** And those hold all of theirs. */
  ghost predicate FullLocks(db: Db) {
    forall p :: p in db.plans && InFlight(db.plans[p].state) ==> HoldsAll(db.locks, p, db.plans[p].content)
  }

  ghost predicate LockInv(db: Db, keys: Keys) {
    OwnersOk(db, keys) && NoIdleLocks(db) && FullLocks(db)
  }

  /** What the coordinator's methods ask of the lock table is part of the invariant. */
  lemma InvariantGivesTokens(db: Db, keys: Keys)
    requires OwnersOk(db, keys)
    ensures TokensOk(db)
  {
    forall s, t | s in db.locks && t in db.locks && db.locks[s].owner == db.locks[t].owner ensures db.locks[s].token == db.locks[t].token {
      assert LockOk(db.locks[s], keys, db.nextToken) && LockOk(db.locks[t], keys, db.nextToken);
    }
  }

  /** A state that only an execution that has started can reach. */
  predicate Started(s: PlanState) {
    InFlight(s) || Terminal(s)
  }

  // Three ways in which the tables move.

  /** One plan's row changes and the locks stay. */
  lemma RowMoves(db: Db, keys: Keys, plan: PlanId, row: PlanRow)
    requires LockInv(db, keys) && plan in db.plans && row.content == db.plans[plan].content
    requires InFlight(row.state) <==> InFlight(db.plans[plan].state)
    ensures LockInv(db.(plans := db.plans[plan := row]), keys)
  {
  }

  /** A plan takes locks: it now holds every scope asked for, nobody else's lock
      changed, and one owner still means one token. */
  lemma LocksTaken(db: Db, keys: Keys, plan: PlanId, recovery: bool, now: int, ttl: nat) returns (next: Keys)
    requires OwnersOk(db, keys) && plan in db.plans && Locked(db, plan, recovery, now, ttl).Ok?
    ensures var after := Locked(db, plan, recovery, now, ttl).value.0;
      && OwnersOk(after, next) && after == db.(locks := after.locks, nextToken := after.nextToken)
      && HoldsAll(after.locks, plan, db.plans[plan].content)
      && (forall s :: s in db.locks ==> s in after.locks && after.locks[s] == db.locks[s])
      && (forall s :: s in after.locks && s !in db.locks ==> after.locks[s].owner == plan)
  {
    var held := TokenOf(db, plan);
    next := if held.Some? then keys else Keys(keys.token[plan := db.nextToken], keys.owner[db.nextToken := plan]);
    var after := Locked(db, plan, recovery, now, ttl).value.0;
    if held.None? {
      forall s | s in db.locks ensures db.locks[s].owner != plan {
        assert s !in ActiveLocks(db, plan);
      }
    }
    forall s | s in after.locks ensures LockOk(after.locks[s], next, after.nextToken) {
    }
    forall s | s in LockScopes(plan, db.plans[plan].content, false) ensures s in after.locks && after.locks[s].owner == plan {
      assert s in LockScopes(plan, db.plans[plan].content, recovery);
    }
  }

  /** A plan that holds all of its locks may be put in flight. */
  lemma RowStarts(before: Db, db: Db, keys: Keys, plan: PlanId, row: PlanRow)
    requires NoIdleLocks(before) && FullLocks(before) && OwnersOk(db, keys)
    requires plan in before.plans && db.plans == before.plans
    requires HoldsAll(db.locks, plan, before.plans[plan].content)
    requires forall s :: s in before.locks && before.locks[s].owner != plan ==> s in db.locks && db.locks[s] == before.locks[s]
    requires forall s :: s in db.locks ==> db.locks[s].owner == plan || (s in before.locks && before.locks[s] == db.locks[s])
    requires row.content == before.plans[plan].content && InFlight(row.state)
    ensures LockInv(db.(plans := db.plans[plan := row]), keys)
  {
    var after := db.(plans := db.plans[plan := row]);
    forall p | p in after.plans && InFlight(after.plans[p].state)
      ensures HoldsAll(after.locks, p, after.plans[p].content)
    {
      if p != plan {
        assert HoldsAll(before.locks, p, before.plans[p].content);
      }
    }
  }

  /** A plan ends and gives up every lock. */
  lemma RowEnds(db: Db, keys: Keys, plan: PlanId, row: PlanRow, locks: map<LockScope, LockRow>)
    requires LockInv(db, keys) && plan in db.plans && Terminal(row.state)
    requires forall s :: s in locks <==> s in db.locks && db.locks[s].owner != plan
    requires forall s :: s in locks ==> locks[s] == db.locks[s]
    ensures LockInv(db.(plans := db.plans[plan := row], locks := locks), keys)
  {
    var after := db.(plans := db.plans[plan := row], locks := locks);
    forall p | p in after.plans && InFlight(after.plans[p].state)
      ensures HoldsAll(after.locks, p, after.plans[p].content)
    {
      assert p != plan && HoldsAll(db.locks, p, db.plans[p].content);
    }
  }

  // The three operations. Each changes one plan's row.

  /** No other plan's row changes, its content stays, and its state is never
      taken out of a terminal state or back before the start. */
  predicate PlanMoves(before: PlanState, after: PlanState) {
    (Started(before) ==> Started(after)) && (Terminal(before) ==> after == before)
  }

  ghost predicate OnlyMoves(before: Db, after: Db, plan: PlanId) {
    && plan in before.plans && plan in after.plans
    && after.plans == before.plans[plan := after.plans[plan]]
    && after.plans[plan].content == before.plans[plan].content
    && PlanMoves(before.plans[plan].state, after.plans[plan].state)
  }

  /** What a successful opening does, step by step. */
  lemma PrepareShape(db: Db, plan: PlanId, action: Action, checks: Checks, freshRun: RunId, now: int, ttl: nat, after: Db, ticket: Ticket)
    returns (attached: Db, locked: Db)
    requires PrepareSpec(db, plan, action, checks, freshRun, now, ttl) == Ok((after, ticket))
    ensures plan in db.plans && db.plans[plan].state in ActionStates(action)
    ensures ticket.plan == plan && ticket.action == action
    ensures attached == db.(plans := db.plans[plan := db.plans[plan].(run := Some(ticket.run))])
    ensures if action in {Execute, Recover} && StaleLocks(db, plan, now) == {} then
              Locked(attached, plan, action == Recover, now, ttl).Ok? && locked == Locked(attached, plan, action == Recover, now, ttl).value.0
            else locked == attached && action != Execute
    ensures plan in locked.plans && locked.plans == attached.plans
    ensures plan in after.plans && after == locked.(plans := locked.plans[plan := after.plans[plan]])
    ensures after.plans[plan].content == db.plans[plan].content && after.plans[plan].run == Some(ticket.run)
    ensures after.plans[plan].state == if action in {Execute, Resume} then Executing else db.plans[plan].state
  {
    attached := AttachRun(db, plan, freshRun);
    assert attached.plans == db.plans[plan := db.plans[plan].(run := Some(ticket.run))];
    locked := attached;
    if action in {Execute, Recover} && StaleLocks(db, plan, now) == {} {
      locked := Locked(attached, plan, action == Recover, now, ttl).value.0;
    }
    if action !in {Execute, Resume} {
      assert locked.plans[plan := locked.plans[plan]] == locked.plans;
    }
  }

  lemma PrepareKeeps(db: Db, keys: Keys, plan: PlanId, action: Action, checks: Checks, freshRun: RunId, now: int, ttl: nat, after: Db, ticket: Ticket)
    returns (next: Keys)
    requires LockInv(db, keys)
    requires PrepareSpec(db, plan, action, checks, freshRun, now, ttl) == Ok((after, ticket))
    ensures LockInv(after, next) && OnlyMoves(db, after, plan) && db.plans[plan].state in ActionStates(action)
    ensures ticket.plan == plan && ticket.action == action && after.plans[plan].run == Some(ticket.run)
    ensures after.plans[plan].state == if action in {Execute, Resume} then Executing else db.plans[plan].state
  {
    var attached, locked := PrepareShape(db, plan, action, checks, freshRun, now, ttl, after, ticket);
    next := PreparedKeeps(db, keys, attached, locked, after, plan, action, now, ttl);
  }

  lemma PreparedKeeps(db: Db, keys: Keys, attached: Db, locked: Db, after: Db, plan: PlanId, action: Action, now: int, ttl: nat)
    returns (next: Keys)
    requires LockInv(db, keys) && plan in db.plans && db.plans[plan].state in ActionStates(action)
    requires plan in attached.plans && attached == db.(plans := db.plans[plan := attached.plans[plan]])
    requires attached.plans[plan].content == db.plans[plan].content && attached.plans[plan].state == db.plans[plan].state
    requires locked.plans == attached.plans
    requires (locked == attached && action != Execute)
          || (action in {Execute, Recover} && Locked(attached, plan, action == Recover, now, ttl).Ok?
              && locked == Locked(attached, plan, action == Recover, now, ttl).value.0)
    requires plan in after.plans && after == locked.(plans := locked.plans[plan := after.plans[plan]])
    requires after.plans[plan].content == db.plans[plan].content
    requires after.plans[plan].state == if action in {Execute, Resume} then Executing else db.plans[plan].state
    ensures LockInv(after, next) && OnlyMoves(db, after, plan)
  {
    RowMoves(db, keys, plan, attached.plans[plan]);
    next := PrepareLocksKeep(attached, keys, locked, after, plan, action, now, ttl);
    assert after.plans == db.plans[plan := after.plans[plan]];
  }

  lemma PrepareLocksKeep(attached: Db, keys: Keys, locked: Db, after: Db, plan: PlanId, action: Action, now: int, ttl: nat) returns (next: Keys)
    requires LockInv(attached, keys) && plan in attached.plans && attached.plans[plan].state in ActionStates(action)
    requires (locked == attached && action != Execute)
          || (action in {Execute, Recover} && Locked(attached, plan, action == Recover, now, ttl).Ok?
              && locked == Locked(attached, plan, action == Recover, now, ttl).value.0)
    requires plan in locked.plans && plan in after.plans && after == locked.(plans := locked.plans[plan := after.plans[plan]])
    requires after.plans[plan].content == locked.plans[plan].content
    requires after.plans[plan].state == if action in {Execute, Resume} then Executing else locked.plans[plan].state
    ensures LockInv(after, next)
  {
    next := keys;
    if locked == attached && action != Execute {
      RowMoves(attached, keys, plan, after.plans[plan]);
    } else {
      next := LocksTaken(attached, keys, plan, action == Recover, now, ttl);
      RowStarts(attached, locked, next, plan, after.plans[plan]);
    }
  }

  lemma RecoverKeeps(db: Db, keys: Keys, plan: PlanId, result: AdapterResult, now: int, ttl: nat) returns (next: Keys)
    requires LockInv(db, keys) && plan in db.plans
    requires RecoverStaleSpec(db, plan, result, now, ttl).Ok?
    ensures LockInv(RecoverStaleSpec(db, plan, result, now, ttl).value, next)
    ensures RecoverStaleSpec(db, plan, result, now, ttl).value.plans == db.plans
  {
    next := keys;
    var stale := StaleLocks(db, plan, now);
    if stale != {} {
      var dropped := WithoutLocks(db, stale);
      next := LocksTaken(dropped, keys, plan, true, now, ttl);
      var after := RecoverStaleSpec(db, plan, result, now, ttl).value;
      var s :| s in stale;
      assert InFlight(db.plans[plan].state);
      RowStarts(db, after, next, plan, db.plans[plan]);
      assert after.plans[plan := db.plans[plan]] == after.plans;
    }
  }

  /** The release at the end takes exactly the plan's locks. */
  lemma ReleaseTakesOwn(db: Db, keys: Keys, plan: PlanId, now: int)
    requires OwnersOk(db, keys) && ReleaseActiveSpec(db, plan, now).Ok?
    ensures var after := ReleaseActiveSpec(db, plan, now).value;
      && after == db.(locks := after.locks)
      && (forall s :: s in after.locks <==> s in db.locks && db.locks[s].owner != plan)
      && (forall s :: s in after.locks ==> after.locks[s] == db.locks[s])
  {
    var token := TokenOf(db, plan);
    if token.None? {
      forall s | s in db.locks ensures db.locks[s].owner != plan {
        assert s !in ActiveLocks(db, plan);
      }
    } else {
      var first :| first in db.locks && db.locks[first] == LockRow(plan, token.value, db.locks[first].expires);
      forall s | s in db.locks ensures db.locks[s].token == token.value <==> db.locks[s].owner == plan {
        assert LockOk(db.locks[s], keys, db.nextToken) && LockOk(db.locks[first], keys, db.nextToken);
      }
    }
  }

  lemma MovedShape(db: Db, plan: PlanId, target: PlanState)
    requires plan in db.plans && TransitionForResult(db, plan, target).Ok?
    ensures var moved := TransitionForResult(db, plan, target).value;
      && plan in moved.plans && moved == db.(plans := db.plans[plan := moved.plans[plan]])
      && moved.plans[plan].content == db.plans[plan].content && moved.plans[plan].state == target
      && moved.plans[plan].run == db.plans[plan].run
      && !Terminal(db.plans[plan].state)
      && (LegalPlan(db.plans[plan].state, target) || (db.plans[plan].state == Executing && target == Cancelled))
  {
    hide TransitionPlan;
    var moved := TransitionForResult(db, plan, target).value;
    if target == Cancelled && db.plans[plan].state == Executing {
      var paused := TransitionPlan(db, plan, db.plans[plan].revision, Paused).value;
      OneMove(db, plan, db.plans[plan].revision, Paused, paused);
      OneMove(paused, plan, paused.plans[plan].revision, target, moved);
      assert moved.plans == db.plans[plan := moved.plans[plan]];
    } else {
      OneMove(db, plan, db.plans[plan].revision, target, moved);
    }
  }

  lemma OneMove(db: Db, plan: PlanId, revision: nat, target: PlanState, moved: Db)
    requires TransitionPlan(db, plan, revision, target) == Ok(moved)
    ensures plan in db.plans && plan in moved.plans && moved == db.(plans := db.plans[plan := moved.plans[plan]])
    ensures moved.plans[plan].content == db.plans[plan].content && moved.plans[plan].state == target
    ensures moved.plans[plan].run == db.plans[plan].run && LegalPlan(db.plans[plan].state, target)
  {
  }

  lemma SettledKeeps(db: Db, keys: Keys, plan: PlanId, target: Option<PlanState>, now: int)
    requires LockInv(db, keys) && plan in db.plans && Settled(db, plan, target, now).Ok?
    requires Started(db.plans[plan].state) || target in {Some(Cancelled), Some(PlanRecovery)}
    requires target !in {Some(Draft), Some(Ready), Some(Blocked)}
    ensures var after := Settled(db, plan, target, now).value;
      && LockInv(after, keys) && OnlyMoves(db, after, plan)
      && after.plans[plan].state == target.GetOr(db.plans[plan].state)
  {
    var moved := db;
    if target.Some? && target.value != db.plans[plan].state {
      MovedShape(db, plan, target.value);
      moved := TransitionForResult(db, plan, target.value).value;
    } else {
      assert db.plans[plan := db.plans[plan]] == db.plans;
    }
    SettledEnd(db, keys, moved, plan, now);
  }

  lemma SettledEnd(db: Db, keys: Keys, moved: Db, plan: PlanId, now: int)
    requires LockInv(db, keys) && plan in db.plans && plan in moved.plans
    requires moved == db.(plans := db.plans[plan := moved.plans[plan]]) && moved.plans[plan].content == db.plans[plan].content
    requires Terminal(moved.plans[plan].state) || (InFlight(moved.plans[plan].state) <==> InFlight(db.plans[plan].state))
    requires Terminal(moved.plans[plan].state) ==> ReleaseActiveSpec(moved, plan, now).Ok?
    ensures if Terminal(moved.plans[plan].state)
            then LockInv(ReleaseActiveSpec(moved, plan, now).value, keys) && ReleaseActiveSpec(moved, plan, now).value.plans == moved.plans
            else LockInv(moved, keys)
  {
    if Terminal(moved.plans[plan].state) {
      ReleaseTakesOwn(moved, keys, plan, now);
      RowEnds(db, keys, plan, moved.plans[plan], ReleaseActiveSpec(moved, plan, now).value.locks);
    } else {
      RowMoves(db, keys, plan, moved.plans[plan]);
    }
  }

  lemma FinalizeKeeps(db: Db, keys: Keys, ticket: Ticket, result: AdapterResult, sameContent: bool, now: int, ttl: nat, after: Db)
    returns (next: Keys)
    requires LockInv(db, keys) && ticket.plan in db.plans
    requires ticket.action != Cancel ==> Started(db.plans[ticket.plan].state)
    requires FinalizeSpec(db, ticket, result, sameContent, now, ttl) == Ok(after)
    ensures LockInv(after, next) && OnlyMoves(db, after, ticket.plan)
    ensures after.plans[ticket.plan].state == ResultState(ticket.action, result).GetOr(db.plans[ticket.plan].state)
  {
    next := keys;
    var rediscovered := db;
    if ticket.action == Recover {
      next := RecoverKeeps(db, keys, ticket.plan, result, now, ttl);
      rediscovered := RecoverStaleSpec(db, ticket.plan, result, now, ttl).value;
    }
    SettledKeeps(rediscovered, next, ticket.plan, ResultState(ticket.action, result), now);
  }

  lemma FailKeeps(db: Db, keys: Keys, ticket: Ticket, sameContent: bool, after: Db)
    requires LockInv(db, keys) && FailSpec(db, ticket, sameContent) == Ok(after)
    ensures LockInv(after, keys) && OnlyMoves(db, after, ticket.plan)
  {
    hide FailSpec;
    FailShape(db, ticket, sameContent, after);
    RowMoves(db, keys, ticket.plan, after.plans[ticket.plan]);
  }

  lemma FailShape(db: Db, ticket: Ticket, sameContent: bool, after: Db)
    requires FailSpec(db, ticket, sameContent) == Ok(after)
    ensures ticket.plan in db.plans && ticket.plan in after.plans
    ensures after == db.(plans := db.plans[ticket.plan := after.plans[ticket.plan]])
    ensures var from, to := db.plans[ticket.plan], after.plans[ticket.plan];
      to.content == from.content && PlanMoves(from.state, to.state) && (InFlight(to.state) <==> InFlight(from.state))
  {
    hide TransitionPlan;
    var row := db.plans[ticket.plan];
    if row.state in {Executing, Paused} {
      OneMove(db, ticket.plan, row.revision, PlanRecovery, after);
    } else if row.state == Ready {
      OneMove(db, ticket.plan, row.revision, Blocked, after);
    } else {
      assert db.plans[ticket.plan := row] == db.plans;
    }
  }

  // Runs.

  /** The database and every ticket handed out so far. */
  datatype State = State(db: Db, issued: set<Ticket>)

  predicate TicketOk(db: Db, t: Ticket) {
    t.plan in db.plans && (t.action != Cancel ==> Started(db.plans[t.plan].state))
  }

  ghost predicate Inv(s: State, keys: Keys) {
    LockInv(s.db, keys) && forall t :: t in s.issued ==> TicketOk(s.db, t)
  }

  datatype Event =
    | Prepare(plan: PlanId, action: Action, checks: Checks, freshRun: RunId, now: int)
    | Finalize(ticket: Ticket, result: AdapterResult, sameContent: bool, now: int)
    | Fail(ticket: Ticket, sameContent: bool)

  /** One operation. A refused one changes nothing; a ticket that was never
      handed out cannot be presented. */
  ghost function Step(s: State, e: Event, ttl: nat): State {
    match e
    case Prepare(plan, action, checks, freshRun, now) =>
      (match PrepareSpec(s.db, plan, action, checks, freshRun, now, ttl)
       case Err(_) => s
       case Ok(value) => State(value.0, s.issued + {value.1}))
    case Finalize(ticket, result, sameContent, now) =>
      if ticket !in s.issued then s
      else (match FinalizeSpec(s.db, ticket, result, sameContent, now, ttl) case Err(_) => s case Ok(db) => s.(db := db))
    case Fail(ticket, sameContent) =>
      if ticket !in s.issued then s
      else (match FailSpec(s.db, ticket, sameContent) case Err(_) => s case Ok(db) => s.(db := db))
  }

  ghost function Run(s: State, events: seq<Event>, ttl: nat): State
    decreases |events|
  {
    if events == [] then s else Run(Step(s, events[0], ttl), events[1..], ttl)
  }

  ghost predicate TerminalKept(before: Db, after: Db) {
    forall p :: p in before.plans && Terminal(before.plans[p].state) ==>
      p in after.plans && after.plans[p].state == before.plans[p].state
  }

  lemma StepKeeps(s: State, keys: Keys, e: Event, ttl: nat) returns (next: Keys)
    requires Inv(s, keys)
    ensures Inv(Step(s, e, ttl), next) && TerminalKept(s.db, Step(s, e, ttl).db)
  {
    hide PrepareSpec, FinalizeSpec, FailSpec, LockInv;
    next := keys;
    match e
    case Prepare(plan, action, checks, freshRun, now) =>
      if PrepareSpec(s.db, plan, action, checks, freshRun, now, ttl).Ok? {
        var (after, ticket) := PrepareSpec(s.db, plan, action, checks, freshRun, now, ttl).value;
        next := PrepareKeeps(s.db, keys, plan, action, checks, freshRun, now, ttl, after, ticket);
      }
    case Finalize(ticket, result, sameContent, now) =>
      if ticket in s.issued && FinalizeSpec(s.db, ticket, result, sameContent, now, ttl).Ok? {
        assert TicketOk(s.db, ticket);
        next := FinalizeKeeps(s.db, keys, ticket, result, sameContent, now, ttl,
                              FinalizeSpec(s.db, ticket, result, sameContent, now, ttl).value);
      }
    case Fail(ticket, sameContent) =>
      if ticket in s.issued && FailSpec(s.db, ticket, sameContent).Ok? {
        FailKeeps(s.db, keys, ticket, sameContent, FailSpec(s.db, ticket, sameContent).value);
      }
  }

  lemma {:induction false} RunKeeps(s: State, keys: Keys, events: seq<Event>, ttl: nat) returns (last: Keys)
    requires Inv(s, keys)
    ensures Inv(Run(s, events, ttl), last) && TerminalKept(s.db, Run(s, events, ttl).db)
    decreases |events|
  {
    last := keys;
    if events != [] {
      var next := StepKeeps(s, keys, events[0], ttl);
      last := RunKeeps(Step(s, events[0], ttl), next, events[1..], ttl);
    }
  }

  /** Nothing in flight, no lock, no ticket. */
  predicate Quiet(s: State) {
    s.db.locks == map[] && s.issued == {} && forall p :: p in s.db.plans ==> !InFlight(s.db.plans[p].state)
  }

  /** Main result on locks. From a quiet start and after any run: a plan that is
      executing, paused or in recovery owns its full lock set under one token,
      every other plan, terminal ones included, owns none, and a terminal state
      reached along the way was never left. */
  lemma LocksFollowTheLifecycle(s: State, earlier: seq<Event>, later: seq<Event>, ttl: nat, plan: PlanId)
    requires Quiet(s)
    requires plan in Run(Run(s, earlier, ttl), later, ttl).db.plans
    ensures var mid, end := Run(s, earlier, ttl).db, Run(Run(s, earlier, ttl), later, ttl).db;
      var held := ActiveLocks(end, plan);
      && (InFlight(end.plans[plan].state) ==> LockScopes(plan, end.plans[plan].content, false) <= held)
      && (!InFlight(end.plans[plan].state) ==> held == {})
      && (forall x, y :: x in held && y in held ==> end.locks[x].token == end.locks[y].token)
      && (plan in mid.plans && Terminal(mid.plans[plan].state) ==> end.plans[plan].state == mid.plans[plan].state)
  {
    var keys := RunKeeps(s, Keys(map[], map[]), earlier, ttl);
    var last := RunKeeps(Run(s, earlier, ttl), keys, later, ttl);
    var end := Run(Run(s, earlier, ttl), later, ttl).db;
    if InFlight(end.plans[plan].state) {
      assert HoldsAll(end.locks, plan, end.plans[plan].content);
    }
  }

  // What one action can do to the lifecycle.

  /** Opening an action and closing it with an answer the coordinator accepts is
      refused as an illegal transition in exactly one case: a plan that never
      started is cancelled and the adapter answers `recovery_required`. */
  lemma IllegalExactlyWhen(db: Db, plan: PlanId, action: Action, checks: Checks, freshRun: RunId,
                           result: AdapterResult, start: int, end: int, ttl: nat, mid: Db, ticket: Ticket)
    requires PrepareSpec(db, plan, action, checks, freshRun, start, ttl) == Ok((mid, ticket))
    requires AcceptedResult(action, result)
    ensures FinalizeSpec(mid, ticket, result, true, end, ttl) == Err(IllegalTransition)
       <==> action == Cancel && db.plans[plan].state in {Draft, Ready, Blocked} && result.state == Some(PlanRecovery)
  {
    var attached, locked := PrepareShape(db, plan, action, checks, freshRun, start, ttl, mid, ticket);
    FinalizedIllegalExactlyWhen(mid, ticket, result, end, ttl);
    TableAllows(action, db.plans[plan].state, mid.plans[plan].state, result);
  }

  predicate Refused(from: PlanState, target: Option<PlanState>) {
    && target.Some? && target.value != from && !LegalPlan(from, target.value)
    && !(from == Executing && target.value == Cancelled)
  }

  lemma TableAllows(action: Action, opening: PlanState, from: PlanState, result: AdapterResult)
    requires opening in ActionStates(action) && AcceptedResult(action, result)
    requires from == if action in {Execute, Resume} then Executing else opening
    ensures Refused(from, ResultState(action, result))
       <==> action == Cancel && opening in {Draft, Ready, Blocked} && result.state == Some(PlanRecovery)
  {
  }

  lemma FinalizedIllegalExactlyWhen(db: Db, ticket: Ticket, result: AdapterResult, now: int, ttl: nat)
    requires TicketMatches(db, ticket, true) && AcceptedResult(ticket.action, result)
    requires ticket.action == Recover ==> db.plans[ticket.plan].state == PlanRecovery
    ensures FinalizeSpec(db, ticket, result, true, now, ttl) == Err(IllegalTransition)
       <==> Refused(db.plans[ticket.plan].state, ResultState(ticket.action, result))
  {
    var target := ResultState(ticket.action, result);
    if ticket.action == Recover {
      LocksNeverIllegal(db, ticket.plan, result, now, ttl);
      if RecoverStaleSpec(db, ticket.plan, result, now, ttl).Ok? {
        SettledIllegalExactlyWhen(RecoverStaleSpec(db, ticket.plan, result, now, ttl).value, ticket.plan, target, now);
      }
    } else {
      SettledIllegalExactlyWhen(db, ticket.plan, target, now);
    }
  }

  lemma SettledIllegalExactlyWhen(db: Db, plan: PlanId, target: Option<PlanState>, now: int)
    requires plan in db.plans
    ensures Settled(db, plan, target, now) == Err(IllegalTransition) <==> Refused(db.plans[plan].state, target)
  {
  }

  /** A refusal by the lock table is never reported as an illegal transition. */
  lemma LocksNeverIllegal(db: Db, plan: PlanId, result: AdapterResult, now: int, ttl: nat)
    requires plan in db.plans
    ensures RecoverStaleSpec(db, plan, result, now, ttl) != Err(IllegalTransition)
    ensures RecoverStaleSpec(db, plan, result, now, ttl).Ok? ==> RecoverStaleSpec(db, plan, result, now, ttl).value.plans == db.plans
  {
  }

  /** A close that succeeds leaves the plan in the state the adapter named, or in
      the one the action stands for; cancelling an executing plan passes through
      `paused`, every other move is a single step of the table. */
  lemma ClosedState(db: Db, keys: Keys, ticket: Ticket, result: AdapterResult, sameContent: bool, now: int, ttl: nat, after: Db)
    requires LockInv(db, keys) && ticket.plan in db.plans && (ticket.action != Cancel ==> Started(db.plans[ticket.plan].state))
    requires FinalizeSpec(db, ticket, result, sameContent, now, ttl) == Ok(after)
    ensures ticket.plan in after.plans
    ensures var from, to := db.plans[ticket.plan].state, after.plans[ticket.plan].state;
      && to == ResultState(ticket.action, result).GetOr(from)
      && (from == to || LegalPlan(from, to)
          || (from == Executing && to == Cancelled && LegalPlan(from, Paused) && LegalPlan(Paused, to)))
  {
    hide FinalizeSpec, Settled, LockInv;
    var next := FinalizeKeeps(db, keys, ticket, result, sameContent, now, ttl, after);
    NeverRefused(db, ticket, result, sameContent, now, ttl);
  }

  lemma NeverRefused(db: Db, ticket: Ticket, result: AdapterResult, sameContent: bool, now: int, ttl: nat)
    requires FinalizeSpec(db, ticket, result, sameContent, now, ttl).Ok?
    ensures !Refused(db.plans[ticket.plan].state, ResultState(ticket.action, result))
  {
    if ticket.action == Recover {
      LocksNeverIllegal(db, ticket.plan, result, now, ttl);
    }
  }

  /** Closing a finished execution needs every one of its locks unexpired: with
      the locks it opened with, `succeeded` is accepted exactly when none of them
      has expired. Nothing in the execution renews a lock. */
  lemma SuccessNeedsFreshLocks(db: Db, keys: Keys, ticket: Ticket, now: int, ttl: nat)
    requires LockInv(db, keys) && TicketMatches(db, ticket, true)
    requires db.plans[ticket.plan].state == Executing && ticket.action == Execute
    ensures FinalizeSpec(db, ticket, AdapterResult(Some(Succeeded), {}), true, now, ttl).Ok?
       <==> StaleLocks(db, ticket.plan, now) == {}
  {
    var moved := TransitionForResult(db, ticket.plan, Succeeded).value;
    ReleaseAcceptedExactlyWhen(moved, keys, ticket.plan, now);
  }

  lemma ReleaseAcceptedExactlyWhen(db: Db, keys: Keys, plan: PlanId, now: int)
    requires OwnersOk(db, keys)
    ensures ReleaseActiveSpec(db, plan, now).Ok? <==> StaleLocks(db, plan, now) == {}
  {
    var token := TokenOf(db, plan);
    if token.None? {
      forall s | s in db.locks ensures db.locks[s].owner != plan {
        assert s !in ActiveLocks(db, plan);
      }
    } else {
      var first :| first in db.locks && db.locks[first] == LockRow(plan, token.value, db.locks[first].expires);
      forall s | s in db.locks ensures db.locks[s].token == token.value <==> db.locks[s].owner == plan {
        assert LockOk(db.locks[s], keys, db.nextToken) && LockOk(db.locks[first], keys, db.nextToken);
      }
      if StaleLocks(db, plan, now) == {} {
        forall s | s in db.locks && db.locks[s].token == token.value ensures !Expired(db.locks[s], now) {
          assert s !in StaleLocks(db, plan, now);
        }
      }
    }
  }
}
