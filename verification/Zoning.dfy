/** The zoning worker: it walks a cluster's workloads, reconciles each to its
    zone, and walks back when one refuses. */
module Zoning {
  import opened Wrappers

  type AssignmentId = nat
  type ClusterId = nat
  type NodeId = nat
  type Zone = string
  type Zones = map<AssignmentId, Zone>

  /** How a call ends, and whether the workload took the zone. */
  datatype Answer = Reported(ok: bool, took: bool) | Raises(took: bool)

  /** The reconcile answers of the walk and of the walk back, by index, and the
      answer to the settings change. */
  datatype Env = Env(apply: nat -> Answer, undo: nat -> Answer, settings: Answer)

  datatype End = Completed | Refused | Threw

  function ZoneOf(zones: Zones, id: AssignmentId): Zone {
    if id in zones then zones[id] else ""
  }

  function WithZone(zones: Zones, id: AssignmentId, zone: Zone): Zones { zones[id := zone] }

  function After(actual: Zones, id: AssignmentId, zone: Zone, a: Answer): Zones {
    if a.took then actual[id := zone] else actual
  }

  datatype Walk = Walk(actual: Zones, done: seq<AssignmentId>, end: End)

  /** The walk: workloads whose recorded zone is already the desired one are
      skipped. */
  function Walked(actual: Zones, done: seq<AssignmentId>, todo: seq<AssignmentId>, index: nat, previous: Zones, desired: Zones, env: Env): Walk
    decreases |todo|
  {
    if todo == [] then Walk(actual, done, Completed)
    else if ZoneOf(previous, todo[0]) == ZoneOf(desired, todo[0]) then
      Walked(actual, done, todo[1..], index + 1, previous, desired, env)
    else
      var a := env.apply(index);
      var after := After(actual, todo[0], ZoneOf(desired, todo[0]), a);
      if a.Raises? then Walk(after, done, Threw)
      else if !a.ok then Walk(after, done, Refused)
      else Walked(after, done + [todo[0]], todo[1..], index + 1, previous, desired, env)
  }

  /** The walk back over what is done, last first; a refusal is noted and the
      walk goes on. */
  function WalkedBack(actual: Zones, done: seq<AssignmentId>, index: nat, previous: Zones, env: Env): Walk
    decreases |done|
  {
    if done == [] then Walk(actual, [], Completed)
    else
      var id := done[|done| - 1];
      var a := env.undo(index);
      var after := After(actual, id, ZoneOf(previous, id), a);
      if a.Raises? then Walk(after, [], Threw)
      else
        var rest := WalkedBack(after, done[..|done| - 1], index + 1, previous, env);
        if rest.end == Completed && !a.ok then rest.(end := Refused) else rest
  }

  /** A cluster's zoning: where its workloads are, and what was last recorded. */
  datatype ZoneState = ZoneState(actual: Zones, observed: Option<Zones>)

  datatype RunResult = Succeeded | RolledBack | PartlyRolledBack | Broken

  function Recorded(s: ZoneState): Zones { s.observed.GetOr(map[]) }

  function Failed(s: ZoneState, back: Walk): (ZoneState, RunResult) {
    (s.(actual := back.actual),
     match back.end case Completed => RolledBack case Refused => PartlyRolledBack case Threw => Broken)
  }

  function ApplySpec(s: ZoneState, ids: seq<AssignmentId>, desired: Zones, env: Env): (ZoneState, RunResult) {
    var previous := Recorded(s);
    var walk := Walked(s.actual, [], ids, 0, previous, desired, env);
    match walk.end
    case Threw => (s.(actual := walk.actual), Broken)
    case Refused => Failed(s, WalkedBack(walk.actual, walk.done, 0, previous, env))
    case Completed =>
      if env.settings.Raises? then (s.(actual := walk.actual), Broken)
      else if !env.settings.ok then Failed(s, WalkedBack(walk.actual, walk.done, 0, previous, env))
      else (ZoneState(walk.actual, Some(desired)), Succeeded)
  }

  class ZoningWorker {
    var actual: Zones
    var observed: Option<Zones>

    constructor (actual: Zones, observed: Option<Zones>)
      ensures State() == ZoneState(actual, observed)
    {
      this.actual, this.observed := actual, observed;
    }

    function State(): ZoneState
      reads this
    {
      ZoneState(actual, observed)
    }

    method Reconcile(id: AssignmentId, zone: Zone, answer: Answer)
      modifies this`actual
      ensures actual == After(old(actual), id, zone, answer)
    {
      if answer.took { actual := actual[id := zone]; }
    }

    /** Walks back over the completed workloads in reverse. */
    method RollbackWith(completed: seq<AssignmentId>, previous: Zones, env: Env) returns (end: End)
      modifies this`actual
      ensures actual == WalkedBack(old(actual), completed, 0, previous, env).actual
      ensures end == WalkedBack(old(actual), completed, 0, previous, env).end
    {
      ghost var whole := WalkedBack(actual, completed, 0, previous, env);
      var i, succeeded := 0, true;
      assert completed[..|completed|] == completed;
      while i < |completed|
        invariant 0 <= i <= |completed|
        invariant var rest := WalkedBack(actual, completed[..|completed| - i], i, previous, env);
          && whole.actual == rest.actual
          && whole.end == if rest.end == Completed && !succeeded then Refused else rest.end
      {
        var id := completed[|completed| - 1 - i];
        var answer := env.undo(i);
        assert completed[..|completed| - i][..|completed| - i - 1] == completed[..|completed| - (i + 1)];
        Reconcile(id, ZoneOf(previous, id), answer);
        if answer.Raises? { return Threw; }
        if !answer.ok { succeeded := false; }
        i := i + 1;
      }
      return if succeeded then Completed else Refused;
    }

    method RunApply(ids: seq<AssignmentId>, desired: Zones, env: Env) returns (r: RunResult)
      modifies this
      ensures (State(), r) == ApplySpec(old(State()), ids, desired, env)
    {
      var previous := observed.GetOr(map[]);
      var completed: seq<AssignmentId> := [];
      ghost var whole := Walked(actual, [], ids, 0, previous, desired, env);
      for index := 0 to |ids|
        invariant whole == Walked(actual, completed, ids[index..], index, previous, desired, env)
        invariant observed == old(observed)
      {
        var id := ids[index];
        assert ids[index..][1..] == ids[index + 1..];
        if ZoneOf(previous, id) != ZoneOf(desired, id) {
          var answer := env.apply(index);
          Reconcile(id, ZoneOf(desired, id), answer);
          if answer.Raises? { return Broken; }
          if !answer.ok {
            r := Rollback(completed, previous, env);
            return;
          }
          completed := completed + [id];
        }
      }
      if env.settings.Raises? { return Broken; }
      if !env.settings.ok {
        r := Rollback(completed, previous, env);
        return;
      }
      observed := Some(desired);
      return Succeeded;
    }

    method Rollback(completed: seq<AssignmentId>, previous: Zones, env: Env) returns (r: RunResult)
      modifies this`actual
      ensures (State(), r) == Failed(old(State()), WalkedBack(old(actual), completed, 0, previous, env))
    {
      var end := RollbackWith(completed, previous, env);
      r := match end case Completed => RolledBack case Refused => PartlyRolledBack case Threw => Broken;
    }
  }

  // All or previous.

  /** A report is true to what happened: accepted means taken, refused means not. */
  ghost predicate Honest(env: Env) {
    && (forall i: nat :: env.apply(i).Reported? ==> env.apply(i).took == env.apply(i).ok)
    && (forall i: nat :: env.undo(i).Reported? ==> env.undo(i).took == env.undo(i).ok)
  }

  ghost predicate Agree(s: ZoneState, ids: seq<AssignmentId>) {
    forall id :: id in ids ==> ZoneOf(s.actual, id) == ZoneOf(Recorded(s), id)
  }

  /** The zones that the finished part of a walk has set. */
  ghost predicate Set(before: Zones, after: Zones, done: seq<AssignmentId>, zones: Zones) {
    forall id :: ZoneOf(after, id) == if id in done then ZoneOf(zones, id) else ZoneOf(before, id)
  }

  lemma {:induction false} WalkSets(before: Zones, actual: Zones, done: seq<AssignmentId>, todo: seq<AssignmentId>, index: nat,
                                    previous: Zones, desired: Zones, env: Env)
    requires Honest(env) && Set(before, actual, done, desired)
    ensures var walk := Walked(actual, done, todo, index, previous, desired, env);
      && (walk.end != Threw ==> Set(before, walk.actual, walk.done, desired))
      && (forall id :: id in walk.done ==> id in done || id in todo)
      && (forall id :: id in done ==> id in walk.done)
      && (walk.end == Completed ==> forall id :: id in todo ==> id in walk.done || ZoneOf(previous, id) == ZoneOf(desired, id))
    decreases |todo|
  {
    if todo != [] {
      if ZoneOf(previous, todo[0]) == ZoneOf(desired, todo[0]) {
        WalkSets(before, actual, done, todo[1..], index + 1, previous, desired, env);
      } else if env.apply(index).Reported? && env.apply(index).ok {
        WalkSets(before, actual[todo[0] := ZoneOf(desired, todo[0])], done + [todo[0]], todo[1..], index + 1, previous, desired, env);
      }
    }
  }

  /** A walk back that completes has put every finished workload back. */
  lemma {:induction false} WalkBackSets(actual: Zones, done: seq<AssignmentId>, index: nat, previous: Zones, env: Env)
    requires Honest(env)
    ensures var back := WalkedBack(actual, done, index, previous, env);
      back.end == Completed ==> Set(actual, back.actual, done, previous)
    decreases |done|
  {
    if done != [] && WalkedBack(actual, done, index, previous, env).end == Completed {
      var id := done[|done| - 1];
      WalkBackSets(actual[id := ZoneOf(previous, id)], done[..|done| - 1], index + 1, previous, env);
      assert done == done[..|done| - 1] + [id];
    }
  }

  /** Main zoning result. If records agree with reality and reports are honest:
      success makes actual and recorded zones the desired ones for every
      workload, skipped ones included; a refused run whose walk back completes
      leaves both as they were. Either way they agree again. */
  lemma AllOrPrevious(s: ZoneState, ids: seq<AssignmentId>, desired: Zones, env: Env)
    requires Honest(env) && Agree(s, ids)
    ensures var (after, r) := ApplySpec(s, ids, desired, env);
      && (r == Succeeded ==> after.observed == Some(desired))
      && (r == Succeeded ==> forall id :: id in ids ==> ZoneOf(after.actual, id) == ZoneOf(desired, id) == ZoneOf(Recorded(after), id))
      && (r != Succeeded ==> after.observed == s.observed)
      && (r == RolledBack ==> forall id :: id in ids ==> ZoneOf(after.actual, id) == ZoneOf(s.actual, id))
      && (r in {Succeeded, RolledBack} ==> Agree(after, ids))
      && (forall id :: id !in ids && r in {Succeeded, RolledBack} ==> ZoneOf(after.actual, id) == ZoneOf(s.actual, id))
  {
    hide Walked, WalkedBack, Honest;
    var previous := Recorded(s);
    var walk := Walked(s.actual, [], ids, 0, previous, desired, env);
    WalkSets(s.actual, s.actual, [], ids, 0, previous, desired, env);
    WalkBackSets(walk.actual, walk.done, 0, previous, env);
  }

  // Sequences of applies.

  datatype Request = Request(desired: Zones, env: Env)

  function Applied(s: ZoneState, ids: seq<AssignmentId>, requests: seq<Request>): ZoneState
    decreases |requests|
  {
    if requests == [] then s else Applied(ApplySpec(s, ids, requests[0].desired, requests[0].env).0, ids, requests[1..])
  }

  /** No run of the sequence is cut short by an exception or an incomplete walk back. */
  ghost predicate Clean(s: ZoneState, ids: seq<AssignmentId>, requests: seq<Request>)
    decreases |requests|
  {
    requests == [] ||
    (var (after, r) := ApplySpec(s, ids, requests[0].desired, requests[0].env);
     Honest(requests[0].env) && r in {Succeeded, RolledBack} && Clean(after, ids, requests[1..]))
  }

  lemma {:induction false} AgreementSurvives(s: ZoneState, ids: seq<AssignmentId>, requests: seq<Request>)
    requires Agree(s, ids) && Clean(s, ids, requests)
    ensures Agree(Applied(s, ids, requests), ids)
    decreases |requests|
  {
    if requests != [] {
      AllOrPrevious(s, ids, requests[0].desired, requests[0].env);
      AgreementSurvives(ApplySpec(s, ids, requests[0].desired, requests[0].env).0, ids, requests[1..]);
    }
  }

  // Where a run stops, what it has moved by then and what it puts back, read off
  // the answers alone.

  predicate Accepted(a: Answer) {
    a.Reported? && a.ok
  }

  predicate Skips(previous: Zones, desired: Zones, id: AssignmentId) {
    ZoneOf(previous, id) == ZoneOf(desired, id)
  }

  /** The first workload, from `index` on, that is neither skipped nor accepted. */
  function StopsAt(ids: seq<AssignmentId>, index: nat, previous: Zones, desired: Zones, env: Env): (i: nat)
    requires index <= |ids|
    ensures index <= i <= |ids|
    ensures forall k :: index <= k < i ==> Skips(previous, desired, ids[k]) || Accepted(env.apply(k))
    ensures i < |ids| ==> !Skips(previous, desired, ids[i]) && !Accepted(env.apply(i))
    decreases |ids| - index
  {
    if index < |ids| && (Skips(previous, desired, ids[index]) || Accepted(env.apply(index)))
    then StopsAt(ids, index + 1, previous, desired, env) else index
  }

  function Unskipped(ids: seq<AssignmentId>, from: nat, to: nat, previous: Zones, desired: Zones): seq<AssignmentId>
    requires from <= to <= |ids|
    decreases |ids| - from
  {
    if from == to then []
    else (if Skips(previous, desired, ids[from]) then [] else [ids[from]]) + Unskipped(ids, from + 1, to, previous, desired)
  }

  /** The workloads whose call took effect, up to the one that stopped the walk. */
  function Taken(ids: seq<AssignmentId>, previous: Zones, desired: Zones, env: Env): set<AssignmentId> {
    var i := StopsAt(ids, 0, previous, desired, env);
    set k | 0 <= k < |ids| && k <= i && !Skips(previous, desired, ids[k]) && env.apply(k).took :: ids[k]
  }

  /** The walk back makes call `index` first and goes on until one raises. */
  predicate Undone(index: nat, env: Env, call: nat) {
    env.undo(call).took && forall c :: index <= c < call ==> !env.undo(c).Raises?
  }

  /** Its calls go over `done`, last first. */
  function PutBack(done: seq<AssignmentId>, index: nat, env: Env): set<AssignmentId> {
    set c | index <= c < index + |done| && Undone(index, env, c) :: done[index + |done| - 1 - c]
  }

  /** The workloads put back: a walk back starts on a refusal, not on an exception. */
  function Returned(ids: seq<AssignmentId>, previous: Zones, desired: Zones, env: Env): set<AssignmentId> {
    var i := StopsAt(ids, 0, previous, desired, env);
    var stopper := if i < |ids| then env.apply(i) else env.settings;
    if stopper.Raises? then {} else PutBack(Unskipped(ids, 0, i, previous, desired), 0, env)
  }

  lemma {:induction false} UnskippedMembers(ids: seq<AssignmentId>, from: nat, to: nat, previous: Zones, desired: Zones)
    requires from <= to <= |ids|
    ensures forall id :: id in Unskipped(ids, from, to, previous, desired) <==>
                         exists k :: from <= k < to && ids[k] == id && !Skips(previous, desired, id)
    decreases |ids| - from
  {
    if from < to {
      UnskippedMembers(ids, from + 1, to, previous, desired);
    }
  }

  lemma SetMore(before: Zones, actual: Zones, done: seq<AssignmentId>, id: AssignmentId, zones: Zones)
    requires Set(before, actual, done, zones)
    ensures Set(before, actual[id := ZoneOf(zones, id)], done + [id], zones)
  {
  }

  /** The walk at workload `index`. */
  lemma WalkAt(actual: Zones, done: seq<AssignmentId>, ids: seq<AssignmentId>, index: nat, previous: Zones, desired: Zones, env: Env)
    requires index < |ids|
    ensures var after := After(actual, ids[index], ZoneOf(desired, ids[index]), env.apply(index));
      Walked(actual, done, ids[index..], index, previous, desired, env)
      == if Skips(previous, desired, ids[index]) then Walked(actual, done, ids[index + 1..], index + 1, previous, desired, env)
         else if Accepted(env.apply(index)) then
           Walked(after, done + [ids[index]], ids[index + 1..], index + 1, previous, desired, env)
         else Walk(after, done, if env.apply(index).Raises? then Threw else Refused)
  {
    assert ids[index..][1..] == ids[index + 1..];
  }

  /** The walk ends where it stops. */
  lemma {:induction false} WalkEnds(actual: Zones, done: seq<AssignmentId>, ids: seq<AssignmentId>, index: nat,
                                    previous: Zones, desired: Zones, env: Env)
    requires index <= |ids|
    ensures var i := StopsAt(ids, index, previous, desired, env);
      Walked(actual, done, ids[index..], index, previous, desired, env).end
      == if i == |ids| then Completed else if env.apply(i).Raises? then Threw else Refused
    decreases |ids| - index
  {
    if index < |ids| {
      hide Walked, After;
      WalkAt(actual, done, ids, index, previous, desired, env);
      if Skips(previous, desired, ids[index]) {
        WalkEnds(actual, done, ids, index + 1, previous, desired, env);
      } else if Accepted(env.apply(index)) {
        WalkEnds(After(actual, ids[index], ZoneOf(desired, ids[index]), env.apply(index)), done + [ids[index]],
                 ids, index + 1, previous, desired, env);
      }
    }
  }

  lemma UnskippedAt(ids: seq<AssignmentId>, from: nat, to: nat, previous: Zones, desired: Zones, done: seq<AssignmentId>)
    requires from < to <= |ids|
    ensures done + Unskipped(ids, from, to, previous, desired)
         == (if Skips(previous, desired, ids[from]) then done else done + [ids[from]]) + Unskipped(ids, from + 1, to, previous, desired)
  {
    var rest := Unskipped(ids, from + 1, to, previous, desired);
    assert [] + rest == rest && done + ([ids[from]] + rest) == done + [ids[from]] + rest;
  }

  /** Everything unskipped before that is done, in order. */
  lemma {:induction false} WalkDoes(actual: Zones, done: seq<AssignmentId>, ids: seq<AssignmentId>, index: nat,
                                    previous: Zones, desired: Zones, env: Env)
    requires index <= |ids|
    ensures Walked(actual, done, ids[index..], index, previous, desired, env).done
         == done + Unskipped(ids, index, StopsAt(ids, index, previous, desired, env), previous, desired)
    decreases |ids| - index
  {
    if index < |ids| {
      hide Walked, After, Unskipped;
      var i := StopsAt(ids, index, previous, desired, env);
      WalkAt(actual, done, ids, index, previous, desired, env);
      if i > index {
        UnskippedAt(ids, index, i, previous, desired, done);
        if Skips(previous, desired, ids[index]) {
          WalkDoes(actual, done, ids, index + 1, previous, desired, env);
        } else {
          WalkDoes(After(actual, ids[index], ZoneOf(desired, ids[index]), env.apply(index)), done + [ids[index]],
                   ids, index + 1, previous, desired, env);
        }
      } else {
        NothingUnskipped(ids, index, previous, desired, done);
      }
    }
  }

  lemma NothingUnskipped(ids: seq<AssignmentId>, from: nat, previous: Zones, desired: Zones, done: seq<AssignmentId>)
    requires from <= |ids|
    ensures done + Unskipped(ids, from, from, previous, desired) == done
  {
  }

  /** What the walk has set: everything done, and the stopping call if it took. */
  lemma {:induction false} WalkLeaves(before: Zones, actual: Zones, done: seq<AssignmentId>, ids: seq<AssignmentId>, index: nat,
                                      previous: Zones, desired: Zones, env: Env)
    requires Honest(env) && index <= |ids| && Set(before, actual, done, desired)
    ensures var walk, i := Walked(actual, done, ids[index..], index, previous, desired, env), StopsAt(ids, index, previous, desired, env);
      Set(before, walk.actual, if i < |ids| && env.apply(i).took then walk.done + [ids[i]] else walk.done, desired)
    decreases |ids| - index
  {
    if index < |ids| {
      hide Set, Walked;
      WalkAt(actual, done, ids, index, previous, desired, env);
      SetMore(before, actual, done, ids[index], desired);
      if Skips(previous, desired, ids[index]) {
        WalkLeaves(before, actual, done, ids, index + 1, previous, desired, env);
      } else if Accepted(env.apply(index)) {
        WalkLeaves(before, actual[ids[index] := ZoneOf(desired, ids[index])], done + [ids[index]], ids, index + 1, previous, desired, env);
      }
    }
  }

  lemma PutBackFirst(done: seq<AssignmentId>, index: nat, env: Env, id: AssignmentId)
    requires done != []
    ensures var rest := !env.undo(index).Raises? && id in PutBack(done[..|done| - 1], index + 1, env);
      id in PutBack(done, index, env) <==> (id == done[|done| - 1] && env.undo(index).took) || rest
  {
    var rest := done[..|done| - 1];
    if id in PutBack(done, index, env) {
      var c :| index <= c < index + |done| && Undone(index, env, c) && done[index + |done| - 1 - c] == id;
      if c > index {
        assert Undone(index + 1, env, c) && rest[index + 1 + |rest| - 1 - c] == id;
      }
    }
    if id == done[|done| - 1] && env.undo(index).took {
      assert Undone(index, env, index);
    }
    if !env.undo(index).Raises? && id in PutBack(rest, index + 1, env) {
      var c :| index + 1 <= c < index + 1 + |rest| && Undone(index + 1, env, c) && rest[index + 1 + |rest| - 1 - c] == id;
      assert Undone(index, env, c) && done[index + |done| - 1 - c] == id;
    }
  }

  lemma {:induction false} BackPuts(actual: Zones, done: seq<AssignmentId>, index: nat, previous: Zones, env: Env, id: AssignmentId)
    ensures var back := WalkedBack(actual, done, index, previous, env);
      ZoneOf(back.actual, id) == if id in PutBack(done, index, env) then ZoneOf(previous, id) else ZoneOf(actual, id)
    decreases |done|
  {
    if done != [] {
      var last := done[|done| - 1];
      PutBackFirst(done, index, env, id);
      BackPuts(After(actual, last, ZoneOf(previous, last), env.undo(index)), done[..|done| - 1], index + 1, previous, env, id);
    }
  }

  lemma WholeWalk(before: Zones, ids: seq<AssignmentId>, previous: Zones, desired: Zones, env: Env)
    requires Honest(env)
    ensures var walk, i := Walked(before, [], ids, 0, previous, desired, env), StopsAt(ids, 0, previous, desired, env);
      && walk.done == Unskipped(ids, 0, i, previous, desired)
      && walk.end == (if i == |ids| then Completed else if env.apply(i).Raises? then Threw else Refused)
      && (forall id :: ZoneOf(walk.actual, id) == if id in Taken(ids, previous, desired, env) then ZoneOf(desired, id) else ZoneOf(before, id))
  {
    hide Walked, Honest, StopsAt, Unskipped, Taken;
    assert ids[0..] == ids;
    WalkEnds(before, [], ids, 0, previous, desired, env);
    WalkDoes(before, [], ids, 0, previous, desired, env);
    WalkLeaves(before, before, [], ids, 0, previous, desired, env);
    forall id ensures id in Taken(ids, previous, desired, env) <==>
      var i := StopsAt(ids, 0, previous, desired, env);
      id in Unskipped(ids, 0, i, previous, desired) || (i < |ids| && id == ids[i] && env.apply(i).took)
    {
      TakenMembers(ids, previous, desired, env, id);
    }
  }

  /** Where every workload is after a run that does not succeed. */
  lemma FailedRunLeaves(s: ZoneState, ids: seq<AssignmentId>, desired: Zones, env: Env, id: AssignmentId)
    requires Honest(env) && ApplySpec(s, ids, desired, env).1 != Succeeded
    ensures ZoneOf(ApplySpec(s, ids, desired, env).0.actual, id)
         == if id in Returned(ids, Recorded(s), desired, env) then ZoneOf(Recorded(s), id)
            else if id in Taken(ids, Recorded(s), desired, env) then ZoneOf(desired, id)
            else ZoneOf(s.actual, id)
  {
    hide Walked, WalkedBack, PutBack, Taken, Honest, StopsAt, Unskipped;
    var walk := Walked(s.actual, [], ids, 0, Recorded(s), desired, env);
    WholeWalk(s.actual, ids, Recorded(s), desired, env);
    BackPuts(walk.actual, walk.done, 0, Recorded(s), env, id);
  }

  lemma TakenMembers(ids: seq<AssignmentId>, previous: Zones, desired: Zones, env: Env, id: AssignmentId)
    requires Honest(env)
    ensures var i := StopsAt(ids, 0, previous, desired, env);
      id in Taken(ids, previous, desired, env)
      <==> id in Unskipped(ids, 0, i, previous, desired) || (i < |ids| && id == ids[i] && env.apply(i).took)
  {
    hide StopsAt, Unskipped;
    var i := StopsAt(ids, 0, previous, desired, env);
    UnskippedMembers(ids, 0, i, previous, desired);
    assert id in Taken(ids, previous, desired, env) <==>
           exists k :: 0 <= k < |ids| && k <= i && !Skips(previous, desired, ids[k]) && env.apply(k).took && ids[k] == id;
    if k :| 0 <= k < i && ids[k] == id && !Skips(previous, desired, id) {
      assert Accepted(env.apply(k));
    }
  }

  /** The exact condition on a whole run, however it ends: records and reality
      agree afterwards if and only if it succeeded or every workload whose call
      took effect was put back. */
  lemma AgreesExactlyWhen(s: ZoneState, ids: seq<AssignmentId>, desired: Zones, env: Env)
    requires Honest(env) && Agree(s, ids)
    ensures var (after, r) := ApplySpec(s, ids, desired, env);
      Agree(after, ids) <==> r == Succeeded || Taken(ids, Recorded(s), desired, env) <= Returned(ids, Recorded(s), desired, env)
  {
    var (after, r) := ApplySpec(s, ids, desired, env);
    if r == Succeeded {
      AllOrPrevious(s, ids, desired, env);
    } else {
      var taken, returned := Taken(ids, Recorded(s), desired, env), Returned(ids, Recorded(s), desired, env);
      forall id | id in ids
        ensures ZoneOf(after.actual, id) == ZoneOf(Recorded(s), id) <==> id !in taken || id in returned
      {
        FailedRunLeaves(s, ids, desired, env, id);
      }
      assert forall id :: id in taken ==> id in ids;
    }
  }

  /** Exceptions are not walked back. Workload `i` is the first one neither skipped
      nor accepted. If its call raises, records and reality agree afterwards if
      and only if every workload before it was skipped and the raising call took
      no effect; if the settings call raises, if and only if all were skipped. */
  lemma RaiseKeepsAgreementExactlyWhen(s: ZoneState, ids: seq<AssignmentId>, desired: Zones, env: Env, i: nat)
    requires Honest(env) && Agree(s, ids) && i == StopsAt(ids, 0, Recorded(s), desired, env)
    requires if i < |ids| then env.apply(i).Raises? else env.settings.Raises?
    ensures ApplySpec(s, ids, desired, env).1 == Broken
    ensures Agree(ApplySpec(s, ids, desired, env).0, ids)
       <==> (forall k :: 0 <= k < i ==> Skips(Recorded(s), desired, ids[k])) && (i < |ids| ==> !env.apply(i).took)
  {
    hide Walked, WalkedBack, PutBack, Taken, Honest, Agree, StopsAt, Unskipped;
    AgreesExactlyWhen(s, ids, desired, env);
    RaiseTakes(ids, Recorded(s), desired, env, i);
    assert ids[0..] == ids;
    WalkEnds(s.actual, [], ids, 0, Recorded(s), desired, env);
  }

  lemma RaiseTakes(ids: seq<AssignmentId>, previous: Zones, desired: Zones, env: Env, i: nat)
    requires Honest(env) && i == StopsAt(ids, 0, previous, desired, env)
    requires if i < |ids| then env.apply(i).Raises? else env.settings.Raises?
    ensures Taken(ids, previous, desired, env) <= Returned(ids, previous, desired, env)
       <==> (forall k :: 0 <= k < i ==> Skips(previous, desired, ids[k])) && (i < |ids| ==> !env.apply(i).took)
  {
    hide PutBack, StopsAt;
    var taken := Taken(ids, previous, desired, env);
    forall k | 0 <= k < i ensures Skips(previous, desired, ids[k]) || ids[k] in taken {
      assert Skips(previous, desired, ids[k]) || Accepted(env.apply(k));
    }
    if i < |ids| && env.apply(i).took {
      assert ids[i] in taken;
    }
  }

  /** What that leads to: after such a run a request for the zones on record
      skips the workload that moved, and reports success over it. */
  lemma SkippedAfterRaise(a: Zone, b: Zone)
    requires a != b
    ensures
      var s := ZoneState(map[1 := a, 2 := a], Some(map[1 := a, 2 := a]));
      var broken := Env(i => if i == 0 then Reported(true, true) else Raises(false), i => Reported(true, true), Reported(true, true));
      var healthy := Env(i => Reported(true, true), i => Reported(true, true), Reported(true, true));
      var (mid, first) := ApplySpec(s, [1, 2], map[1 := b, 2 := b], broken);
      var (end, second) := ApplySpec(mid, [1, 2], map[1 := a, 2 := a], healthy);
      first == Broken && second == Succeeded && end.observed == Some(map[1 := a, 2 := a]) && end.actual[1] == b
  {
    var s := ZoneState(map[1 := a, 2 := a], Some(map[1 := a, 2 := a]));
    var broken := Env(i => if i == 0 then Reported(true, true) else Raises(false), i => Reported(true, true), Reported(true, true));
    var healthy := Env(i => Reported(true, true), i => Reported(true, true), Reported(true, true));
    var previous, desired := map[1 := a, 2 := a], map[1 := b, 2 := b];
    var moved := s.actual[1 := b];
    assert [1, 2][1..] == [2] && [2][1..] == [];
    assert Walked(s.actual, [], [1, 2], 0, previous, desired, broken) == Walked(moved, [] + [1], [2], 1, previous, desired, broken);
    assert Walked(moved, [], [1, 2], 0, previous, previous, healthy) == Walked(moved, [], [2], 1, previous, previous, healthy);
  }

  // A host changes its zone: every workload on it, in any cluster, follows.

  datatype Placed = Placed(id: AssignmentId, cluster: ClusterId)

  /** The walk of a host zone change: nothing is skipped. */
  function HostWalked(actual: Zones, done: seq<AssignmentId>, todo: seq<Placed>, index: nat, zone: Zone, env: Env): Walk
    decreases |todo|
  {
    if todo == [] then Walk(actual, done, Completed)
    else
      var a := env.apply(index);
      var after := After(actual, todo[0].id, zone, a);
      if a.Raises? then Walk(after, done, Threw)
      else if !a.ok then Walk(after, done, Refused)
      else HostWalked(after, done + [todo[0].id], todo[1..], index + 1, zone, env)
  }

  function Everywhere(ids: seq<AssignmentId>, zone: Zone): Zones {
    map id | id in ids :: zone
  }

  /** The records of the clusters that have one, with the new zone on the
      workloads that followed. */
  function Noted(observed: map<ClusterId, Zones>, placed: seq<Placed>, zone: Zone): map<ClusterId, Zones> {
    if placed == [] then observed
    else
      var rest := Noted(observed, placed[..|placed| - 1], zone);
      var p := placed[|placed| - 1];
      if p.cluster in rest then rest[p.cluster := WithZone(rest[p.cluster], p.id, zone)] else rest
  }

  datatype HostState = HostState(zone: Option<Zone>, actual: Zones, observed: map<ClusterId, Zones>)

  /** The host's row already holds the new zone when the run starts. */
  function HostChangeSpec(s: HostState, previous: Option<Zone>, zone: Zone, placed: seq<Placed>, env: Env): (HostState, RunResult) {
    var walk := HostWalked(s.actual, [], placed, 0, zone, env);
    match walk.end
    case Threw => (s.(zone := previous, actual := walk.actual), Broken)
    case Refused =>
      var back := WalkedBack(walk.actual, walk.done, 0, Everywhere(walk.done, previous.GetOr("")), env);
      (s.(zone := previous, actual := back.actual),
       match back.end case Completed => RolledBack case Refused => PartlyRolledBack case Threw => Broken)
    case Completed => (s.(actual := walk.actual, observed := Noted(s.observed, placed, zone)), Succeeded)
  }

  class HostZoneWorker {
    const worker: ZoningWorker
    var zone: Option<Zone>
    var observed: map<ClusterId, Zones>

    constructor (worker: ZoningWorker, zone: Option<Zone>, observed: map<ClusterId, Zones>)
      ensures this.worker == worker && this.zone == zone && this.observed == observed
    {
      this.worker, this.zone, this.observed := worker, zone, observed;
    }

    function State(): HostState
      reads this, worker
    {
      HostState(zone, worker.actual, observed)
    }

    method RunHostZoneChange(previous: Option<Zone>, newZone: Zone, placed: seq<Placed>, env: Env) returns (r: RunResult)
      modifies this, worker
      ensures (State(), r) == HostChangeSpec(old(State()), previous, newZone, placed, env)
    {
      var completed: seq<AssignmentId> := [];
      ghost var whole := HostWalked(worker.actual, [], placed, 0, newZone, env);
      for index := 0 to |placed|
        invariant whole == HostWalked(worker.actual, completed, placed[index..], index, newZone, env)
        invariant zone == old(zone) && observed == old(observed)
      {
        assert placed[index..][1..] == placed[index + 1..];
        var answer := env.apply(index);
        worker.Reconcile(placed[index].id, newZone, answer);
        if answer.Raises? {
          zone := previous;
          return Broken;
        }
        if !answer.ok {
          r := worker.Rollback(completed, Everywhere(completed, previous.GetOr("")), env);
          zone := previous;
          return;
        }
        completed := completed + [placed[index].id];
      }
      for i := 0 to |placed|
        invariant observed == Noted(old(observed), placed[..i], newZone)
        invariant zone == old(zone) && worker.actual == whole.actual && whole.end == Completed
      {
        assert placed[..i + 1][..i] == placed[..i];
        var p := placed[i];
        if p.cluster in observed {
          observed := observed[p.cluster := WithZone(observed[p.cluster], p.id, newZone)];
        }
      }
      assert placed[..|placed|] == placed;
      return Succeeded;
    }
  }

  lemma {:induction false} HostWalkSets(before: Zones, actual: Zones, done: seq<AssignmentId>, todo: seq<Placed>, index: nat, zone: Zone, env: Env)
    requires Honest(env)
    requires forall id :: ZoneOf(actual, id) == if id in done then zone else ZoneOf(before, id)
    ensures var walk := HostWalked(actual, done, todo, index, zone, env);
      && (walk.end != Threw ==> forall id :: ZoneOf(walk.actual, id) == if id in walk.done then zone else ZoneOf(before, id))
      && (forall id :: id in walk.done ==> id in done || exists p :: p in todo && p.id == id)
      && (forall id :: id in done ==> id in walk.done)
      && (walk.end == Completed ==> forall p :: p in todo ==> p.id in walk.done)
    decreases |todo|
  {
    if todo != [] && env.apply(index).Reported? && env.apply(index).ok {
      assert todo[0] in todo;
      HostWalkSets(before, actual[todo[0].id := zone], done + [todo[0].id], todo[1..], index + 1, zone, env);
    }
  }

  lemma {:induction false} NotedZones(observed: map<ClusterId, Zones>, placed: seq<Placed>, zone: Zone)
    ensures Noted(observed, placed, zone).Keys == observed.Keys
    ensures forall p :: p in placed && p.cluster in observed ==> ZoneOf(Noted(observed, placed, zone)[p.cluster], p.id) == zone
    decreases |placed|
  {
    if placed != [] {
      NotedZones(observed, placed[..|placed| - 1], zone);
      assert placed == placed[..|placed| - 1] + [placed[|placed| - 1]];
    }
  }

  /** Success puts every workload of the host in the new zone and says so on the
      record of every cluster that has one. Any failure gives the host its old
      zone back, and when the walk back completes the workloads are where they
      were, if they were in the old zone. */
  lemma HostChangeAllOrPrevious(s: HostState, previous: Option<Zone>, zone: Zone, placed: seq<Placed>, env: Env)
    requires Honest(env)
    ensures var (after, r) := HostChangeSpec(s, previous, zone, placed, env);
      && (r == Succeeded ==> after.zone == s.zone && after.observed.Keys == s.observed.Keys)
      && (r == Succeeded ==> forall p :: p in placed ==> ZoneOf(after.actual, p.id) == zone)
      && (r == Succeeded ==> forall p :: p in placed && p.cluster in s.observed ==> ZoneOf(after.observed[p.cluster], p.id) == zone)
      && (r != Succeeded ==> after.zone == previous && after.observed == s.observed)
      && (r == RolledBack && (forall p :: p in placed ==> ZoneOf(s.actual, p.id) == previous.GetOr("")) ==>
            forall id :: ZoneOf(after.actual, id) == ZoneOf(s.actual, id))
  {
    var walk := HostWalked(s.actual, [], placed, 0, zone, env);
    HostWalkSets(s.actual, s.actual, [], placed, 0, zone, env);
    NotedZones(s.observed, placed, zone);
    WalkBackSets(walk.actual, walk.done, 0, Everywhere(walk.done, previous.GetOr("")), env);
  }

  function Ids(placed: seq<Placed>): (ids: seq<AssignmentId>)
    ensures |ids| == |placed| && forall i :: 0 <= i < |ids| ==> ids[i] == placed[i].id
  {
    seq(|placed|, i requires 0 <= i < |placed| => placed[i].id)
  }

  /** The walk of a host zone change is that of an apply that skips nothing. */
  lemma {:induction false} HostWalkIsWalk(actual: Zones, done: seq<AssignmentId>, placed: seq<Placed>, index: nat, from: Zone, to: Zone, env: Env)
    requires index <= |placed| && from != to
    ensures HostWalked(actual, done, placed[index..], index, to, env)
         == Walked(actual, done, Ids(placed)[index..], index, Everywhere(Ids(placed), from), Everywhere(Ids(placed), to), env)
    decreases |placed| - index
  {
    if index < |placed| {
      hide Walked;
      var ids := Ids(placed);
      assert ids[index] in ids && placed[index..][1..] == placed[index + 1..];
      WalkAt(actual, done, ids, index, Everywhere(ids, from), Everywhere(ids, to), env);
      HostWalkIsWalk(After(actual, ids[index], to, env.apply(index)), done + [ids[index]], placed, index + 1, from, to, env);
    }
  }

  /** Where a workload is after a host zone change that does not succeed. */
  lemma FailedChangeLeaves(s: HostState, previous: Option<Zone>, zone: Zone, placed: seq<Placed>, env: Env, id: AssignmentId)
    requires Honest(env) && zone != previous.GetOr("") && HostChangeSpec(s, previous, zone, placed, env).1 != Succeeded
    requires id in Ids(placed)
    ensures var ids := Ids(placed);
      var from, to := Everywhere(ids, previous.GetOr("")), Everywhere(ids, zone);
      ZoneOf(HostChangeSpec(s, previous, zone, placed, env).0.actual, id)
      == if id in Returned(ids, from, to, env) then previous.GetOr("") else if id in Taken(ids, from, to, env) then zone else ZoneOf(s.actual, id)
  {
    hide Walked, WalkedBack, HostWalked, PutBack, Taken, Honest, StopsAt, Unskipped;
    var ids := Ids(placed);
    var from, to := Everywhere(ids, previous.GetOr("")), Everywhere(ids, zone);
    var walk := Walked(s.actual, [], ids, 0, from, to, env);
    assert ids[0..] == ids && placed[0..] == placed;
    HostWalkIsWalk(s.actual, [], placed, 0, previous.GetOr(""), zone, env);
    WholeWalk(s.actual, ids, from, to, env);
    BackPuts(walk.actual, walk.done, 0, Everywhere(walk.done, previous.GetOr("")), env, id);
    PutBackDone(walk.done, env, id);
  }

  lemma PutBackDone(done: seq<AssignmentId>, env: Env, id: AssignmentId)
    ensures id in PutBack(done, 0, env) ==> id in done
  {
  }

  /** The exact condition on a host zone change from one zone to another: when it
      does not succeed, every workload is in the old zone afterwards if and only
      if each one whose call took effect was put back. */
  lemma HostChangeUndoneExactlyWhen(s: HostState, previous: Option<Zone>, zone: Zone, placed: seq<Placed>, env: Env)
    requires Honest(env) && zone != previous.GetOr("") && HostChangeSpec(s, previous, zone, placed, env).1 != Succeeded
    requires forall id :: id in Ids(placed) ==> ZoneOf(s.actual, id) == previous.GetOr("")
    ensures var ids := Ids(placed);
      var from, to := Everywhere(ids, previous.GetOr("")), Everywhere(ids, zone);
      (forall id :: id in ids ==> ZoneOf(HostChangeSpec(s, previous, zone, placed, env).0.actual, id) == previous.GetOr(""))
      <==> Taken(ids, from, to, env) <= Returned(ids, from, to, env)
  {
    var ids := Ids(placed);
    var from, to := Everywhere(ids, previous.GetOr("")), Everywhere(ids, zone);
    var taken, returned := Taken(ids, from, to, env), Returned(ids, from, to, env);
    forall id | id in ids
      ensures ZoneOf(HostChangeSpec(s, previous, zone, placed, env).0.actual, id) == previous.GetOr("") <==> id !in taken || id in returned
    {
      FailedChangeLeaves(s, previous, zone, placed, env, id);
    }
    assert forall id :: id in taken ==> id in ids;
  }
}
