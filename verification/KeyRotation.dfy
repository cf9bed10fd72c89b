/** The controller's SSH keys: staging a candidate, installing it on hosts, and
    making it the active key. */
module KeyRotation {
  import opened Wrappers

  type KeyId = string
  type HostId = nat

  datatype KeyState = Candidate | Active | Retired
  datatype KeyRow = KeyRow(key: KeyId, state: KeyState)
  datatype Host = Host(enabled: bool, key: Option<KeyId>, candidate: Option<KeyId>)

  /** A key's row id is its place in the table. */
  datatype Tables = Tables(keys: seq<KeyRow>, hosts: map<HostId, Host>)

  datatype Refusal = CandidateInstalled(hosts: set<HostId>) | AlreadyRegistered | NothingStaged | NotOnEveryHost(hosts: set<HostId>)

  /** The newest row in a state. */
  function Newest(keys: seq<KeyRow>, state: KeyState): (r: Option<nat>)
    ensures r.Some? ==> r.value < |keys| && keys[r.value].state == state
    ensures r.None? ==> forall i :: 0 <= i < |keys| ==> keys[i].state != state
  {
    if keys == [] then None
    else if keys[|keys| - 1].state == state then Some(|keys| - 1)
    else Newest(keys[..|keys| - 1], state)
  }

  function Retire(keys: seq<KeyRow>, state: KeyState): (r: seq<KeyRow>)
    ensures |r| == |keys|
  {
    seq(|keys|, i requires 0 <= i < |keys| => if keys[i].state == state then keys[i].(state := Retired) else keys[i])
  }

  function SetState(keys: seq<KeyRow>, id: nat, state: KeyState): seq<KeyRow> {
    if id < |keys| then keys[id := keys[id].(state := state)] else keys
  }

  predicate IsCandidate(keys: seq<KeyRow>, key: KeyId) {
    exists i :: 0 <= i < |keys| && keys[i] == KeyRow(key, Candidate)
  }

  function Installed(s: Tables): set<HostId> {
    set h | h in s.hosts && s.hosts[h].candidate.Some? && IsCandidate(s.keys, s.hosts[h].candidate.value)
  }

  predicate AnyEnabled(hosts: map<HostId, Host>) {
    exists h :: h in hosts && hosts[h].enabled
  }

  function Missing(hosts: map<HostId, Host>, key: KeyId): set<HostId> {
    set h | h in hosts && hosts[h].enabled && hosts[h].candidate != Some(key)
  }

  predicate Registered(keys: seq<KeyRow>, key: KeyId) {
    exists i :: 0 <= i < |keys| && keys[i].key == key
  }

  function StageSpec(s: Tables, key: KeyId): Result<Tables, Refusal> {
    if Installed(s) != {} then Err(CandidateInstalled(Installed(s)))
    else if Registered(s.keys, key) then Err(AlreadyRegistered)
    else
      var cleared := Retire(s.keys, Candidate);
      if AnyEnabled(s.hosts) then Ok(s.(keys := cleared + [KeyRow(key, Candidate)]))
      else Ok(s.(keys := Retire(cleared, Active) + [KeyRow(key, Active)]))
  }

  function ActivationCheck(s: Tables): Result<(Option<nat>, nat), Refusal> {
    var candidate := Newest(s.keys, Candidate);
    if candidate.None? then Err(NothingStaged)
    else
      var missing := Missing(s.hosts, s.keys[candidate.value].key);
      if missing != {} then Err(NotOnEveryHost(missing)) else Ok((Newest(s.keys, Active), candidate.value))
  }

  function ActivateSpec(s: Tables, active: Option<nat>, candidate: nat): Tables
    requires candidate < |s.keys|
  {
    var first := if active.Some? then SetState(s.keys, active.value, Retired) else s.keys;
    Tables(SetState(SetState(first, candidate, Retired), candidate, Active), Promoted(s.hosts, s.keys[candidate].key))
  }

  function Promoted(hosts: map<HostId, Host>, key: KeyId): map<HostId, Host> {
    map h | h in hosts :: if hosts[h].candidate == Some(key) then hosts[h].(key := Some(key), candidate := None) else hosts[h]
  }

  /** The activation request: check, then activate. */
  function RotateSpec(s: Tables): Result<Tables, Refusal> {
    match ActivationCheck(s)
    case Err(e) => Err(e)
    case Ok((active, candidate)) => Ok(ActivateSpec(s, active, candidate))
  }

  class ControllerIdentityService {
    var keys: seq<KeyRow>
    var hosts: map<HostId, Host>

    constructor (s: Tables)
      ensures State() == s
    {
      keys, hosts := s.keys, s.hosts;
    }

    function State(): Tables
      reads this
    {
      Tables(keys, hosts)
    }

    method Stage(key: KeyId) returns (r: Result<KeyState, Refusal>)
      modifies this
      ensures match StageSpec(old(State()), key)
              case Err(e) => r == Err(e) && State() == old(State())
              case Ok(after) => r.Ok? && State() == after && (r.value == Active <==> !AnyEnabled(hosts)) && r.value != Retired
    {
      var installed := Installed(State());
      if installed != {} { return Err(CandidateInstalled(installed)); }
      if Registered(keys, key) { return Err(AlreadyRegistered); }
      keys := Retire(keys, Candidate);
      var state := if AnyEnabled(hosts) then Candidate else Active;
      if state == Active { keys := Retire(keys, Active); }
      keys := keys + [KeyRow(key, state)];
      return Ok(state);
    }

    method CandidateActivation() returns (r: Result<(Option<nat>, nat), Refusal>)
      ensures r == ActivationCheck(State())
    {
      var active, candidate := Newest(keys, Active), Newest(keys, Candidate);
      if candidate.None? { return Err(NothingStaged); }
      var missing := Missing(hosts, keys[candidate.value].key);
      if missing != {} { return Err(NotOnEveryHost(missing)); }
      return Ok((active, candidate.value));
    }

    method Activate(active: Option<nat>, candidate: nat)
      requires candidate < |keys|
      modifies this
      ensures State() == ActivateSpec(old(State()), active, candidate)
    {
      var key := keys[candidate].key;
      if active.Some? { keys := SetState(keys, active.value, Retired); }
      keys := SetState(keys, candidate, Retired);
      keys := SetState(keys, candidate, Active);
      hosts := Promoted(hosts, key);
    }

    method Rotate() returns (error: Option<Refusal>)
      modifies this
      ensures match RotateSpec(old(State()))
              case Err(e) => error == Some(e) && State() == old(State())
              case Ok(after) => error == None && State() == after
    {
      var checked := CandidateActivation();
      if checked.Err? { return Some(checked.error); }
      Activate(checked.value.0, checked.value.1);
      return None;
    }
  }

  // Runs: staging, rotation and any change whatever to the host table.

  datatype Event = StageKey(key: KeyId) | Rotate | HostsChange(hosts: map<HostId, Host>)

  function Step(s: Tables, e: Event): Tables {
    match e
    case StageKey(key) => (match StageSpec(s, key) case Ok(after) => after case Err(_) => s)
    case Rotate => (match RotateSpec(s) case Ok(after) => after case Err(_) => s)
    case HostsChange(hosts) => s.(hosts := hosts)
  }

  function Run(s: Tables, events: seq<Event>): Tables
    decreases |events|
  {
    if events == [] then s else Run(Step(s, events[0]), events[1..])
  }

  predicate AtMostOne(keys: seq<KeyRow>, state: KeyState) {
    forall i, j :: 0 <= i < j < |keys| ==> keys[i].state != state || keys[j].state != state
  }

  predicate KeysDiffer(keys: seq<KeyRow>) {
    forall i, j :: 0 <= i < j < |keys| ==> keys[i].key != keys[j].key
  }

  predicate Inv(s: Tables) {
    AtMostOne(s.keys, Active) && AtMostOne(s.keys, Candidate) && KeysDiffer(s.keys)
  }

  function ActiveKey(s: Tables): Option<KeyId> {
    var id := Newest(s.keys, Active);
    if id.Some? then Some(s.keys[id.value].key) else None
  }

  lemma NewestIsAny(keys: seq<KeyRow>, state: KeyState, i: nat)
    requires AtMostOne(keys, state) && i < |keys| && keys[i].state == state
    ensures Newest(keys, state) == Some(i)
  {
  }

  lemma Cleared(keys: seq<KeyRow>, state: KeyState)
    ensures forall i :: 0 <= i < |keys| ==> Retire(keys, state)[i].key == keys[i].key
    ensures state != Retired ==> forall i :: 0 <= i < |keys| ==> Retire(keys, state)[i].state != state
    ensures forall i :: 0 <= i < |keys| ==> Retire(keys, state)[i].state in {keys[i].state, Retired}
  {
  }

  lemma StageKeeps(s: Tables, key: KeyId)
    requires Inv(s) && StageSpec(s, key).Ok?
    ensures Inv(StageSpec(s, key).value) && StageSpec(s, key).value.hosts == s.hosts
    ensures ActiveKey(StageSpec(s, key).value) == if AnyEnabled(s.hosts) then ActiveKey(s) else Some(key)
  {
    Cleared(s.keys, Candidate);
    var cleared := Retire(s.keys, Candidate);
    var after := StageSpec(s, key).value;
    if AnyEnabled(s.hosts) {
      if i :| 0 <= i < |s.keys| && s.keys[i].state == Active {
        NewestIsAny(s.keys, Active, i);
        assert after.keys[i].state == Active;
        NewestIsAny(after.keys, Active, i);
      } else {
        assert Newest(s.keys, Active) == None;
      }
    } else {
      Cleared(cleared, Active);
      NewestIsAny(after.keys, Active, |s.keys|);
    }
  }

  lemma RotateKeeps(s: Tables)
    requires Inv(s) && RotateSpec(s).Ok?
    ensures var after, candidate := RotateSpec(s).value, Newest(s.keys, Candidate);
      && Inv(after) && candidate.Some?
      && ActiveKey(after) == Some(s.keys[candidate.value].key) && Newest(after.keys, Candidate) == None
      && (forall h :: h in s.hosts && s.hosts[h].enabled ==> s.hosts[h].candidate == Some(s.keys[candidate.value].key))
      && (forall h :: h in after.hosts && after.hosts[h].enabled ==> after.hosts[h].key == ActiveKey(after) && after.hosts[h].candidate == None)
  {
    var candidate := Newest(s.keys, Candidate).value;
    var active := Newest(s.keys, Active);
    var after := RotateSpec(s).value;
    var key := s.keys[candidate].key;
    RotatedKeys(s.keys, active, candidate, after.keys);
    NewestIsAny(after.keys, Active, candidate);
    forall h | h in s.hosts && s.hosts[h].enabled ensures s.hosts[h].candidate == Some(key) {
      assert h !in Missing(s.hosts, key);
    }
  }

  lemma RotatedKeys(keys: seq<KeyRow>, active: Option<nat>, candidate: nat, after: seq<KeyRow>)
    requires AtMostOne(keys, Active) && AtMostOne(keys, Candidate) && KeysDiffer(keys)
    requires active == Newest(keys, Active) && Newest(keys, Candidate) == Some(candidate)
    requires after == SetState(SetState(if active.Some? then SetState(keys, active.value, Retired) else keys, candidate, Retired), candidate, Active)
    ensures |after| == |keys| && forall i :: 0 <= i < |after| ==> after[i].key == keys[i].key
    ensures forall i :: 0 <= i < |after| ==> (after[i].state == Active <==> i == candidate) && after[i].state != Candidate
  {
    forall i | 0 <= i < |keys| && keys[i].state == Active ensures active == Some(i) {
      NewestIsAny(keys, Active, i);
    }
    forall i | 0 <= i < |keys| && keys[i].state == Candidate ensures candidate == i {
      NewestIsAny(keys, Candidate, i);
    }
  }

  lemma StepKeeps(s: Tables, e: Event)
    requires Inv(s)
    ensures Inv(Step(s, e))
    ensures ActiveKey(Step(s, e)) != ActiveKey(s) ==>
      || !AnyEnabled(s.hosts)
      || (ActiveKey(Step(s, e)).Some? && forall h :: h in s.hosts && s.hosts[h].enabled ==> s.hosts[h].candidate == ActiveKey(Step(s, e)))
  {
    match e
    case StageKey(key) => if StageSpec(s, key).Ok? { StageKeeps(s, key); }
    case Rotate => if RotateSpec(s).Ok? { RotateKeeps(s); }
    case HostsChange(_) =>
  }

  lemma {:induction false} RunKeeps(s: Tables, events: seq<Event>)
    requires Inv(s)
    ensures Inv(Run(s, events))
    decreases |events|
  {
    if events != [] {
      StepKeeps(s, events[0]);
      RunKeeps(Step(s, events[0]), events[1..]);
    }
  }

  /** Main rotation result. After any run: at most one key is active and at most
      one is staged; the next request changes the active key only if no host is
      enabled or every enabled host already carries the new one; and an accepted
      rotation leaves every enabled host on the active key. */
  lemma RotationStrandsNoHost(events: seq<Event>, e: Event)
    ensures var s := Run(Tables([], map[]), events);
      && AtMostOne(s.keys, Active) && AtMostOne(s.keys, Candidate)
      && (ActiveKey(Step(s, e)) != ActiveKey(s) ==>
            || !AnyEnabled(s.hosts)
            || (forall h :: h in s.hosts && s.hosts[h].enabled ==> s.hosts[h].candidate == ActiveKey(Step(s, e))))
      && (e == Rotate && RotateSpec(s).Ok? ==>
            var after := Step(s, e);
            ActiveKey(after).Some? && forall h :: h in after.hosts && after.hosts[h].enabled ==> after.hosts[h].key == ActiveKey(after))
  {
    RunKeeps(Tables([], map[]), events);
    var s := Run(Tables([], map[]), events);
    StepKeeps(s, e);
    if RotateSpec(s).Ok? {
      RotateKeeps(s);
    }
  }

  /** The check and the activation must not be separated: with a staging in
      between, two keys end up active at once. */
  lemma SeparatedCheckBreaks(a: KeyId, b: KeyId, c: KeyId)
    requires a != b && b != c && a != c
    ensures
      var s := Tables([KeyRow(a, Active), KeyRow(b, Candidate)], map[]);
      && Inv(s) && ActivationCheck(s) == Ok((Some(0), 1))
      && StageSpec(s, c).Ok? && |StageSpec(s, c).value.keys| == 3
      && !AtMostOne(ActivateSpec(StageSpec(s, c).value, Some(0), 1).keys, Active)
  {
    var s := Tables([KeyRow(a, Active), KeyRow(b, Candidate)], map[]);
    assert Newest(s.keys, Candidate) == Some(1);
    assert s.keys[..1] == [KeyRow(a, Active)];
    assert Newest(s.keys, Active) == Some(0);
    assert Missing(s.hosts, b) == {} && Installed(s) == {};
    var staged := StageSpec(s, c).value;
    assert staged.keys == [KeyRow(a, Retired), KeyRow(b, Retired), KeyRow(c, Active)];
    var end := ActivateSpec(staged, Some(0), 1);
    assert end.keys[1].state == Active && end.keys[2].state == Active;
  }
}
