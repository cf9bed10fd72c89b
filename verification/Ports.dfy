/** Port profiles: first-free allocation, the defaults made from a legacy
    profile, and the profile validator. */
module Ports {
  import opened Wrappers

  const LAST := 65535

  /** A value of a legacy profile: absent or unreadable ones are `NotANumber`. */
  datatype Value = Number(n: int) | NotANumber

  predicate InRange(port: int) { 1 <= port <= LAST }

  function ValidPort(value: Value, fallback: int): int {
    if value.Number? && InRange(value.n) then value.n else fallback
  }

  // First-free allocation.

  /** The least free port from `start` up to the last one. */
  function LeastFree(used: set<int>, start: int): (r: Option<int>)
    ensures r.Some? ==> start <= r.value <= LAST && r.value !in used && forall q :: start <= q < r.value ==> q in used
    ensures r.None? ==> forall q :: start <= q <= LAST ==> q in used
    decreases LAST + 1 - start
  {
    if start > LAST then None else if start !in used then Some(start) else LeastFree(used, start + 1)
  }

  function Allocated(used: set<int>, preferred: int, fallback: int): Option<int> {
    var first := LeastFree(used, ValidPort(Number(preferred), fallback));
    if first.Some? then first
    else
      var second := LeastFree(used, ValidPort(Number(fallback), 1));
      if second.Some? then second else LeastFree(used, 1)
  }

  /** With a usable fallback: some free port is found unless all are taken, and
      it is the least free one at or above the preferred port when there is one. */
  lemma AllocationIsFirstFree(used: set<int>, preferred: int, fallback: int)
    requires InRange(fallback)
    ensures var r, start := Allocated(used, preferred, fallback), ValidPort(Number(preferred), fallback);
      && (r.None? <==> forall q :: InRange(q) ==> q in used)
      && (r.Some? ==> InRange(r.value) && r.value !in used)
      && ((exists q :: start <= q <= LAST && q !in used) ==>
            r.Some? && start <= r.value && forall q :: start <= q < r.value ==> q in used)
  {
  }

  /** The shared set of ports given out so far. */
  class UsedPorts {
    var ports: set<int>

    constructor (ports: set<int>)
      ensures this.ports == ports
    {
      this.ports := ports;
    }

    method NextAvailablePort(preferred: int, fallback: int) returns (r: Option<int>)
      modifies this
      ensures r == Allocated(old(ports), preferred, fallback)
      ensures ports == if r.Some? then old(ports) + {r.value} else old(ports)
    {
      var starts := [ValidPort(Number(preferred), fallback), ValidPort(Number(fallback), 1), 1];
      for i := 0 to 3
        invariant ports == old(ports)
        invariant forall j :: 0 <= j < i ==> LeastFree(ports, starts[j]) == None
      {
        var value := starts[i];
        while value <= LAST
          invariant LeastFree(ports, value) == LeastFree(ports, starts[i])
          invariant ports == old(ports)
          decreases LAST + 1 - value
        {
          if value !in ports {
            assert LeastFree(ports, starts[i]) == Some(value);
            if i > 0 { assert LeastFree(ports, starts[0]) == None; }
            if i > 1 { assert LeastFree(ports, starts[1]) == None; }
            assert Allocated(ports, preferred, fallback) == Some(value);
            ports := ports + {value};
            return Some(value);
          }
          value := value + 1;
        }
      }
      assert LeastFree(ports, starts[0]) == LeastFree(ports, starts[1]) == LeastFree(ports, starts[2]) == None;
      return None;
    }
  }

  // Roles and profiles.

  datatype Role = Master | Hot | Warm | Ml | Ingest | Coordinating | Kibana | FleetServer | Logstash | ElasticAgent
  datatype Field = Http | Transport | KibanaPort | FleetPort | LogstashApi

  const ES_ROLES := [Master, Hot, Warm, Ml, Ingest, Coordinating]
  const SERVICES := [Kibana, FleetServer, Logstash, ElasticAgent]
  const ROLES := ES_ROLES + SERVICES

  function FieldsOf(role: Role): seq<Field> {
    match role
    case Kibana => [KibanaPort]
    case FleetServer => [FleetPort]
    case Logstash => [LogstashApi]
    case ElasticAgent => []
    case _ => [Http, Transport]
  }

  function DefaultPort(field: Field): int {
    match field case Http => 9200 case Transport => 9300 case KibanaPort => 5601 case FleetPort => 8220 case LogstashApi => 9600
  }

  type Association = map<Field, int>
  type Profile = map<Role, Association>

  predicate Shaped(profile: Profile, role: Role) {
    role in profile && profile[role].Keys == set f | f in FieldsOf(role)
  }

  /** 0, no port at all, where a malformed profile has none. */
  function PortOf(profile: Profile, role: Role, field: Field): int {
    if role in profile && field in profile[role] then profile[role][field] else 0
  }

  function PortsOf(profile: Profile, role: Role, fields: seq<Field>): (r: seq<int>)
    ensures |r| == |fields|
  {
    if fields == [] then [] else [PortOf(profile, role, fields[0])] + PortsOf(profile, role, fields[1..])
  }

  function RolePortValues(profile: Profile, role: Role): seq<int> {
    PortsOf(profile, role, FieldsOf(role))
  }

  /** Every port of a profile, role by role. */
  function AllPorts(profile: Profile, roles: seq<Role>): seq<int> {
    if roles == [] then [] else AllPorts(profile, roles[..|roles| - 1]) + RolePortValues(profile, roles[|roles| - 1])
  }

  predicate NoDuplicates(ports: seq<int>) {
    forall i, j :: 0 <= i < j < |ports| ==> ports[i] != ports[j]
  }

  predicate Good(ports: seq<int>) {
    (forall port :: port in ports ==> InRange(port)) && NoDuplicates(ports)
  }

  predicate AcceptedFor(profile: Profile, roles: seq<Role>) {
    (forall role :: role in roles ==> Shaped(profile, role)) && Good(AllPorts(profile, roles))
  }

  /** Exactly the expected ports for every role, all in range, none twice. */
  predicate ProfileOk(profile: Profile) {
    AcceptedFor(profile, ROLES)
  }

  lemma AllPortsGrow(profile: Profile, roles: seq<Role>, i: nat, j: nat)
    requires i <= j <= |roles|
    ensures AllPorts(profile, roles[..i]) <= AllPorts(profile, roles[..j])
    decreases j - i
  {
    if i < j {
      AllPortsGrow(profile, roles, i, j - 1);
      assert roles[..j][..j - 1] == roles[..j - 1];
    }
  }

  lemma PrefixGood(a: seq<int>, b: seq<int>)
    requires a <= b && Good(b)
    ensures Good(a)
  {
    assert forall i :: 0 <= i < |a| ==> a[i] == b[i];
    forall port | port in a ensures InRange(port) {
      assert port in b;
    }
  }

  /** The validator of a stored profile. */
  method ValidRolePorts(profile: Profile) returns (accepted: bool)
    ensures accepted <==> ProfileOk(profile)
  {
    accepted := ValidRoles(profile, ROLES);
  }

  method ValidRoles(profile: Profile, roles: seq<Role>) returns (accepted: bool)
    ensures accepted <==> AcceptedFor(profile, roles)
  {
    var seen: set<int> := {};
    for i := 0 to |roles|
      invariant forall role :: role in roles[..i] ==> Shaped(profile, role)
      invariant Good(AllPorts(profile, roles[..i]))
      invariant forall port :: port in seen <==> port in AllPorts(profile, roles[..i])
    {
      var role := roles[i];
      assert roles[i] in roles && roles[..i + 1][..i] == roles[..i];
      if !(role in profile && profile[role].Keys == set f | f in FieldsOf(role)) { return false; }
      var ok;
      ok, seen := ValidAssociation(AllPorts(profile, roles[..i]), RolePortValues(profile, role), seen);
      assert AllPorts(profile, roles[..i + 1]) == AllPorts(profile, roles[..i]) + RolePortValues(profile, role);
      if !ok {
        RefusedPrefix(profile, roles, i + 1);
        return false;
      }
    }
    assert roles[..|roles|] == roles;
    return true;
  }

  /** One association against the ports seen before it. */
  method ValidAssociation(ghost before: seq<int>, values: seq<int>, seen0: set<int>) returns (ok: bool, seen: set<int>)
    requires Good(before) && forall port :: port in seen0 <==> port in before
    ensures ok <==> Good(before + values)
    ensures ok ==> forall port :: port in seen <==> port in before + values
  {
    seen := seen0;
    assert before + values[..0] == before;
    for k := 0 to |values|
      invariant Good(before + values[..k])
      invariant forall port :: port in seen <==> port in before + values[..k]
    {
      ghost var sofar := before + values[..k];
      assert before + values[..k + 1] == sofar + [values[k]];
      if !InRange(values[k]) || values[k] in seen {
        NotGood(sofar, values[k]);
        PrefixBad(sofar + [values[k]], before + values);
        return false, seen;
      }
      StillGood(sofar, values[k]);
      seen := seen + {values[k]};
    }
    assert values[..|values|] == values;
    return true, seen;
  }

  lemma NotGood(ports: seq<int>, port: int)
    requires !InRange(port) || port in ports
    ensures !Good(ports + [port])
  {
    var all := ports + [port];
    assert all[|ports|] == port && port in all;
    if port in ports {
      var i :| 0 <= i < |ports| && ports[i] == port;
      assert all[i] == all[|ports|];
    }
  }

  lemma StillGood(ports: seq<int>, port: int)
    requires Good(ports) && InRange(port) && port !in ports
    ensures Good(ports + [port])
    ensures forall p :: p in ports + [port] <==> p in ports || p == port
  {
  }

  lemma PrefixBad(a: seq<int>, b: seq<int>)
    requires a <= b && !Good(a)
    ensures !Good(b)
  {
    if Good(b) {
      PrefixGood(a, b);
    }
  }

  lemma RefusedPrefix(profile: Profile, roles: seq<Role>, i: nat)
    requires i <= |roles| && !Good(AllPorts(profile, roles[..i]))
    ensures !AcceptedFor(profile, roles)
  {
    AllPortsGrow(profile, roles, i, |roles|);
    assert roles[..|roles|] == roles;
    PrefixBad(AllPorts(profile, roles[..i]), AllPorts(profile, roles));
  }

  // The defaults of a legacy profile.

  function LegacyPort(legacy: map<Field, Value>, field: Field): (port: int)
    ensures InRange(port)
  {
    ValidPort(if field in legacy then legacy[field] else NotANumber, DefaultPort(field))
  }

  predicate ServicesDistinct(legacy: map<Field, Value>) {
    NoDuplicates([LegacyPort(legacy, KibanaPort), LegacyPort(legacy, FleetPort), LegacyPort(legacy, LogstashApi)])
  }

  /** Fifteen ports do not fill the range. */
  lemma SmallSetsLeaveRoom(used: set<int>)
    requires |used| <= 15
    ensures exists q :: InRange(q) && q !in used
  {
    if forall q :: InRange(q) ==> q in used {
      assert UpTo(16) <= used;
      Subset(UpTo(16), used);
    }
  }

  ghost function UpTo(n: nat): (s: set<int>)
    ensures |s| == n && forall q :: q in s ==> 1 <= q <= n
  {
    if n == 0 then {} else UpTo(n - 1) + {n}
  }

  lemma Subset(a: set<int>, b: set<int>)
    requires a <= b
    ensures |a| <= |b|
  {
    assert b == a + (b - a);
  }

  /** The Elasticsearch associations hold the ports of `es`, two by two. */
  predicate Holds(profile: Profile, es: seq<int>, n: nat)
    requires |es| == 2 * n && n <= |ES_ROLES|
  {
    forall j :: 0 <= j < n ==> ES_ROLES[j] in profile && profile[ES_ROLES[j]] == Pair(es[2 * j], es[2 * j + 1])
  }

  function Pair(http: int, transport: int): Association {
    map[Http := http, Transport := transport]
  }

  predicate HoldsServices(profile: Profile, legacy: map<Field, Value>) {
    && Kibana in profile && profile[Kibana] == map[KibanaPort := LegacyPort(legacy, KibanaPort)]
    && FleetServer in profile && profile[FleetServer] == map[FleetPort := LegacyPort(legacy, FleetPort)]
    && Logstash in profile && profile[Logstash] == map[LogstashApi := LegacyPort(legacy, LogstashApi)]
    && ElasticAgent in profile && profile[ElasticAgent] == map[]
  }

  /** Ports that take none of the services' ports, and none twice. */
  predicate Apart(es: seq<int>, services: set<int>) {
    Good(es) && forall port :: port in es ==> port !in services
  }

  /** The defaults exist for every legacy profile, and form a valid profile if
      and only if the three service ports differ from each other. */
  method DefaultRolePorts(legacy: map<Field, Value>) returns (r: Option<Profile>)
    ensures r.Some? && HoldsServices(r.value, legacy)
    ensures forall role :: role in ROLES ==> Shaped(r.value, role)
    ensures ProfileOk(r.value) <==> ServicesDistinct(legacy)
  {
    var kibana, fleet, logstash := LegacyPort(legacy, KibanaPort), LegacyPort(legacy, FleetPort), LegacyPort(legacy, LogstashApi);
    var result: Profile := map[Kibana := map[KibanaPort := kibana], FleetServer := map[FleetPort := fleet],
                               Logstash := map[LogstashApi := logstash], ElasticAgent := map[]];
    var services := {kibana, fleet, logstash};
    var used := new UsedPorts(services);
    ghost var es: seq<int> := [];
    for offset := 0 to |ES_ROLES|
      invariant |es| == 2 * offset && Holds(result, es, offset) && HoldsServices(result, legacy)
      invariant Tracks(used.ports, es, services) && |used.ports| <= 3 + 2 * offset
    {
      var http := NextFor(used, LegacyPort(legacy, Http) + offset, 9200 + offset, es, services);
      var transport := NextFor(used, LegacyPort(legacy, Transport) + offset, 9300 + offset, es + [http], services);
      PairAdded(result, es, offset, http, transport);
      ServicesKept(result, legacy, offset, Pair(http, transport));
      result := result[ES_ROLES[offset] := Pair(http, transport)];
      es := es + [http] + [transport];
    }
    DefaultsShaped(result, es, legacy);
    DefaultsListed(result, es, legacy);
    TailGood(es, kibana, fleet, logstash);
    return Some(result);
  }

  /** The used ports are those of the services and those given out. */
  ghost predicate Tracks(used: set<int>, es: seq<int>, services: set<int>) {
    Apart(es, services) && forall port :: port in used <==> port in services || port in es
  }

  method NextFor(used: UsedPorts, preferred: int, fallback: int, ghost es: seq<int>, ghost services: set<int>) returns (port: int)
    requires Tracks(used.ports, es, services) && |used.ports| < 15 && InRange(fallback)
    modifies used
    ensures Tracks(used.ports, es + [port], services) && |used.ports| == |old(used.ports)| + 1
  {
    SmallSetsLeaveRoom(used.ports);
    AllocationIsFirstFree(used.ports, preferred, fallback);
    var next := used.NextAvailablePort(preferred, fallback);
    port := next.value;
    OneMore(es, services, port);
  }

  lemma OneMore(es: seq<int>, services: set<int>, port: int)
    requires Apart(es, services) && InRange(port) && port !in services && port !in es
    ensures Apart(es + [port], services)
    ensures forall p :: p in es + [port] <==> p in es || p == port
  {
    StillGood(es, port);
  }

  lemma RolesDiffer(j: nat, i: nat)
    requires j < i < |ES_ROLES|
    ensures ES_ROLES[j] != ES_ROLES[i]
  {
  }

  lemma PairAdded(profile: Profile, es: seq<int>, n: nat, http: int, transport: int)
    requires |es| == 2 * n && n < |ES_ROLES| && Holds(profile, es, n)
    ensures Holds(profile[ES_ROLES[n] := Pair(http, transport)], es + [http] + [transport], n + 1)
  {
    forall j | 0 <= j < n ensures ES_ROLES[j] != ES_ROLES[n] {
      RolesDiffer(j, n);
    }
  }

  lemma ServicesKept(profile: Profile, legacy: map<Field, Value>, n: nat, pair: Association)
    requires n < |ES_ROLES| && HoldsServices(profile, legacy)
    ensures HoldsServices(profile[ES_ROLES[n] := pair], legacy)
  {
    assert ES_ROLES[n] in ES_ROLES;
    assert forall role :: role in ES_ROLES ==> role !in [Kibana, FleetServer, Logstash, ElasticAgent];
  }

  lemma DefaultsShaped(profile: Profile, es: seq<int>, legacy: map<Field, Value>)
    requires |es| == 12 && Holds(profile, es, 6) && HoldsServices(profile, legacy)
    ensures forall role :: role in ROLES ==> Shaped(profile, role)
  {
    forall role | role in ROLES ensures Shaped(profile, role) {
      if role in ES_ROLES {
        var j :| 0 <= j < |ES_ROLES| && ES_ROLES[j] == role;
      }
    }
  }

  lemma PairListed(profile: Profile, role: Role, http: int, transport: int)
    requires role in profile && profile[role] == Pair(http, transport) && FieldsOf(role) == [Http, Transport]
    ensures RolePortValues(profile, role) == [http, transport]
  {
    assert [Http, Transport][1..] == [Transport] && [Transport][1..] == [];
    assert PortsOf(profile, role, [Transport]) == [transport];
  }

  lemma ServiceListed(profile: Profile, role: Role, field: Field, port: int)
    requires role in profile && profile[role] == map[field := port] && FieldsOf(role) == [field]
    ensures RolePortValues(profile, role) == [port]
  {
    assert [field][1..] == [];
  }

  lemma {:induction false} PairsListed(profile: Profile, es: seq<int>, n: nat)
    requires n <= |ES_ROLES| && |es| == 2 * n && Holds(profile, es, n)
    ensures AllPorts(profile, ES_ROLES[..n]) == es
    decreases n
  {
    if n > 0 {
      var m := n - 1;
      PairsListed(profile, es[..2 * m], m);
      assert ES_ROLES[..n][..m] == ES_ROLES[..m];
      PairListed(profile, ES_ROLES[m], es[2 * m], es[2 * m + 1]);
      assert es == es[..2 * m] + [es[2 * m], es[2 * m + 1]];
    }
  }

  lemma AddRole(profile: Profile, roles: seq<Role>, role: Role)
    ensures AllPorts(profile, roles + [role]) == AllPorts(profile, roles) + RolePortValues(profile, role)
  {
    assert (roles + [role])[..|roles|] == roles;
  }

  lemma ServicesAdded(profile: Profile, base: seq<Role>, kibana: int, fleet: int, logstash: int)
    requires RolePortValues(profile, Kibana) == [kibana] && RolePortValues(profile, FleetServer) == [fleet]
    requires RolePortValues(profile, Logstash) == [logstash] && RolePortValues(profile, ElasticAgent) == []
    ensures AllPorts(profile, base + SERVICES) == AllPorts(profile, base) + [kibana, fleet, logstash]
  {
    var one := base + [Kibana];
    var two := one + [FleetServer];
    var three := two + [Logstash];
    AddRole(profile, base, Kibana);
    AddRole(profile, one, FleetServer);
    AddRole(profile, two, Logstash);
    AddRole(profile, three, ElasticAgent);
    assert base + SERVICES == three + [ElasticAgent];
  }

  lemma DefaultsListed(profile: Profile, es: seq<int>, legacy: map<Field, Value>)
    requires |es| == 12 && Holds(profile, es, 6) && HoldsServices(profile, legacy)
    ensures AllPorts(profile, ROLES) == es + [LegacyPort(legacy, KibanaPort), LegacyPort(legacy, FleetPort), LegacyPort(legacy, LogstashApi)]
  {
    PairsListed(profile, es, 6);
    assert ES_ROLES[..6] == ES_ROLES;
    ServiceListed(profile, Kibana, KibanaPort, LegacyPort(legacy, KibanaPort));
    ServiceListed(profile, FleetServer, FleetPort, LegacyPort(legacy, FleetPort));
    ServiceListed(profile, Logstash, LogstashApi, LegacyPort(legacy, LogstashApi));
    ServicesAdded(profile, ES_ROLES, LegacyPort(legacy, KibanaPort), LegacyPort(legacy, FleetPort), LegacyPort(legacy, LogstashApi));
  }

  lemma TailGood(es: seq<int>, a: int, b: int, c: int)
    requires Apart(es, {a, b, c}) && InRange(a) && InRange(b) && InRange(c)
    ensures Good(es + [a, b, c]) <==> NoDuplicates([a, b, c])
  {
    var all, tail := es + [a, b, c], [a, b, c];
    assert all[|es|] == a && all[|es| + 1] == b && all[|es| + 2] == c;
    if NoDuplicates(tail) {
      assert tail[0] != tail[1] && tail[0] != tail[2] && tail[1] != tail[2];
    } else {
      assert a == b || a == c || b == c;
    }
  }

  /** A stored profile as the controller reads it back: kept when it parses and
      is valid, otherwise rebuilt from the legacy ports. */
  method StoredRolePorts(stored: Option<Profile>, legacy: map<Field, Value>) returns (r: Option<Profile>)
    ensures r.Some? && forall role :: role in ROLES ==> Shaped(r.value, role)
    ensures stored.Some? && ProfileOk(stored.value) ==> r == stored
    ensures ProfileOk(r.value) <==> (stored.Some? && ProfileOk(stored.value)) || ServicesDistinct(legacy)
  {
    if stored.Some? {
      var valid := ValidRolePorts(stored.value);
      if valid { return stored; }
    }
    r := DefaultRolePorts(legacy);
  }
}
