/** Zone catalogs: which zones a cluster defines, which zone a host is in, and
    the separate guards that keep the two in step. */
module ZoneCatalog {
  import opened Wrappers

  type ClusterId = nat
  type NodeId = nat
  type Zone = string

  datatype Mode = Disabled | Awareness | ForcedAwareness
  datatype Zoning = Zoning(mode: Mode, zones: seq<Zone>)
  datatype Membership = Membership(cluster: ClusterId, node: NodeId)
  datatype Workload = Workload(cluster: ClusterId, node: NodeId, role: string)

  /** The tables the guards read. */
  datatype World = World(
    clusters: map<ClusterId, Zoning>,
    hosts: map<NodeId, Option<Zone>>,
    members: seq<Membership>,
    workloads: seq<Workload>)

  function HostZone(w: World, node: NodeId): Option<Zone> {
    if node in w.hosts then w.hosts[node] else None
  }

  predicate Fits(zoning: Zoning, zone: Zone) {
    zoning.mode == Disabled || zone in zoning.zones
  }

  datatype Refusal =
    | UnknownCluster
    | UndefinedZone
    | ZonesInUse(zones: seq<Zone>)
    | Incompatible(clusters: seq<ClusterId>)
    | Busy(cluster: ClusterId)
    | Uncovered(cluster: ClusterId, role: string, zones: seq<Zone>)

  function ForCluster(members: seq<Membership>, cluster: ClusterId): seq<Membership> {
    if members == [] then []
    else (if members[0].cluster == cluster then [members[0]] else []) + ForCluster(members[1..], cluster)
  }

  function ForNode(members: seq<Membership>, node: NodeId): seq<Membership> {
    if members == [] then []
    else (if members[0].node == node then [members[0]] else []) + ForNode(members[1..], node)
  }

  function OfRole(workloads: seq<Workload>, cluster: ClusterId, role: string): seq<Workload> {
    if workloads == [] then []
    else (if workloads[0].cluster == cluster && workloads[0].role == role then [workloads[0]] else []) + OfRole(workloads[1..], cluster, role)
  }

  lemma {:induction false} Filtered(members: seq<Membership>, cluster: ClusterId, node: NodeId)
    ensures forall m :: m in ForCluster(members, cluster) <==> m in members && m.cluster == cluster
    ensures forall m :: m in ForNode(members, node) <==> m in members && m.node == node
    decreases |members|
  {
    if members != [] {
      Filtered(members[1..], cluster, node);
    }
  }

  lemma {:induction false} FilteredRole(workloads: seq<Workload>, cluster: ClusterId, role: string)
    ensures forall x :: x in OfRole(workloads, cluster, role) <==> x in workloads && x.cluster == cluster && x.role == role
    decreases |workloads|
  {
    if workloads != [] {
      FilteredRole(workloads[1..], cluster, role);
    }
  }

  // What the guards promise.

  /** A new zoning may replace a cluster's old one. */
  predicate CatalogAccepted(w: World, cluster: ClusterId, zoning: Zoning) {
    forall m :: m in w.members && m.cluster == cluster && HostZone(w, m.node).Some? ==> Fits(zoning, HostZone(w, m.node).value)
  }

  function Moved(w: World, node: NodeId, zone: Zone): World {
    w.(hosts := w.hosts[node := Some(zone)])
  }

  /** Every zone of the catalog has a host with a workload of this role. */
  predicate Covers(w: World, cluster: ClusterId, role: string, zones: seq<Zone>) {
    forall z :: z in zones ==> exists x :: x in w.workloads && x.cluster == cluster && x.role == role && HostZone(w, x.node) == Some(z)
  }

  predicate Present(w: World, cluster: ClusterId, role: string) {
    exists x :: x in w.workloads && x.cluster == cluster && x.role == role
  }

  predicate KeepsCoverage(w: World, cluster: ClusterId) {
    cluster in w.clusters && w.clusters[cluster].mode == ForcedAwareness ==>
      forall role :: role in ["hot", "warm"] && Present(w, cluster, role) ==> Covers(w, cluster, role, w.clusters[cluster].zones)
  }

  predicate ZoneChangeAccepted(w: World, busy: set<ClusterId>, node: NodeId, cluster: ClusterId, zone: Zone) {
    && cluster in w.clusters && zone in w.clusters[cluster].zones
    && (forall m :: m in w.members && m.node == node && m.cluster in w.clusters ==>
          Fits(w.clusters[m.cluster], zone) && m.cluster !in busy && KeepsCoverage(Moved(w, node, zone), m.cluster))
  }

  class ClusterPolicyService {
    const world: World
    const busy: set<ClusterId>

    constructor (world: World, busy: set<ClusterId>)
      ensures this.world == world && this.busy == busy
    {
      this.world, this.busy := world, busy;
    }

    method ValidateZoningCatalogUpdate(cluster: ClusterId, zoning: Zoning) returns (r: Option<Refusal>)
      ensures r.None? <==> CatalogAccepted(world, cluster, zoning)
    {
      if zoning.mode == Disabled { return None; }
      var rows := ForCluster(world.members, cluster);
      Filtered(world.members, cluster, 0);
      var missing: seq<Zone> := [];
      for i := 0 to |rows|
        invariant missing == [] <==>
          forall j :: 0 <= j < i && HostZone(world, rows[j].node).Some? ==> HostZone(world, rows[j].node).value in zoning.zones
      {
        var zone := HostZone(world, rows[i].node);
        if zone.Some? && zone.value !in zoning.zones { missing := missing + [zone.value]; }
      }
      if missing != [] { return Some(ZonesInUse(missing)); }
      return None;
    }

    method ValidateHostZoneChange(node: NodeId, cluster: ClusterId, zone: Zone) returns (r: Option<Refusal>)
      ensures r.None? <==> ZoneChangeAccepted(world, busy, node, cluster, zone)
    {
      if cluster !in world.clusters { return Some(UnknownCluster); }
      if zone !in world.clusters[cluster].zones { return Some(UndefinedZone); }
      var rows := ForNode(world.members, node);
      Filtered(world.members, 0, node);
      var incompatible: seq<ClusterId> := [];
      for i := 0 to |rows|
        invariant incompatible == [] <==> forall j :: 0 <= j < i && rows[j].cluster in world.clusters ==> Fits(world.clusters[rows[j].cluster], zone)
      {
        var c := rows[i].cluster;
        if c in world.clusters && world.clusters[c].mode != Disabled && zone !in world.clusters[c].zones {
          incompatible := incompatible + [c];
        }
      }
      if incompatible != [] {
        var j :| 0 <= j < |rows| && rows[j].cluster in world.clusters && !Fits(world.clusters[rows[j].cluster], zone);
        assert rows[j] in world.members;
        return Some(Incompatible(incompatible));
      }
      for i := 0 to |rows|
        invariant forall j :: 0 <= j < i && rows[j].cluster in world.clusters ==>
          rows[j].cluster !in busy && KeepsCoverage(Moved(world, node, zone), rows[j].cluster)
      {
        assert rows[i] in world.members;
        var c := rows[i].cluster;
        if c in world.clusters {
          if c in busy { return Some(Busy(c)); }
          if world.clusters[c].mode == ForcedAwareness {
            var uncovered := RequireCoverage(node, zone, c, "hot");
            if uncovered.Some? { return uncovered; }
            uncovered := RequireCoverage(node, zone, c, "warm");
            if uncovered.Some? { return uncovered; }
          }
        }
      }
      return None;
    }

    /** The zones that the workloads of one role would still cover. */
    method RequireCoverage(node: NodeId, zone: Zone, cluster: ClusterId, role: string) returns (r: Option<Refusal>)
      requires cluster in world.clusters
      ensures var after := Moved(world, node, zone);
        r.None? <==> (Present(after, cluster, role) ==> Covers(after, cluster, role, world.clusters[cluster].zones))
    {
      ghost var after := Moved(world, node, zone);
      var rows := OfRole(world.workloads, cluster, role);
      FilteredRole(world.workloads, cluster, role);
      if rows == [] {
        assert !Present(after, cluster, role);
        return None;
      }
      assert rows[0] in after.workloads;
      var zones: set<Zone> := {};
      for i := 0 to |rows|
        invariant forall z :: z in zones <==> exists j :: 0 <= j < i && HostZone(after, rows[j].node) == Some(z)
      {
        if rows[i].node == node {
          zones := zones + {zone};
        } else if HostZone(world, rows[i].node).Some? {
          zones := zones + {HostZone(world, rows[i].node).value};
        }
      }
      SeenAreCovered(after, rows, cluster, role, zones);
      var missing: seq<Zone> := [];
      var all := world.clusters[cluster].zones;
      for i := 0 to |all|
        invariant missing == [] <==> forall j :: 0 <= j < i ==> all[j] in zones
      {
        if all[i] !in zones { missing := missing + [all[i]]; }
      }
      if missing != [] { return Some(Uncovered(cluster, role, missing)); }
      return None;
    }
  }

  lemma SeenAreCovered(w: World, rows: seq<Workload>, cluster: ClusterId, role: string, zones: set<Zone>)
    requires forall x :: x in rows <==> x in w.workloads && x.cluster == cluster && x.role == role
    requires forall z :: z in zones <==> exists j :: 0 <= j < |rows| && HostZone(w, rows[j].node) == Some(z)
    ensures forall z :: z in zones <==> exists x :: x in w.workloads && x.cluster == cluster && x.role == role && HostZone(w, x.node) == Some(z)
  {
    forall z ensures z in zones <==> exists x :: x in w.workloads && x.cluster == cluster && x.role == role && HostZone(w, x.node) == Some(z) {
      if z in zones {
        var j :| 0 <= j < |rows| && HostZone(w, rows[j].node) == Some(z);
        assert rows[j] in rows;
      }
      if x :| x in w.workloads && x.cluster == cluster && x.role == role && HostZone(w, x.node) == Some(z) {
        assert x in rows;
      }
    }
  }

  // What coverage costs. The check looks at the zones after the move; before the
  // move it asks whether the host is the last of a role in the zone it leaves.

  /** Only this host still has a workload of the role in its zone, and it leaves. */
  predicate LastInItsZone(w: World, node: NodeId, cluster: ClusterId, role: string, zones: seq<Zone>, zone: Zone) {
    var left := HostZone(w, node);
    && left.Some? && left.value != zone && left.value in zones
    && forall x :: x in w.workloads && x.cluster == cluster && x.role == role && HostZone(w, x.node) == left ==> x.node == node
  }

  lemma CoverageIsLostExactlyWhen(w: World, node: NodeId, cluster: ClusterId, role: string, zones: seq<Zone>, zone: Zone)
    requires Covers(w, cluster, role, zones)
    ensures Covers(Moved(w, node, zone), cluster, role, zones) <==> !LastInItsZone(w, node, cluster, role, zones, zone)
  {
    var after, left := Moved(w, node, zone), HostZone(w, node);
    if LastInItsZone(w, node, cluster, role, zones, zone) {
      assert forall x :: x in after.workloads && x.cluster == cluster && x.role == role ==> HostZone(after, x.node) != left;
    } else {
      forall z | z in zones
        ensures exists x :: x in after.workloads && x.cluster == cluster && x.role == role && HostZone(after, x.node) == Some(z)
      {
        var x :| x in w.workloads && x.cluster == cluster && x.role == role && HostZone(w, x.node) == Some(z);
        if x.node == node && z != zone {
          var y :| y in w.workloads && y.cluster == cluster && y.role == role && HostZone(w, y.node) == left && y.node != node;
          assert HostZone(after, y.node) == Some(z);
        } else {
          assert HostZone(after, x.node) == Some(z);
        }
      }
    }
  }

  /** Every forced cluster has its hot and warm roles, where present, in all zones. */
  ghost predicate Covered(w: World) {
    forall c :: c in w.clusters ==> KeepsCoverage(w, c)
  }

  /** From covered tables a host may change its zone if and only if the zone is
      defined, fits every cluster of the host, none of them is busy, and the host
      is not the last of a hot or warm role in the zone that it leaves. */
  lemma ChangeAcceptedExactlyWhen(w: World, busy: set<ClusterId>, node: NodeId, cluster: ClusterId, zone: Zone)
    requires Covered(w)
    ensures ZoneChangeAccepted(w, busy, node, cluster, zone) <==>
      && cluster in w.clusters && zone in w.clusters[cluster].zones
      && forall m :: m in w.members && m.node == node && m.cluster in w.clusters ==>
           && Fits(w.clusters[m.cluster], zone) && m.cluster !in busy
           && (w.clusters[m.cluster].mode == ForcedAwareness ==> forall role :: role in ["hot", "warm"] && Present(w, m.cluster, role) ==>
                 !LastInItsZone(w, node, m.cluster, role, w.clusters[m.cluster].zones, zone))
  {
    forall c | c in w.clusters
      ensures KeepsCoverage(Moved(w, node, zone), c) <==>
        (w.clusters[c].mode == ForcedAwareness ==> forall role :: role in ["hot", "warm"] && Present(w, c, role) ==>
          !LastInItsZone(w, node, c, role, w.clusters[c].zones, zone))
    {
      CoverageKeptExactlyWhen(w, node, c, zone);
    }
  }

  lemma CoverageKeptExactlyWhen(w: World, node: NodeId, c: ClusterId, zone: Zone)
    requires c in w.clusters && KeepsCoverage(w, c)
    ensures KeepsCoverage(Moved(w, node, zone), c) <==>
      (w.clusters[c].mode == ForcedAwareness ==> forall role :: role in ["hot", "warm"] && Present(w, c, role) ==>
        !LastInItsZone(w, node, c, role, w.clusters[c].zones, zone))
  {
    hide Covers, LastInItsZone;
    if w.clusters[c].mode == ForcedAwareness {
      forall role | role in ["hot", "warm"] && Present(w, c, role)
        ensures Present(Moved(w, node, zone), c, role)
        ensures Covers(Moved(w, node, zone), c, role, w.clusters[c].zones) <==> !LastInItsZone(w, node, c, role, w.clusters[c].zones, zone)
      {
        CoverageIsLostExactlyWhen(w, node, c, role, w.clusters[c].zones, zone);
      }
      assert forall role :: Present(Moved(w, node, zone), c, role) ==> Present(w, c, role);
    }
  }

  // Runs. A host zone change is two steps: the request commits the new zone, and
  // a background task later finishes, or restores the zone that was there before.

  datatype Event =
    | CreateCluster(cluster: ClusterId, zoning: Zoning)
    | EditZoning(cluster: ClusterId, zoning: Zoning)
    | EnrollHost(node: NodeId, cluster: ClusterId, initial: Option<Zone>)
    | AddMember(cluster: ClusterId, node: NodeId)
    | RemoveMember(cluster: ClusterId, node: NodeId)
    | SetHostZone(node: NodeId, cluster: ClusterId, zone: Zone, following: bool)
    | FinishChange(change: nat, reconciled: bool)
    | SetWorkloads(workloads: seq<Workload>)

  /** A change whose workloads are still following, and the zone to restore. */
  datatype Change = Change(node: NodeId, previous: Option<Zone>)

  datatype State = State(w: World, changes: seq<Change>)

  /** A host may join a cluster. */
  predicate HostZoneAccepted(w: World, cluster: ClusterId, node: NodeId) {
    cluster in w.clusters && node in w.hosts &&
    (w.clusters[cluster].mode == Disabled || (w.hosts[node].Some? && w.hosts[node].value in w.clusters[cluster].zones))
  }

  function Restored(w: World, c: Change): World {
    if c.node in w.hosts then w.(hosts := w.hosts[c.node := c.previous]) else w
  }

  /** One request or the end of one task; a refused request changes nothing. */
  function Step(s: State, busy: set<ClusterId>, e: Event): State {
    var w := s.w;
    match e
    case CreateCluster(cluster, zoning) =>
      if cluster in w.clusters || (exists m :: m in w.members && m.cluster == cluster) then s
      else s.(w := w.(clusters := w.clusters[cluster := zoning]))
    case EditZoning(cluster, zoning) =>
      if cluster in w.clusters && CatalogAccepted(w, cluster, zoning) then s.(w := w.(clusters := w.clusters[cluster := zoning])) else s
    case EnrollHost(node, cluster, initial) =>
      if node in w.hosts || (exists m :: m in w.members && m.node == node) then s
      else if initial.Some? && !(cluster in w.clusters && initial.value in w.clusters[cluster].zones) then s
      else s.(w := w.(hosts := w.hosts[node := initial]))
    case AddMember(cluster, node) =>
      if HostZoneAccepted(w, cluster, node) && Membership(cluster, node) !in w.members
      then s.(w := w.(members := w.members + [Membership(cluster, node)])) else s
    case RemoveMember(cluster, node) => s.(w := w.(members := Without(w.members, Membership(cluster, node))))
    case SetHostZone(node, cluster, zone, following) =>
      if node !in w.hosts || !ZoneChangeAccepted(w, busy, node, cluster, zone) || w.hosts[node] == Some(zone) then s
      else State(Moved(w, node, zone), if following then s.changes + [Change(node, w.hosts[node])] else s.changes)
    case FinishChange(i, reconciled) =>
      if i >= |s.changes| then s
      else State(if reconciled then w else Restored(w, s.changes[i]), s.changes[..i] + s.changes[i + 1..])
    case SetWorkloads(workloads) => s.(w := w.(workloads := workloads))
  }

  function Without(members: seq<Membership>, m: Membership): (r: seq<Membership>)
    ensures forall x :: x in r ==> x in members
  {
    if members == [] then [] else (if members[0] == m then [] else [members[0]]) + Without(members[1..], m)
  }

  datatype Timed = Timed(busy: set<ClusterId>, event: Event)

  function Run(s: State, events: seq<Timed>): State
    decreases |events|
  {
    if events == [] then s else Run(Step(s, events[0].busy, events[0].event), events[1..])
  }

  predicate InCatalog(w: World, m: Membership) {
    m.cluster in w.clusters && HostZone(w, m.node).Some? ==> Fits(w.clusters[m.cluster], HostZone(w, m.node).value)
  }

  /** A member host that has a zone is in a zone that its cluster defines, for
      every zone-aware cluster it belongs to. */
  ghost predicate CatalogsHold(w: World) {
    forall m :: m in w.members ==> InCatalog(w, m)
  }

  /** The zone to restore is still one for every known cluster of the host. */
  predicate StillFits(w: World, c: Change) {
    c.previous.Some? ==>
      forall m :: m in w.members && m.node == c.node && m.cluster in w.clusters ==> Fits(w.clusters[m.cluster], c.previous.value)
  }

  /** The exact condition on one restoration, which the task does not check. */
  lemma RestoreKeepsExactlyWhen(w: World, c: Change)
    requires CatalogsHold(w) && c.node in w.hosts
    ensures CatalogsHold(Restored(w, c)) <==> StillFits(w, c)
  {
    var after := Restored(w, c);
    if StillFits(w, c) {
      forall m | m in after.members ensures InCatalog(after, m) {
        assert InCatalog(w, m);
      }
    } else {
      var m :| m in w.members && m.node == c.node && m.cluster in w.clusters && !Fits(w.clusters[m.cluster], c.previous.value);
      assert !InCatalog(after, m);
    }
  }

  predicate Restores(s: State, e: Event) {
    e.FinishChange? && e.change < |s.changes| && !e.reconciled
  }

  lemma StepKeepsCatalogs(s: State, busy: set<ClusterId>, e: Event)
    requires CatalogsHold(s.w) && !Restores(s, e)
    ensures CatalogsHold(Step(s, busy, e).w)
  {
    var after := Step(s, busy, e).w;
    forall m | m in after.members ensures InCatalog(after, m) {
      if m in s.w.members {
        assert InCatalog(s.w, m);
      }
    }
  }

  /** Changes are under way only on enrolled hosts. */
  predicate HostsKnown(s: State) {
    forall i :: 0 <= i < |s.changes| ==> s.changes[i].node in s.w.hosts
  }

  lemma StepKnowsHosts(s: State, busy: set<ClusterId>, e: Event)
    requires HostsKnown(s)
    ensures HostsKnown(Step(s, busy, e))
  {
  }

  ghost predicate HoldsThroughout(s: State, events: seq<Timed>)
    decreases |events|
  {
    CatalogsHold(s.w) && (events == [] || HoldsThroughout(Step(s, events[0].busy, events[0].event), events[1..]))
  }

  predicate RestoresFit(s: State, events: seq<Timed>)
    decreases |events|
  {
    events == [] ||
    (&& (Restores(s, events[0].event) ==> StillFits(s.w, s.changes[events[0].event.change]))
     && RestoresFit(Step(s, events[0].busy, events[0].event), events[1..]))
  }

  /** Main catalog result, for any requests and tasks in any order: every zoned
      member is in its clusters' catalogs at every point of the run if and only
      if each zone that a failed change restores still fits when it is restored. */
  lemma {:induction false} CatalogsHoldExactlyWhen(s: State, events: seq<Timed>)
    requires CatalogsHold(s.w) && HostsKnown(s)
    ensures HoldsThroughout(s, events) <==> RestoresFit(s, events)
    decreases |events|
  {
    if events != [] {
      var busy, e := events[0].busy, events[0].event;
      StepKnowsHosts(s, busy, e);
      if Restores(s, e) {
        RestoreKeepsExactlyWhen(s.w, s.changes[e.change]);
      } else {
        StepKeepsCatalogs(s, busy, e);
      }
      if CatalogsHold(Step(s, busy, e).w) {
        CatalogsHoldExactlyWhen(Step(s, busy, e), events[1..]);
      }
    }
  }

  // A condition on the requests that is enough, and can be checked on each.

  /** The request would also be right for the zones that may yet be restored. */
  predicate Spares(s: State, e: Event) {
    forall i :: 0 <= i < |s.changes| && s.changes[i].previous.Some? ==>
      && (e.EditZoning? && Membership(e.cluster, s.changes[i].node) in s.w.members ==> Fits(e.zoning, s.changes[i].previous.value))
      && (e.AddMember? && e.node == s.changes[i].node && e.cluster in s.w.clusters ==>
            Fits(s.w.clusters[e.cluster], s.changes[i].previous.value))
  }

  predicate SparesAll(s: State, events: seq<Timed>)
    decreases |events|
  {
    events == [] || (Spares(s, events[0].event) && SparesAll(Step(s, events[0].busy, events[0].event), events[1..]))
  }

  predicate ChangesFit(s: State) {
    forall i :: 0 <= i < |s.changes| ==> StillFits(s.w, s.changes[i])
  }

  lemma StepKeepsFit(s: State, busy: set<ClusterId>, e: Event)
    requires CatalogsHold(s.w) && ChangesFit(s) && Spares(s, e)
    ensures ChangesFit(Step(s, busy, e))
  {
    var after := Step(s, busy, e);
    forall i | 0 <= i < |after.changes| ensures StillFits(after.w, after.changes[i]) {
      ChangeStillFits(s, busy, e, after, i);
    }
  }

  lemma ChangeStillFits(s: State, busy: set<ClusterId>, e: Event, after: State, i: nat)
    requires CatalogsHold(s.w) && ChangesFit(s) && Spares(s, e) && after == Step(s, busy, e) && i < |after.changes|
    ensures StillFits(after.w, after.changes[i])
  {
    var c := after.changes[i];
    if j :| 0 <= j < |s.changes| && s.changes[j] == c {
      assert StillFits(s.w, s.changes[j]);
    } else {
      assert e.SetHostZone? && c == Change(e.node, s.w.hosts[e.node]);
      forall m | m in s.w.members && m.node == e.node && c.previous.Some? && m.cluster in s.w.clusters
        ensures Fits(s.w.clusters[m.cluster], c.previous.value)
      {
        assert InCatalog(s.w, m);
      }
    }
  }

  /** If every zoning edit and every new membership also fits the zones that may
      yet be restored, the catalogs hold at every point of the run. */
  lemma {:induction false} ZonesStayInCatalogs(s: State, events: seq<Timed>)
    requires CatalogsHold(s.w) && HostsKnown(s) && ChangesFit(s) && SparesAll(s, events)
    ensures HoldsThroughout(s, events)
    decreases |events|
  {
    if events != [] {
      var busy, e := events[0].busy, events[0].event;
      StepKnowsHosts(s, busy, e);
      StepKeepsFit(s, busy, e);
      if Restores(s, e) {
        RestoreKeepsExactlyWhen(s.w, s.changes[e.change]);
      } else {
        StepKeepsCatalogs(s, busy, e);
      }
      ZonesStayInCatalogs(Step(s, busy, e), events[1..]);
    }
  }

  /** Without that condition they need not: a catalog edit between setting a
      host's zone and restoring the old one sees the new zone only, may drop the
      old one, and leaves the restored host outside. */
  lemma RestoreAfterEditBreaks(node: NodeId, cluster: ClusterId, first: Zone, second: Zone, other: Zone)
    requires first != second && second != other && first != other
    ensures
      var w := World(map[cluster := Zoning(Awareness, [first, second])], map[node := Some(first)], [Membership(cluster, node)], []);
      var run := [Timed({}, SetHostZone(node, cluster, second, true)), Timed({}, EditZoning(cluster, Zoning(Awareness, [second, other]))),
                  Timed({}, FinishChange(0, false))];
      CatalogsHold(w) && CatalogsHold(Run(State(w, []), run[..2]).w) && !CatalogsHold(Run(State(w, []), run).w)
  {
    var w := World(map[cluster := Zoning(Awareness, [first, second])], map[node := Some(first)], [Membership(cluster, node)], []);
    var edit := EditZoning(cluster, Zoning(Awareness, [second, other]));
    var run := [Timed({}, SetHostZone(node, cluster, second, true)), Timed({}, edit), Timed({}, FinishChange(0, false))];
    SetFirst(w, node, cluster, first, second);
    var moved := State(Moved(w, node, second), [Change(node, Some(first))]);
    EditNext(moved, cluster, node, first, second, other);
    RunOf(State(w, []), run);
    RunOf(moved, run[1..]);
    RunOf(State(w, []), run[..2]);
    RunOf(moved, run[..2][1..]);
    var edited := Step(moved, {}, edit);
    RunOf(edited, run[1..][1..]);
    RestoreKeepsExactlyWhen(edited.w, edited.changes[0]);
  }

  lemma RunOf(s: State, events: seq<Timed>)
    requires events != []
    ensures var next := Step(s, events[0].busy, events[0].event);
      Run(s, events) == Run(next, events[1..]) && (|events| == 1 ==> Run(s, events) == next)
  {
    hide Step;
    if |events| == 1 { assert events[1..] == []; }
  }

  lemma SetFirst(w: World, node: NodeId, cluster: ClusterId, first: Zone, second: Zone)
    requires first != second
    requires w == World(map[cluster := Zoning(Awareness, [first, second])], map[node := Some(first)], [Membership(cluster, node)], [])
    ensures CatalogsHold(w)
    ensures Step(State(w, []), {}, SetHostZone(node, cluster, second, true)) == State(Moved(w, node, second), [Change(node, Some(first))])
  {
    assert second in w.clusters[cluster].zones && first in w.clusters[cluster].zones;
  }

  lemma EditNext(s: State, cluster: ClusterId, node: NodeId, first: Zone, second: Zone, other: Zone)
    requires first != second && first != other && cluster in s.w.clusters && node in s.w.hosts && s.w.hosts[node] == Some(second)
    requires s.w.members == [Membership(cluster, node)] && s.changes == [Change(node, Some(first))]
    ensures var after := Step(s, {}, EditZoning(cluster, Zoning(Awareness, [second, other])));
      && CatalogsHold(after.w) && after.changes == s.changes && node in after.w.hosts && !StillFits(after.w, s.changes[0])
  {
    var zoning := Zoning(Awareness, [second, other]);
    assert second in zoning.zones && first !in zoning.zones;
    assert CatalogAccepted(s.w, cluster, zoning);
    assert Membership(cluster, node) in s.w.members;
  }
}
