/** Port conflicts: three checks, each with its own view of the workload table,
    that together keep every host's ports exclusive. */
module PortPolicy {
  import opened Wrappers
  import opened Ports

  type ClusterId = nat
  type NodeId = nat

  /** A workload that is active or being applied. */
  datatype Row = Row(cluster: ClusterId, node: NodeId, role: Role)

  datatype World = World(clusters: map<ClusterId, Profile>, rows: seq<Row>)

  predicate Overlap(a: seq<int>, b: seq<int>) {
    exists port :: port in a && port in b
  }

  /** Two workloads of known clusters share a port of their host. */
  predicate Clash(clusters: map<ClusterId, Profile>, a: Row, b: Row) {
    && a.node == b.node && a.cluster in clusters && b.cluster in clusters
    && Overlap(RolePortValues(clusters[a.cluster], a.role), RolePortValues(clusters[b.cluster], b.role))
  }

  predicate CrossExclusive(clusters: map<ClusterId, Profile>, rows: seq<Row>) {
    forall i, j :: 0 <= i < |rows| && 0 <= j < |rows| && rows[i].cluster != rows[j].cluster ==> !Clash(clusters, rows[i], rows[j])
  }

  /** No two workloads on one host share a port, within or across clusters. */
  predicate Exclusive(clusters: map<ClusterId, Profile>, rows: seq<Row>) {
    forall i, j :: 0 <= i < j < |rows| ==> !Clash(clusters, rows[i], rows[j])
  }

  method Intersects(a: seq<int>, b: seq<int>) returns (r: bool)
    ensures r <==> Overlap(a, b)
  {
    for i := 0 to |a|
      invariant forall k :: 0 <= k < i ==> a[k] !in b
    {
      if a[i] in b {
        var port := a[i];
        assert port in a && port in b;
        return true;
      }
    }
    return false;
  }

  /** A cluster's new profile against every workload of every cluster. */
  method ProfileConflict(w: World, cluster: ClusterId, ports: Profile) returns (conflict: Option<ClusterId>)
    requires cluster in w.clusters
    ensures conflict.None? <==> CrossExclusive(w.clusters[cluster := ports], w.rows)
  {
    ghost var after := w.clusters[cluster := ports];
    for i := 0 to |w.rows|
      invariant forall p, q :: 0 <= p < i && 0 <= q < |w.rows| && w.rows[p].cluster != w.rows[q].cluster ==> !Clash(after, w.rows[p], w.rows[q])
    {
      conflict := ConflictOf(w, cluster, ports, w.rows[i]);
      if conflict.Some? { return; }
    }
    return None;
  }

  method ConflictOf(w: World, cluster: ClusterId, ports: Profile, left: Row) returns (conflict: Option<ClusterId>)
    requires cluster in w.clusters
    ensures conflict.None? <==>
      forall q :: 0 <= q < |w.rows| && left.cluster != w.rows[q].cluster ==> !Clash(w.clusters[cluster := ports], left, w.rows[q])
  {
    ghost var after := w.clusters[cluster := ports];
    if left.cluster !in w.clusters { return None; }
    var leftPorts := if left.cluster == cluster then ports else w.clusters[left.cluster];
    for j := 0 to |w.rows|
      invariant forall q :: 0 <= q < j && left.cluster != w.rows[q].cluster ==> !Clash(after, left, w.rows[q])
    {
      var right := w.rows[j];
      if left.node == right.node && right.cluster != left.cluster && right.cluster in w.clusters {
        var rightPorts := if right.cluster == cluster then ports else w.clusters[right.cluster];
        var shared := Intersects(RolePortValues(leftPorts, left.role), RolePortValues(rightPorts, right.role));
        if shared {
          assert Clash(after, left, w.rows[j]);
          return Some(right.cluster);
        }
      }
    }
    return None;
  }

  /** One new workload against the other clusters' workloads on its host. */
  method ConflictMessage(w: World, added: Row) returns (conflict: Option<ClusterId>)
    requires added.cluster in w.clusters
    ensures conflict.None? <==> forall i :: 0 <= i < |w.rows| && w.rows[i].cluster != added.cluster ==> !Clash(w.clusters, added, w.rows[i])
  {
    if FieldsOf(added.role) == [] { return None; }
    var used := RolePortValues(w.clusters[added.cluster], added.role);
    for i := 0 to |w.rows|
      invariant forall k :: 0 <= k < i && w.rows[k].cluster != added.cluster ==> !Clash(w.clusters, added, w.rows[k])
    {
      var row := w.rows[i];
      if row.node == added.node && row.cluster != added.cluster && row.cluster in w.clusters {
        var shared := Intersects(used, RolePortValues(w.clusters[row.cluster], row.role));
        if shared { return Some(row.cluster); }
      }
    }
    return None;
  }

  // The final check of a change set: one cluster's workloads, host by host.

  function OnNode(rows: seq<Row>, node: NodeId): seq<Row> {
    if rows == [] then []
    else OnNode(rows[..|rows| - 1], node) + if rows[|rows| - 1].node == node then [rows[|rows| - 1]] else []
  }

  lemma {:induction false} PairOnNode(rows: seq<Row>, node: NodeId, i: nat, j: nat) returns (p: nat, q: nat)
    requires i < j < |OnNode(rows, node)|
    ensures p < q < |rows| && rows[p] == OnNode(rows, node)[i] && rows[q] == OnNode(rows, node)[j]
    ensures rows[p].node == node && rows[q].node == node
    decreases |rows|
  {
    var n := |rows| - 1;
    if j < |OnNode(rows[..n], node)| {
      p, q := PairOnNode(rows[..n], node, i, j);
    } else {
      q := n;
      p := AtNode(rows[..n], node, i);
    }
  }

  lemma {:induction false} AtNode(rows: seq<Row>, node: NodeId, i: nat) returns (p: nat)
    requires i < |OnNode(rows, node)|
    ensures p < |rows| && rows[p] == OnNode(rows, node)[i] && rows[p].node == node
    decreases |rows|
  {
    var n := |rows| - 1;
    if i < |OnNode(rows[..n], node)| {
      p := AtNode(rows[..n], node, i);
    } else {
      p := n;
    }
  }

  lemma {:induction false} NodePlace(rows: seq<Row>, p: nat) returns (i: nat)
    requires p < |rows|
    ensures i < |OnNode(rows, rows[p].node)| && OnNode(rows, rows[p].node)[i] == rows[p]
    decreases |rows|
  {
    var n := |rows| - 1;
    if p == n {
      i := |OnNode(rows[..n], rows[p].node)|;
    } else {
      i := NodePlace(rows[..n], p);
    }
  }

  lemma {:induction false} NodePair(rows: seq<Row>, p: nat, q: nat) returns (i: nat, j: nat)
    requires p < q < |rows| && rows[p].node == rows[q].node
    ensures var on := OnNode(rows, rows[p].node); i < j < |on| && on[i] == rows[p] && on[j] == rows[q]
    decreases |rows|
  {
    var n := |rows| - 1;
    if q == n {
      i := NodePlace(rows[..n], p);
      j := |OnNode(rows[..n], rows[p].node)|;
    } else {
      i, j := NodePair(rows[..n], p, q);
    }
  }

  lemma ExclusiveByNode(clusters: map<ClusterId, Profile>, rows: seq<Row>, nodes: set<NodeId>)
    requires forall i :: 0 <= i < |rows| ==> rows[i].node in nodes
    ensures Exclusive(clusters, rows) <==> forall node :: node in nodes ==> Exclusive(clusters, OnNode(rows, node))
  {
    if Exclusive(clusters, rows) {
      forall node, i: nat, j: nat | node in nodes && i < j < |OnNode(rows, node)|
        ensures !Clash(clusters, OnNode(rows, node)[i], OnNode(rows, node)[j])
      {
        var p, q := PairOnNode(rows, node, i, j);
        assert !Clash(clusters, rows[p], rows[q]);
      }
    } else {
      var p, q :| 0 <= p < q < |rows| && Clash(clusters, rows[p], rows[q]);
      var i, j := NodePair(rows, p, q);
      assert Clash(clusters, OnNode(rows, rows[p].node)[i], OnNode(rows, rows[p].node)[j]);
    }
  }

  method ValidateFinalWorkloadPorts(clusters: map<ClusterId, Profile>, cluster: ClusterId, assignments: seq<Row>) returns (ok: bool)
    requires cluster in clusters && forall i :: 0 <= i < |assignments| ==> assignments[i].cluster == cluster
    ensures ok <==> Exclusive(clusters, assignments)
  {
    var byNode := GroupedByNode(assignments);
    ExclusiveByNode(clusters, assignments, byNode.Keys);
    var todo := byNode.Keys;
    while todo != {}
      invariant todo <= byNode.Keys
      invariant forall node :: node in byNode.Keys - todo ==> Exclusive(clusters, OnNode(assignments, node))
      decreases |todo|
    {
      var node :| node in todo;
      forall k | 0 <= k < |byNode[node]| ensures byNode[node][k].cluster == cluster && byNode[node][k].node == node {
        var p := AtNode(assignments, node, k);
      }
      var apart := PairsApart(clusters, cluster, node, byNode[node]);
      if !apart { return false; }
      todo := todo - {node};
    }
    return true;
  }

  lemma NoneOnNode()
    ensures forall node :: OnNode([], node) == []
  {
  }

  lemma OneMoreOnNode(rows: seq<Row>, i: nat)
    requires i < |rows|
    ensures forall node :: OnNode(rows[..i + 1], node) == OnNode(rows[..i], node) + if rows[i].node == node then [rows[i]] else []
  {
    assert rows[..i + 1][..i] == rows[..i];
  }

  method GroupedByNode(assignments: seq<Row>) returns (byNode: map<NodeId, seq<Row>>)
    ensures forall node :: node in byNode ==> byNode[node] == OnNode(assignments, node)
    ensures forall k :: 0 <= k < |assignments| ==> assignments[k].node in byNode
  {
    hide OnNode;
    byNode := map[];
    NoneOnNode();
    for i := 0 to |assignments|
      invariant forall node :: node in byNode ==> byNode[node] == OnNode(assignments[..i], node)
      invariant forall node :: node !in byNode ==> OnNode(assignments[..i], node) == []
      invariant forall k :: 0 <= k < i ==> assignments[k].node in byNode
    {
      var row := assignments[i];
      OneMoreOnNode(assignments, i);
      byNode := byNode[row.node := (if row.node in byNode then byNode[row.node] else []) + [row]];
    }
    assert assignments[..|assignments|] == assignments;
  }

  method PairsApart(clusters: map<ClusterId, Profile>, cluster: ClusterId, node: NodeId, rows: seq<Row>) returns (apart: bool)
    requires cluster in clusters && forall i :: 0 <= i < |rows| ==> rows[i].cluster == cluster && rows[i].node == node
    ensures apart <==> Exclusive(clusters, rows)
  {
    for index := 0 to |rows|
      invariant forall p, q :: 0 <= p < index && p < q < |rows| ==> !Clash(clusters, rows[p], rows[q])
    {
      var left := RolePortValues(clusters[cluster], rows[index].role);
      for other := index + 1 to |rows|
        invariant forall q :: index < q < other ==> !Clash(clusters, rows[index], rows[q])
      {
        var shared := Intersects(left, RolePortValues(clusters[cluster], rows[other].role));
        if shared {
          assert Clash(clusters, rows[index], rows[other]);
          return false;
        }
      }
    }
    return true;
  }

  // Runs of accepted requests.

  /** No create meets another cluster's port on its host. */
  predicate NoConflict(w: World, row: Row) {
    forall i :: 0 <= i < |w.rows| && w.rows[i].cluster != row.cluster ==> !Clash(w.clusters, row, w.rows[i])
  }

  predicate Unique(rows: seq<Row>) {
    forall i, j :: 0 <= i < j < |rows| ==> rows[i] != rows[j]
  }

  datatype Event =
    | CreateCluster(cluster: ClusterId, ports: Profile)
    | UpdatePorts(cluster: ClusterId, ports: Profile)
    | AddAssignment(row: Row)
    | ApplyChanges(cluster: ClusterId, creates: seq<Row>, kept: seq<Row>)
    | Remove(row: Row)

  /** What a change set must pass: its creates are new and free of other
      clusters' ports, and what it leaves of its cluster is exclusive. */
  predicate ChangesAccepted(w: World, cluster: ClusterId, creates: seq<Row>, kept: seq<Row>) {
    && cluster in w.clusters
    && (forall i :: 0 <= i < |creates| ==> creates[i].cluster == cluster && creates[i] !in w.rows && NoConflict(w, creates[i]))
    && Unique(creates) && Exclusive(w.clusters, kept + creates)
  }

  function Without(rows: seq<Row>, row: Row): (r: seq<Row>)
    ensures forall x :: x in r ==> x in rows
  {
    if rows == [] then [] else (if rows[0] == row then [] else [rows[0]]) + Without(rows[1..], row)
  }

  /** One request; a refused one changes nothing. Adding a workload that is
      there already changes only its configuration. */
  function Step(w: World, e: Event): World {
    match e
    case CreateCluster(cluster, ports) =>
      if cluster in w.clusters || !ProfileOk(ports) || (exists row :: row in w.rows && row.cluster == cluster) then w
      else w.(clusters := w.clusters[cluster := ports])
    case UpdatePorts(cluster, ports) =>
      if cluster in w.clusters && ProfileOk(ports) && CrossExclusive(w.clusters[cluster := ports], w.rows)
      then w.(clusters := w.clusters[cluster := ports]) else w
    case AddAssignment(row) =>
      if row.cluster in w.clusters && NoConflict(w, row) && row !in w.rows then w.(rows := w.rows + [row]) else w
    case ApplyChanges(cluster, creates, kept) =>
      if ChangesAccepted(w, cluster, creates, kept) then w.(rows := w.rows + creates) else w
    case Remove(row) => w.(rows := Without(w.rows, row))
  }

  function Run(w: World, events: seq<Event>): World
    decreases |events|
  {
    if events == [] then w else Run(Step(w, events[0]), events[1..])
  }

  predicate ClustersOk(w: World) {
    && (forall c :: c in w.clusters ==> ProfileOk(w.clusters[c]))
    && (forall i :: 0 <= i < |w.rows| ==> w.rows[i].cluster in w.clusters)
  }

  predicate Inv(w: World) {
    ClustersOk(w) && Unique(w.rows) && CrossExclusive(w.clusters, w.rows)
  }

  lemma Slice(profile: Profile, roles: seq<Role>, i: nat)
    requires i < |roles|
    ensures AllPorts(profile, roles[..i]) + RolePortValues(profile, roles[i]) == AllPorts(profile, roles[..i + 1])
    ensures AllPorts(profile, roles[..i + 1]) <= AllPorts(profile, roles)
  {
    assert roles[..i + 1][..i] == roles[..i] && roles[..|roles|] == roles;
    AllPortsGrow(profile, roles, i + 1, |roles|);
  }

  /** In a valid profile two roles share no port. */
  lemma RolesApart(profile: Profile, roles: seq<Role>, i: nat, j: nat)
    requires i < j < |roles| && NoDuplicates(AllPorts(profile, roles))
    ensures !Overlap(RolePortValues(profile, roles[i]), RolePortValues(profile, roles[j]))
  {
    Slice(profile, roles, i);
    Slice(profile, roles, j);
    AllPortsGrow(profile, roles, i + 1, j);
    PiecesApart(AllPorts(profile, roles[..i]), RolePortValues(profile, roles[i]),
                AllPorts(profile, roles[..j]), RolePortValues(profile, roles[j]), AllPorts(profile, roles));
  }

  lemma PiecesApart(first: seq<int>, left: seq<int>, before: seq<int>, right: seq<int>, all: seq<int>)
    requires first + left <= before && before + right <= all && NoDuplicates(all)
    ensures !Overlap(left, right)
  {
    if port :| port in left && port in right {
      var p :| 0 <= p < |left| && left[p] == port;
      var q :| 0 <= q < |right| && right[q] == port;
      SamePort(first, left, before, right, all, p, q);
    }
  }

  lemma SamePort(first: seq<int>, left: seq<int>, before: seq<int>, right: seq<int>, all: seq<int>, p: nat, q: nat)
    requires first + left <= before && before + right <= all && NoDuplicates(all)
    requires p < |left| && q < |right|
    ensures left[p] != right[q]
  {
    assert (first + left)[|first| + p] == before[|first| + p] == (before + right)[|first| + p] == all[|first| + p];
    assert (before + right)[|before| + q] == all[|before| + q];
  }

  lemma RoleIndex(role: Role) returns (i: nat)
    ensures i < |ROLES| && ROLES[i] == role
  {
    i := match role
      case Master => 0 case Hot => 1 case Warm => 2 case Ml => 3 case Ingest => 4 case Coordinating => 5
      case Kibana => 6 case FleetServer => 7 case Logstash => 8 case ElasticAgent => 9;
  }

  lemma DifferentRolesApart(profile: Profile, a: Role, b: Role)
    requires ProfileOk(profile) && a != b
    ensures !Overlap(RolePortValues(profile, a), RolePortValues(profile, b))
  {
    var i := RoleIndex(a);
    var j := RoleIndex(b);
    if i < j {
      RolesApart(profile, ROLES, i, j);
    } else {
      RolesApart(profile, ROLES, j, i);
    }
  }

  lemma InvExclusive(w: World)
    requires Inv(w)
    ensures Exclusive(w.clusters, w.rows)
  {
    forall i, j | 0 <= i < j < |w.rows| ensures !Clash(w.clusters, w.rows[i], w.rows[j]) {
      var a, b := w.rows[i], w.rows[j];
      if a.cluster == b.cluster && a.node == b.node {
        DifferentRolesApart(w.clusters[a.cluster], a.role, b.role);
      }
    }
  }

  lemma ClashSymmetric(clusters: map<ClusterId, Profile>, a: Row, b: Row)
    ensures Clash(clusters, a, b) <==> Clash(clusters, b, a)
  {
    if Clash(clusters, a, b) {
      var port :| port in RolePortValues(clusters[a.cluster], a.role) && port in RolePortValues(clusters[b.cluster], b.role);
    }
    if Clash(clusters, b, a) {
      var port :| port in RolePortValues(clusters[a.cluster], a.role) && port in RolePortValues(clusters[b.cluster], b.role);
    }
  }

  /** Rows of one cluster that conflict with no other cluster's may be added. */
  lemma AddedCross(w: World, cluster: ClusterId, creates: seq<Row>)
    requires CrossExclusive(w.clusters, w.rows)
    requires forall i :: 0 <= i < |creates| ==> creates[i].cluster == cluster && NoConflict(w, creates[i])
    ensures CrossExclusive(w.clusters, w.rows + creates)
  {
    var all := w.rows + creates;
    forall i, j | 0 <= i < |all| && 0 <= j < |all| && all[i].cluster != all[j].cluster ensures !Clash(w.clusters, all[i], all[j]) {
      ClashSymmetric(w.clusters, all[i], all[j]);
      if i < |w.rows| && j < |w.rows| {
      } else if i >= |w.rows| {
        assert NoConflict(w, creates[i - |w.rows|]);
      } else {
        assert NoConflict(w, creates[j - |w.rows|]);
      }
    }
  }

  lemma AddedUnique(rows: seq<Row>, creates: seq<Row>)
    requires Unique(rows) && Unique(creates) && forall i :: 0 <= i < |creates| ==> creates[i] !in rows
    ensures Unique(rows + creates)
  {
    var all := rows + creates;
    forall i, j | 0 <= i < j < |all| ensures all[i] != all[j] {
      if i < |rows| <= j {
        assert all[i] in rows;
      }
    }
  }

  lemma RemovedCross(clusters: map<ClusterId, Profile>, rows: seq<Row>, fewer: seq<Row>)
    requires CrossExclusive(clusters, rows) && forall x :: x in fewer ==> x in rows
    ensures CrossExclusive(clusters, fewer)
  {
    forall i, j | 0 <= i < |fewer| && 0 <= j < |fewer| && fewer[i].cluster != fewer[j].cluster ensures !Clash(clusters, fewer[i], fewer[j]) {
      assert fewer[i] in rows && fewer[j] in rows;
      var p :| 0 <= p < |rows| && rows[p] == fewer[i];
      var q :| 0 <= q < |rows| && rows[q] == fewer[j];
      assert !Clash(clusters, rows[p], rows[q]);
    }
  }

  lemma StepKeeps(w: World, e: Event)
    requires Inv(w)
    ensures Inv(Step(w, e))
  {
    match e
    case CreateCluster(cluster, ports) =>
      if Step(w, e) != w {
        var after := w.clusters[cluster := ports];
        forall i, j | 0 <= i < |w.rows| && 0 <= j < |w.rows| && w.rows[i].cluster != w.rows[j].cluster ensures !Clash(after, w.rows[i], w.rows[j]) {
          assert w.rows[i] in w.rows && w.rows[j] in w.rows;
          assert !Clash(w.clusters, w.rows[i], w.rows[j]);
        }
      }
    case UpdatePorts(_, _) =>
    case AddAssignment(row) =>
      if Step(w, e) != w {
        AddedCross(w, row.cluster, [row]);
        AddedUnique(w.rows, [row]);
      }
    case ApplyChanges(cluster, creates, kept) =>
      if ChangesAccepted(w, cluster, creates, kept) {
        AddedCross(w, cluster, creates);
        AddedUnique(w.rows, creates);
      }
    case Remove(row) =>
      RemovedCross(w.clusters, w.rows, Without(w.rows, row));
      WithoutUnique(w.rows, row);
      WithoutKnown(w, row);
  }

  lemma {:induction false} WithoutUnique(rows: seq<Row>, row: Row)
    requires Unique(rows)
    ensures Unique(Without(rows, row))
    decreases |rows|
  {
    if rows != [] {
      WithoutUnique(rows[1..], row);
      var rest := Without(rows[1..], row);
      forall k | 0 <= k < |rest| ensures rest[k] != rows[0] {
        assert rest[k] in rows[1..];
      }
    }
  }

  lemma WithoutKnown(w: World, row: Row)
    requires ClustersOk(w)
    ensures ClustersOk(w.(rows := Without(w.rows, row)))
  {
    var fewer := Without(w.rows, row);
    forall i | 0 <= i < |fewer| ensures fewer[i].cluster in w.clusters {
      assert fewer[i] in w.rows;
    }
  }

  lemma {:induction false} RunKeeps(w: World, events: seq<Event>)
    requires Inv(w)
    ensures Inv(Run(w, events))
    decreases |events|
  {
    if events != [] {
      StepKeeps(w, events[0]);
      RunKeeps(Step(w, events[0]), events[1..]);
    }
  }

  /** Main port result. From empty tables and after any sequence of accepted
      cluster updates and workload additions, no two workloads on one host share
      a port, within a cluster or across clusters. */
  lemma PortsStayExclusive(events: seq<Event>)
    ensures var w := Run(World(map[], []), events); Exclusive(w.clusters, w.rows)
  {
    RunKeeps(World(map[], []), events);
    InvExclusive(Run(World(map[], []), events));
  }
}
