/** Plan compilation: the canonical form of a value, the hash of a plan, and the
    normal form that makes both independent of the order of the inputs. */
module Planning {
  import opened Wrappers

  /** A field name or text, by its place in the string order. */
  type Name = int

  datatype Entry = Entry(name: Name, value: Value)

  /** A value as the planner holds it: `Record` is a model instance, `Dict` what
      dumping one gives. */
  datatype Value =
    | Null
    | Bool(b: bool)
    | Int(i: int)
    | Str(s: Name)
    | Time(instant: int, offset: Option<int>)
    | Member(value: Name)
    | Dict(entries: seq<Entry>)
    | Record(fields: seq<Entry>)
    | Items(items: seq<Value>)
    | Unsupported

  datatype CanonEntry = CanonEntry(name: Name, value: Canon)
  datatype Canon =
    | CNull | CBool(b: bool) | CInt(i: int) | CStr(s: Name) | CTime(instant: int)
    | CObject(entries: seq<CanonEntry>) | CArray(items: seq<Canon>)

  /** An injective hash. */
  datatype Digest = Digest(of: Canon)

  // Sorting by a key.

  function InsertedBy<T>(key: T -> int, x: T, sorted: seq<T>): seq<T> {
    if sorted == [] || key(x) <= key(sorted[0]) then [x] + sorted else [sorted[0]] + InsertedBy(key, x, sorted[1..])
  }

  /** Stable, like the sort it stands for. */
  function SortedBy<T>(key: T -> int, xs: seq<T>): seq<T> {
    if xs == [] then [] else InsertedBy(key, xs[0], SortedBy(key, xs[1..]))
  }

  predicate KeysDiffer<T>(key: T -> int, xs: seq<T>) {
    forall i, j :: 0 <= i < j < |xs| ==> key(xs[i]) != key(xs[j])
  }

  predicate Rising<T>(key: T -> int, xs: seq<T>) {
    |xs| >= 2 ==> key(xs[0]) <= key(xs[1]) && Rising(key, xs[1..])
  }

  lemma {:induction false} InsertedFacts<T>(key: T -> int, x: T, sorted: seq<T>)
    requires Rising(key, sorted)
    ensures multiset(InsertedBy(key, x, sorted)) == multiset(sorted) + multiset{x}
    ensures Rising(key, InsertedBy(key, x, sorted))
    decreases |sorted|
  {
    if sorted == [] || key(x) <= key(sorted[0]) {
      assert InsertedBy(key, x, sorted)[1..] == sorted;
    } else {
      InsertedFacts(key, x, sorted[1..]);
      assert sorted == [sorted[0]] + sorted[1..];
      assert InsertedBy(key, x, sorted)[1..] == InsertedBy(key, x, sorted[1..]);
    }
  }

  lemma {:induction false} SortedFacts<T>(key: T -> int, xs: seq<T>)
    ensures multiset(SortedBy(key, xs)) == multiset(xs) && Rising(key, SortedBy(key, xs))
    decreases |xs|
  {
    if xs != [] {
      SortedFacts(key, xs[1..]);
      InsertedFacts(key, xs[0], SortedBy(key, xs[1..]));
      assert xs == [xs[0]] + xs[1..];
    }
  }

  lemma {:induction false} HeadIsLeast<T>(key: T -> int, xs: seq<T>, i: nat)
    requires Rising(key, xs) && i < |xs|
    ensures key(xs[0]) <= key(xs[i])
    decreases i
  {
    if i > 0 {
      HeadIsLeast(key, xs[1..], i - 1);
    }
  }

  predicate KeyNames<T(==)>(key: T -> int, xs: seq<T>) {
    forall x, y :: x in xs && y in xs && key(x) == key(y) ==> x == y
  }

  lemma SameHead<T>(key: T -> int, a: seq<T>, b: seq<T>)
    requires Rising(key, a) && Rising(key, b) && multiset(a) == multiset(b) && KeyNames(key, a) && a != []
    ensures b != [] && a[0] == b[0]
  {
    assert a[0] in multiset(a);
    var i :| 0 <= i < |b| && b[i] == a[0];
    assert b[0] in multiset(b);
    var j :| 0 <= j < |a| && a[j] == b[0];
    HeadIsLeast(key, b, i);
    HeadIsLeast(key, a, j);
    assert a[0] in a && a[j] in a;
  }

  lemma TailBag<T>(a: seq<T>)
    requires a != []
    ensures multiset(a[1..]) == multiset(a) - multiset{a[0]}
  {
    assert a == [a[0]] + a[1..];
  }

  /** Two sorted lists of the same items, whose keys tell them apart, are equal. */
  lemma {:induction false} SortedUnique<T>(key: T -> int, a: seq<T>, b: seq<T>)
    requires Rising(key, a) && Rising(key, b) && multiset(a) == multiset(b) && KeyNames(key, a)
    ensures a == b
    decreases |a|
  {
    if a == [] {
      assert |multiset(b)| == 0;
    } else {
      SameHead(key, a, b);
      TailBag(a);
      TailBag(b);
      SortedUnique(key, a[1..], b[1..]);
    }
  }

  lemma DifferentKeysName<T>(key: T -> int, xs: seq<T>)
    requires KeysDiffer(key, xs)
    ensures KeyNames(key, xs)
  {
    forall x, y | x in xs && y in xs && key(x) == key(y) ensures x == y {
      var i :| 0 <= i < |xs| && xs[i] == x;
      var j :| 0 <= j < |xs| && xs[j] == y;
      assert !(i < j) && !(j < i);
    }
  }

  /** Sorting forgets the order of items with different keys. */
  lemma SortForgetsOrder<T>(key: T -> int, xs: seq<T>, ys: seq<T>)
    requires multiset(xs) == multiset(ys) && KeysDiffer(key, xs)
    ensures SortedBy(key, xs) == SortedBy(key, ys)
  {
    SortedFacts(key, xs);
    SortedFacts(key, ys);
    DifferentKeysName(key, xs);
    forall x | x in SortedBy(key, xs) ensures x in xs {
      assert x in multiset(SortedBy(key, xs));
    }
    SortedUnique(key, SortedBy(key, xs), SortedBy(key, ys));
  }

  /** Whether keys differ does not depend on the order either. */
  lemma {:induction false} DifferForgetsOrder<T>(key: T -> int, xs: seq<T>, ys: seq<T>)
    requires multiset(xs) == multiset(ys) && KeysDiffer(key, xs)
    ensures KeysDiffer(key, ys)
    decreases |ys|
  {
    forall i, j | 0 <= i < j < |ys| ensures key(ys[i]) != key(ys[j]) {
      var a, b := ys[i], ys[j];
      assert ys == ys[..i] + [a] + ys[i + 1..j] + [b] + ys[j + 1..];
      assert multiset(ys)[b] >= 1 && multiset(ys)[a] >= 1;
      assert a in multiset(xs) && b in multiset(xs);
      var p :| 0 <= p < |xs| && xs[p] == a;
      var q :| 0 <= q < |xs| && xs[q] == b;
      if a == b {
        TwiceMeansTwo(ys, a, i, j);
        TwoPlaces(xs, a, p);
      }
      if p < q { assert key(xs[p]) != key(xs[q]); }
      if q < p { assert key(xs[q]) != key(xs[p]); }
    }
  }

  lemma TwiceMeansTwo<T>(ys: seq<T>, a: T, i: nat, j: nat)
    requires i < j < |ys| && ys[i] == a && ys[j] == a
    ensures multiset(ys)[a] >= 2
  {
    assert ys == ys[..j] + ys[j..];
    assert multiset(ys) == multiset(ys[..j]) + multiset(ys[j..]);
    assert ys[..j][i] == a && ys[j..][0] == a;
    assert a in ys[..j] && a in ys[j..];
  }

  lemma TwoPlaces<T>(xs: seq<T>, a: T, p: nat)
    requires p < |xs| && xs[p] == a && multiset(xs)[a] >= 2
    ensures exists q :: 0 <= q < |xs| && q != p && xs[q] == a
  {
    assert xs == xs[..p] + [a] + xs[p + 1..];
    assert multiset(xs) == multiset(xs[..p]) + multiset{a} + multiset(xs[p + 1..]);
    if a in xs[..p] {
      var q :| 0 <= q < p && xs[..p][q] == a;
    } else {
      assert a in multiset(xs[p + 1..]);
      var q :| 0 <= q < |xs[p + 1..]| && xs[p + 1..][q] == a;
      assert xs[p + 1 + q] == a;
    }
  }

  // Dumping and canonicalising.

  function Dump(v: Value): Value {
    match v
    case Dict(entries) => Dict(DumpEntries(entries))
    case Record(fields) => Dict(DumpEntries(fields))
    case Items(items) => Items(DumpItems(items))
    case _ => v
  }

  function DumpEntries(entries: seq<Entry>): (r: seq<Entry>)
    ensures |r| == |entries|
  {
    if entries == [] then [] else [DumpEntry(entries[0])] + DumpEntries(entries[1..])
  }

  function DumpEntry(e: Entry): Entry {
    Entry(e.name, Dump(e.value))
  }

  function DumpItems(items: seq<Value>): (r: seq<Value>)
    ensures |r| == |items|
  {
    if items == [] then [] else [Dump(items[0])] + DumpItems(items[1..])
  }

  function EntryName(e: CanonEntry): int { e.name }

  /** None where the source raises: a time without a zone, an unknown type. A
      record is read as the dictionary of its fields; that dumping it first would
      give the same is DumpIsInvisible. */
  function Canonical(v: Value): Option<Canon> {
    match v
    case Null => Some(CNull)
    case Bool(b) => Some(CBool(b))
    case Int(i) => Some(CInt(i))
    case Str(s) => Some(CStr(s))
    case Time(instant, offset) => if offset.None? then None else Some(CTime(instant))
    case Member(value) => Some(CStr(value))
    case Dict(entries) =>
      var r := CanonicalEntries(entries);
      if r.None? then None else Some(CObject(SortedBy(EntryName, r.value)))
    case Record(fields) =>
      var r := CanonicalEntries(fields);
      if r.None? then None else Some(CObject(SortedBy(EntryName, r.value)))
    case Items(items) =>
      var r := CanonicalItems(items);
      if r.None? then None else Some(CArray(r.value))
    case Unsupported => None
  }

  function CanonicalEntries(entries: seq<Entry>): Option<seq<CanonEntry>> {
    if entries == [] then Some([])
    else
      var first, rest := CanonicalEntry(entries[0]), CanonicalEntries(entries[1..]);
      if first.None? || rest.None? then None else Some([first.value] + rest.value)
  }

  function CanonicalEntry(e: Entry): Option<CanonEntry> {
    var r := Canonical(e.value);
    if r.None? then None else Some(CanonEntry(e.name, r.value))
  }

  function CanonicalItems(items: seq<Value>): Option<seq<Canon>> {
    if items == [] then Some([])
    else
      var first, rest := Canonical(items[0]), CanonicalItems(items[1..]);
      if first.None? || rest.None? then None else Some([first.value] + rest.value)
  }

  /** The canonical form of a value is the canonical form of its dump, however
      deep the records in it lie. */
  lemma {:induction false} DumpIsInvisible(v: Value)
    ensures Canonical(Dump(v)) == Canonical(v)
  {
    match v
    case Dict(entries) => DumpedEntries(entries);
    case Record(fields) => DumpedEntries(fields);
    case Items(items) => DumpedItems(items);
    case _ =>
  }

  lemma {:induction false} DumpedEntries(entries: seq<Entry>)
    ensures CanonicalEntries(DumpEntries(entries)) == CanonicalEntries(entries)
  {
    if entries != [] {
      DumpedEntry(entries[0]);
      DumpedEntries(entries[1..]);
      assert DumpEntries(entries)[1..] == DumpEntries(entries[1..]);
    }
  }

  lemma {:induction false} DumpedEntry(e: Entry)
    ensures CanonicalEntry(DumpEntry(e)) == CanonicalEntry(e)
  {
    DumpIsInvisible(e.value);
  }

  lemma {:induction false} DumpedItems(items: seq<Value>)
    ensures CanonicalItems(DumpItems(items)) == CanonicalItems(items)
  {
    if items != [] {
      DumpIsInvisible(items[0]);
      DumpedItems(items[1..]);
      assert DumpItems(items)[1..] == DumpItems(items[1..]);
    }
  }

  // Plans.

  datatype Step = Step(sequence: int, rest: seq<Entry>)
  datatype Boundary = Boundary(beforeStep: int, rest: seq<Entry>)
  datatype Predicate = Predicate(identifier: Name, rest: seq<Entry>)

  /** An item of a snapshot collection: its identifier and everything else. */
  datatype Item = Item(identifier: int, rest: seq<Entry>)

  datatype Snapshot = Snapshot(
    capturedAt: Value, capability: Value,
    sources: seq<Item>, hosts: seq<Item>, clusters: seq<Item>, workloads: seq<Item>,
    revisions: seq<Item>, policies: seq<Item>, conflicts: seq<int>)

  function ById(item: Item): int { item.identifier }
  function BySequence(step: Step): int { step.sequence }
  function ByStep(b: Boundary): int { b.beforeStep }
  function ByName(p: Predicate): int { p.identifier }
  function Self(i: int): int { i }

  /** A sorted set: each member once. */
  function SortedSet(xs: seq<int>): seq<int> {
    if xs == [] then []
    else if xs[0] in xs[1..] then SortedSet(xs[1..])
    else InsertedBy(Self, xs[0], SortedSet(xs[1..]))
  }

  /** The normal form of a snapshot; one with a repeated identifier is refused. */
  function Normalized(s: Snapshot): Option<Snapshot> {
    if !Distinct(s) then None
    else Some(s.(
      sources := SortedBy(ById, s.sources), hosts := SortedBy(ById, s.hosts), clusters := SortedBy(ById, s.clusters),
      workloads := SortedBy(ById, s.workloads), revisions := SortedBy(ById, s.revisions),
      policies := SortedBy(ById, s.policies), conflicts := SortedSet(s.conflicts)))
  }

  predicate Distinct(s: Snapshot) {
    && KeysDiffer(ById, s.sources) && KeysDiffer(ById, s.hosts) && KeysDiffer(ById, s.clusters)
    && KeysDiffer(ById, s.workloads) && KeysDiffer(ById, s.revisions) && KeysDiffer(ById, s.policies)
  }

  /** The same snapshot with its collections in another order. */
  ghost predicate Reordered(a: Snapshot, b: Snapshot) {
    && a.capturedAt == b.capturedAt && a.capability == b.capability
    && multiset(a.sources) == multiset(b.sources) && multiset(a.hosts) == multiset(b.hosts)
    && multiset(a.clusters) == multiset(b.clusters) && multiset(a.workloads) == multiset(b.workloads)
    && multiset(a.revisions) == multiset(b.revisions) && multiset(a.policies) == multiset(b.policies)
    && (forall x :: x in a.conflicts <==> x in b.conflicts)
  }

  lemma {:induction false} SortedSetFacts(xs: seq<int>)
    ensures forall x :: x in SortedSet(xs) <==> x in xs
    ensures Rising(Self, SortedSet(xs)) && KeysDiffer(Self, SortedSet(xs))
    decreases |xs|
  {
    if xs != [] {
      SortedSetFacts(xs[1..]);
      assert xs == [xs[0]] + xs[1..];
      if xs[0] !in xs[1..] {
        InsertedFacts(Self, xs[0], SortedSet(xs[1..]));
        InsertedSet(xs[0], SortedSet(xs[1..]));
      }
    }
  }

  lemma InsertedSet(x: int, sorted: seq<int>)
    requires Rising(Self, sorted) && KeysDiffer(Self, sorted) && x !in sorted
    ensures var r := InsertedBy(Self, x, sorted); KeysDiffer(Self, r) && forall y :: y in r <==> y == x || y in sorted
  {
    var r := InsertedBy(Self, x, sorted);
    InsertedFacts(Self, x, sorted);
    assert multiset(r) == multiset([x] + sorted);
    DifferForgetsOrder(Self, [x] + sorted, r);
    forall y ensures y in r <==> y == x || y in sorted {
      assert y in r <==> y in multiset(r);
    }
  }

  lemma {:induction false} BagOfDifferent(xs: seq<int>)
    requires KeysDiffer(Self, xs)
    ensures forall x :: multiset(xs)[x] == if x in xs then 1 else 0
    decreases |xs|
  {
    if xs != [] {
      BagOfDifferent(xs[1..]);
      assert xs == [xs[0]] + xs[1..];
      assert xs[0] !in xs[1..];
    }
  }

  lemma SortedSetForgets(xs: seq<int>, ys: seq<int>)
    requires forall x :: x in xs <==> x in ys
    ensures SortedSet(xs) == SortedSet(ys)
  {
    SortedSetFacts(xs);
    SortedSetFacts(ys);
    BagOfDifferent(SortedSet(xs));
    BagOfDifferent(SortedSet(ys));
    forall x ensures multiset(SortedSet(xs))[x] == multiset(SortedSet(ys))[x] {
    }
    assert multiset(SortedSet(xs)) == multiset(SortedSet(ys));
    DifferentKeysName(Self, SortedSet(xs));
    SortedUnique(Self, SortedSet(xs), SortedSet(ys));
  }

  lemma DistinctForgets(a: Snapshot, b: Snapshot)
    requires Reordered(a, b) && Distinct(a)
    ensures Distinct(b)
  {
    DifferForgetsOrder(ById, a.sources, b.sources);
    DifferForgetsOrder(ById, a.hosts, b.hosts);
    DifferForgetsOrder(ById, a.clusters, b.clusters);
    DifferForgetsOrder(ById, a.workloads, b.workloads);
    DifferForgetsOrder(ById, a.revisions, b.revisions);
    DifferForgetsOrder(ById, a.policies, b.policies);
  }

  /** Reordering any collection, or repeating a conflict, leaves the normal form
      as it is; a repeated identifier is refused in every order. */
  lemma NormalFormForgetsOrder(a: Snapshot, b: Snapshot)
    requires Reordered(a, b)
    ensures Normalized(a) == Normalized(b)
  {
    if Distinct(a) {
      DistinctForgets(a, b);
      SortForgetsOrder(ById, a.sources, b.sources);
      SortForgetsOrder(ById, a.hosts, b.hosts);
      SortForgetsOrder(ById, a.clusters, b.clusters);
      SortForgetsOrder(ById, a.workloads, b.workloads);
      SortForgetsOrder(ById, a.revisions, b.revisions);
      SortForgetsOrder(ById, a.policies, b.policies);
      SortedSetForgets(a.conflicts, b.conflicts);
    } else if Distinct(b) {
      DistinctForgets(b, a);
    }
  }

  // Compiling a plan and checking its hash.

  datatype Inputs = Inputs(
    target: Value, policy: Value, policyRevision: int, backend: Value, observation: Snapshot,
    predicates: seq<Predicate>, impact: Value, steps: seq<Step>, boundaries: seq<Boundary>,
    createdAt: Value, validity: int, idempotency: Value)

  datatype Plan = Plan(
    target: Value, policy: Value, policyRevision: int, backend: Value, observation: Snapshot,
    predicates: seq<Predicate>, impact: Value, steps: seq<Step>, boundaries: seq<Boundary>,
    createdAt: Value, expiresAt: Value, idempotency: Value, hash: Option<Digest>)

  datatype Field =
    | SchemaVersion | IdempotencyKey | Target | Policy | PolicyRevision | Backend | Observation | Predicates
    | Impact | Steps | RollbackBoundaries | CreatedAt | ExpiresAt | PlanHash
    | CapturedAt | Capability | Sources | Hosts | Clusters | Workloads | Revisions | Policies | Conflicts
    | Identifier | Sequence | BeforeStep

  function NameOf(f: Field): Name {
    match f
    case Backend => 0 case CreatedAt => 1 case ExpiresAt => 2 case IdempotencyKey => 3 case Impact => 4
    case Observation => 5 case PlanHash => 6 case Policy => 7 case PolicyRevision => 8 case Predicates => 9
    case RollbackBoundaries => 10 case SchemaVersion => 11 case Steps => 12 case Target => 13
    case Revisions => 14 case BeforeStep => 15 case Capability => 16 case CapturedAt => 17 case Clusters => 18
    case Conflicts => 19 case Hosts => 20 case Identifier => 21 case Policies => 22 case Sequence => 23
    case Sources => 24 case Workloads => 25
  }

  function At(f: Field, v: Value): Entry { Entry(NameOf(f), v) }

  function Records(id: Field, items: seq<Item>): Value {
    Items(seq(|items|, i requires 0 <= i < |items| => Record([At(id, Int(items[i].identifier))] + items[i].rest)))
  }

  function SnapshotValue(s: Snapshot): Value {
    Record([At(CapturedAt, s.capturedAt), At(Capability, s.capability),
            At(Sources, Records(Identifier, s.sources)), At(Hosts, Records(Identifier, s.hosts)),
            At(Clusters, Records(Identifier, s.clusters)), At(Workloads, Records(Identifier, s.workloads)),
            At(Revisions, Records(Identifier, s.revisions)), At(Policies, Records(Identifier, s.policies)),
            At(Conflicts, Items(seq(|s.conflicts|, i requires 0 <= i < |s.conflicts| => Str(s.conflicts[i]))))])
  }

  function StepValues(steps: seq<Step>): Value {
    Items(seq(|steps|, i requires 0 <= i < |steps| => Record([At(Sequence, Int(steps[i].sequence))] + steps[i].rest)))
  }

  function BoundaryValues(bs: seq<Boundary>): Value {
    Items(seq(|bs|, i requires 0 <= i < |bs| => Record([At(BeforeStep, Int(bs[i].beforeStep))] + bs[i].rest)))
  }

  function PredicateValues(ps: seq<Predicate>): Value {
    Items(seq(|ps|, i requires 0 <= i < |ps| => Record([At(Identifier, Member(ps[i].identifier))] + ps[i].rest)))
  }

  /** Everything a plan holds but its hash. */
  function PayloadFields(p: Plan): seq<Entry> {
    [At(SchemaVersion, Int(1)), At(IdempotencyKey, p.idempotency), At(Target, p.target), At(Policy, p.policy),
     At(PolicyRevision, Int(p.policyRevision)), At(Backend, p.backend), At(Observation, SnapshotValue(p.observation)),
     At(Predicates, PredicateValues(p.predicates)), At(Impact, p.impact), At(Steps, StepValues(p.steps)),
     At(RollbackBoundaries, BoundaryValues(p.boundaries)), At(CreatedAt, p.createdAt), At(ExpiresAt, p.expiresAt)]
  }

  function HashOf(v: Value): Option<Digest> {
    var c := Canonical(v);
    if c.None? then None else Some(Digest(c.value))
  }

  predicate Contiguous(steps: seq<Step>) {
    steps != [] && forall i :: 0 <= i < |steps| ==> steps[i].sequence == i + 1
  }

  /** None where the source raises. */
  function Compile(inputs: Inputs): Option<Plan> {
    var steps := SortedBy(BySequence, inputs.steps);
    var observation := Normalized(inputs.observation);
    if observation.None? || inputs.policyRevision < 0 || !inputs.createdAt.Time? || inputs.createdAt.offset.None? then None
    else if !Contiguous(steps) || !KeysDiffer(ByName, inputs.predicates) then None
    else if exists i :: 0 <= i < |inputs.boundaries| && !(1 <= inputs.boundaries[i].beforeStep <= |steps|) then None
    else
      var expires := Time(inputs.createdAt.instant + inputs.validity, inputs.createdAt.offset);
      var plan := Plan(inputs.target, inputs.policy, inputs.policyRevision, inputs.backend, observation.value,
                       inputs.predicates, inputs.impact, steps, SortedBy(ByStep, inputs.boundaries),
                       inputs.createdAt, expires, inputs.idempotency, None);
      var hash := HashOf(Dict(PayloadFields(plan)));
      if hash.None? then None else Some(plan.(hash := hash))
  }

  function Without(entries: seq<Entry>, name: Name): seq<Entry> {
    if entries == [] then []
    else (if entries[0].name == name then [] else [entries[0]]) + Without(entries[1..], name)
  }

  /** The stored plan dumped, its hash taken out and the rest hashed again;
      `text` is whatever the hash was written as. */
  predicate VerifyPlanHash(p: Plan, text: Value) {
    var dumped := Dump(Record(PayloadFields(p) + [At(PlanHash, text)]));
    dumped.Dict? && p.hash.Some? && HashOf(Dict(Without(dumped.entries, NameOf(PlanHash)))) == p.hash
  }

  lemma {:induction false} DumpAppend(a: seq<Entry>, b: seq<Entry>)
    ensures DumpEntries(a + b) == DumpEntries(a) + DumpEntries(b)
    decreases |a|
  {
    if a == [] {
      assert a + b == b;
    } else {
      assert (a + b)[1..] == a[1..] + b;
      DumpAppend(a[1..], b);
    }
  }

  lemma {:induction false} DumpKeepsNames(a: seq<Entry>)
    ensures forall i :: 0 <= i < |a| ==> DumpEntries(a)[i].name == a[i].name
    decreases |a|
  {
    if a != [] {
      DumpKeepsNames(a[1..]);
      assert forall i :: 0 < i < |a| ==> DumpEntries(a)[i] == DumpEntries(a[1..])[i - 1];
    }
  }

  lemma {:induction false} WithoutLast(a: seq<Entry>, last: Entry)
    requires forall i :: 0 <= i < |a| ==> a[i].name != last.name
    ensures Without(a + [last], last.name) == a
    decreases |a|
  {
    if a == [] {
      assert [last][1..] == [];
    } else {
      assert (a + [last])[1..] == a[1..] + [last];
      WithoutLast(a[1..], last);
    }
  }

  lemma NoHashInside(p: Plan)
    ensures forall i :: 0 <= i < |PayloadFields(p)| ==> PayloadFields(p)[i].name != NameOf(PlanHash)
  {
  }

  /** Main hash result: every plan that compiles verifies, whatever its inputs. */
  lemma CompiledPlansVerify(inputs: Inputs, text: Value)
    requires Compile(inputs).Some?
    ensures VerifyPlanHash(Compile(inputs).value, text)
  {
    var plan := Compile(inputs).value;
    var fields := PayloadFields(plan);
    assert fields == PayloadFields(plan.(hash := None));
    DumpAppend(fields, [At(PlanHash, text)]);
    NoHashInside(plan);
    DumpKeepsNames(fields);
    assert DumpEntries([At(PlanHash, text)]) == [DumpEntry(At(PlanHash, text))];
    WithoutLast(DumpEntries(fields), DumpEntry(At(PlanHash, text)));
    DumpIsInvisible(Dict(fields));
  }

  lemma ContiguousKeysDiffer(steps: seq<Step>)
    requires Contiguous(SortedBy(BySequence, steps))
    ensures KeysDiffer(BySequence, steps)
  {
    SortedFacts(BySequence, steps);
    DifferForgetsOrder(BySequence, SortedBy(BySequence, steps), steps);
  }

  lemma StepsForgetOrder(a: seq<Step>, b: seq<Step>)
    requires multiset(a) == multiset(b)
    ensures Contiguous(SortedBy(BySequence, a)) <==> Contiguous(SortedBy(BySequence, b))
    ensures Contiguous(SortedBy(BySequence, a)) ==> SortedBy(BySequence, a) == SortedBy(BySequence, b)
  {
    if Contiguous(SortedBy(BySequence, a)) {
      ContiguousKeysDiffer(a);
      SortForgetsOrder(BySequence, a, b);
    } else if Contiguous(SortedBy(BySequence, b)) {
      ContiguousKeysDiffer(b);
      SortForgetsOrder(BySequence, b, a);
    }
  }

  /** The steps and every collection of the snapshot may come in any order: the
      plan, its hash included, is the same, and so is every refusal. */
  lemma PlanForgetsOrder(a: Inputs, steps: seq<Step>, observation: Snapshot)
    requires multiset(a.steps) == multiset(steps) && Reordered(a.observation, observation)
    ensures Compile(a.(steps := steps, observation := observation)) == Compile(a)
  {
    hide PayloadFields, HashOf, SortedBy, Normalized;
    StepsForgetOrder(a.steps, steps);
    NormalFormForgetsOrder(a.observation, observation);
  }

  // Rollback boundaries are sorted too, but several may stand before one step.

  /** The items with one key, in the order they come in. */
  function WithKey<T>(key: T -> int, xs: seq<T>, k: int): seq<T> {
    if xs == [] then [] else (if key(xs[0]) == k then [xs[0]] else []) + WithKey(key, xs[1..], k)
  }

  /** For every key, the same items in the same order. */
  ghost predicate SameRuns<T(!new)>(key: T -> int, xs: seq<T>, ys: seq<T>) {
    forall k :: WithKey(key, xs, k) == WithKey(key, ys, k)
  }

  lemma FrontWithKey<T>(key: T -> int, x: T, xs: seq<T>, k: int)
    ensures WithKey(key, [x] + xs, k) == (if key(x) == k then [x] else []) + WithKey(key, xs, k)
  {
    assert ([x] + xs)[1..] == xs;
  }

  lemma {:induction false} InsertedWithKey<T>(key: T -> int, x: T, sorted: seq<T>, k: int)
    ensures WithKey(key, InsertedBy(key, x, sorted), k) == WithKey(key, [x] + sorted, k)
    decreases |sorted|
  {
    if sorted != [] && key(x) > key(sorted[0]) {
      var rest := InsertedBy(key, x, sorted[1..]);
      InsertedWithKey(key, x, sorted[1..], k);
      FrontWithKey(key, sorted[0], rest, k);
      FrontWithKey(key, x, sorted[1..], k);
      FrontWithKey(key, x, sorted, k);
    }
  }

  /** Sorting keeps items with one key in the order they came in. */
  lemma {:induction false} SortedWithKey<T>(key: T -> int, xs: seq<T>, k: int)
    ensures WithKey(key, SortedBy(key, xs), k) == WithKey(key, xs, k)
    decreases |xs|
  {
    if xs != [] {
      SortedWithKey(key, xs[1..], k);
      InsertedWithKey(key, xs[0], SortedBy(key, xs[1..]), k);
      assert ([xs[0]] + SortedBy(key, xs[1..]))[1..] == SortedBy(key, xs[1..]);
    }
  }

  lemma {:induction false} KeyPresent<T>(key: T -> int, xs: seq<T>, k: int)
    ensures WithKey(key, xs, k) != [] <==> exists i :: 0 <= i < |xs| && key(xs[i]) == k
    decreases |xs|
  {
    if xs != [] {
      KeyPresent(key, xs[1..], k);
      if i :| 0 <= i < |xs| && key(xs[i]) == k {
        if i > 0 { assert key(xs[1..][i - 1]) == k; }
      }
    }
  }

  /** A sorted list is determined by its items of each key. */
  lemma {:induction false} SortedByRuns<T(!new)>(key: T -> int, a: seq<T>, b: seq<T>)
    requires Rising(key, a) && Rising(key, b) && SameRuns(key, a, b)
    ensures a == b
    decreases |a|
  {
    if a == [] {
      if b != [] { SameFirst(key, b, a); }
    } else {
      SameFirst(key, a, b);
      forall k ensures WithKey(key, a[1..], k) == WithKey(key, b[1..], k) {
        assert WithKey(key, a, k) == WithKey(key, b, k);
        RestWithKey(key, a, k);
        RestWithKey(key, b, k);
      }
      SortedByRuns(key, a[1..], b[1..]);
    }
  }

  lemma RestWithKey<T>(key: T -> int, xs: seq<T>, k: int)
    requires xs != []
    ensures WithKey(key, xs[1..], k) == if key(xs[0]) == k then WithKey(key, xs, k)[1..] else WithKey(key, xs, k)
  {
  }

  lemma SameFirst<T(!new)>(key: T -> int, a: seq<T>, b: seq<T>)
    requires Rising(key, a) && Rising(key, b) && SameRuns(key, a, b) && a != []
    ensures b != [] && a[0] == b[0]
  {
    var k := key(a[0]);
    assert WithKey(key, a, k) == WithKey(key, b, k);
    KeyPresent(key, b, k);
    var i :| 0 <= i < |b| && key(b[i]) == k;
    HeadIsLeast(key, b, i);
    assert WithKey(key, a, key(b[0])) == WithKey(key, b, key(b[0]));
    KeyPresent(key, a, key(b[0]));
    var j :| 0 <= j < |a| && key(a[j]) == key(b[0]);
    HeadIsLeast(key, a, j);
    assert WithKey(key, a, k)[0] == a[0] && WithKey(key, b, k)[0] == b[0];
  }

  lemma SortKeepsRunsExactly<T(!new)>(key: T -> int, xs: seq<T>, ys: seq<T>)
    ensures SortedBy(key, xs) == SortedBy(key, ys) <==> SameRuns(key, xs, ys)
  {
    SortedFacts(key, xs);
    SortedFacts(key, ys);
    forall k ensures WithKey(key, SortedBy(key, xs), k) == WithKey(key, xs, k) && WithKey(key, SortedBy(key, ys), k) == WithKey(key, ys, k) {
      SortedWithKey(key, xs, k);
      SortedWithKey(key, ys, k);
    }
    if SortedBy(key, xs) == SortedBy(key, ys) {
      forall k ensures WithKey(key, xs, k) == WithKey(key, ys, k) {
        SortedWithKey(key, xs, k);
        SortedWithKey(key, ys, k);
      }
    } else if SameRuns(key, xs, ys) {
      SortedByRuns(key, SortedBy(key, xs), SortedBy(key, ys));
    }
  }

  /** The order of the rollback boundaries matters exactly within one step: a plan
      that compiles is the same for another list of boundaries if and only if,
      before every step, the same boundaries stand in the same order. */
  lemma BoundaryOrderMattersExactlyWhen(inputs: Inputs, boundaries: seq<Boundary>)
    requires Compile(inputs).Some?
    ensures Compile(inputs.(boundaries := boundaries)) == Compile(inputs)
       <==> SameRuns(ByStep, boundaries, inputs.boundaries)
  {
    hide PayloadFields, HashOf, SortedBy, Normalized;
    SortKeepsRunsExactly(ByStep, boundaries, inputs.boundaries);
    if SameRuns(ByStep, boundaries, inputs.boundaries) {
      forall i | 0 <= i < |boundaries| ensures exists j :: 0 <= j < |inputs.boundaries| && inputs.boundaries[j].beforeStep == boundaries[i].beforeStep {
        KeyPresent(ByStep, boundaries, boundaries[i].beforeStep);
        KeyPresent(ByStep, inputs.boundaries, boundaries[i].beforeStep);
      }
    }
  }
}
