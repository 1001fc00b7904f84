/** Dependency derivation: which pairs of operations must be ordered, which way round, and why. */
module Dependencies {
  import opened Wrappers
  import opened Sorting
  import opened Worlds
  import opened Snapshots
  import opened Operations
  import opened Evaluate

  datatype Reason = StructuralPrerequisite | WriteWrite | WriteRead | DomainSerialization | ContractSerialization

  datatype Dependency = Dependency(from: StepId, to: StepId, reason: Reason)

  datatype Contract = Contract(forbidsSameDomain: bool, workloads: seq<Id>)

  /** `first` has to happen before `second` for `second` to be possible at all. */
  predicate Prerequisite(s: Snapshot, first: Operation, second: Operation) {
    || (&& (first.kind.DrainResource? || first.kind.DeviceSetState?) && first.device == second.device
        && (first.kind.DrainResource? || first.entityState == Draining)
        && (second.kind.DeviceRemove? || second.kind.EnterMaintenance?))
    || (first.kind.EnterMaintenance? && second.kind.ExitMaintenance? && first.device == second.device)
    || (first.kind.DeviceAdd? && NeedsDevice(first.device, second))
    || (&& first.kind.LinkAdd? && (second.kind.RouteAdd? || second.kind.RouteSetPath?)
        && first.link in second.routeSpec.path)
    || (&& first.kind.RouteAdd? && (second.kind.WorkloadAdd? || second.kind.WorkloadSetBindings?)
        && BindsRoute(second.bindings, first.route))
    || (second.kind.RouteRemove? && Releases(s, first, second.route))
  }

  predicate NeedsDevice(device: Id, op: Operation) {
    || (op.device != 0 && op.device == device)
    || (op.kind.LinkAdd? && (op.linkSpec.endpointA == device || op.linkSpec.endpointB == device))
    || ((op.kind.RouteAdd? || op.kind.RouteSetPath?) && (op.routeSpec.source == device || op.routeSpec.sink == device))
    || ((op.kind.ConfigSet? || op.kind.ConfigClear?) && op.device == device)
    || (&& (op.kind.PolicyBind? || op.kind.PolicyUnbind?)
        && op.policyTarget.scope == DeviceScope && op.policyTarget.identity == device)
  }

  /** The workload operation leaves the route unbound, so it precedes the route's removal. */
  predicate Releases(s: Snapshot, op: Operation, route: Id) {
    match op.kind
    case WorkloadRemove => op.workload in s.workloads && BindsRoute(s.workloads[op.workload].bindings, route)
    case WorkloadSetBindings | WorkloadSetRequirements => !BindsRoute(op.bindings, route)
    case _ => false
  }

  /** Two updates of different fields of one entity. */
  predicate IndependentFields(a: Operation, b: Operation) {
    || (a.device != 0 && a.device == b.device && Pair(a.kind, b.kind, DeviceSetCapacity, DeviceSetWindows))
    || (a.workload != 0 && a.workload == b.workload
        && Pair(a.kind, b.kind, WorkloadSetBindings, WorkloadSetRequirements))
    || (a.route != 0 && a.route == b.route && Pair(a.kind, b.kind, RouteSetPath, RouteSetState))
  }

  predicate Pair(x: Kind, y: Kind, k: Kind, l: Kind) {
    (x == k && y == l) || (x == l && y == k)
  }

  /** The failure domain an operation takes capacity out of. */
  function TouchedDomain(s: Snapshot, op: Operation): Option<Id> {
    var leaves := match op.kind
      case DrainResource | EnterMaintenance | DeviceRemove => true
      case DeviceSetState => op.entityState == Draining || op.entityState == InMaintenance
      case _ => false;
    if leaves && op.device in s.devices then Some(s.devices[op.device].spec.domain) else None
  }

  predicate SameDomain(s: Snapshot, a: Operation, b: Operation) {
    TouchedDomain(s, a).Some? && TouchedDomain(s, a) == TouchedDomain(s, b)
  }

  predicate Reads(a: Operation, b: Operation) { WriteRef(b) in ReadRefs(a) }

  // ----- the failure domains of a route -----

  function DeviceDomain(s: Snapshot, device: Id): set<Id> {
    if device in s.devices then {s.devices[device].spec.domain} else {}
  }

  function LinkDomains(s: Snapshot, link: Id): set<Id> {
    if link !in s.links then {}
    else
      var spec := s.links[link].spec;
      DeviceDomain(s, spec.endpointA) + DeviceDomain(s, spec.endpointB)
      + (set i | 0 <= i < |spec.transit| :: spec.transit[i])
  }

  function RouteDomains(s: Snapshot, spec: RouteSpec): set<Id> {
    DeviceDomain(s, spec.source) + DeviceDomain(s, spec.sink)
    + set i, d | 0 <= i < |spec.path| && d in LinkDomains(s, spec.path[i]) :: d
  }

  predicate WorkloadTraverses(s: Snapshot, workload: Id, domain: Id) {
    workload in s.workloads &&
      exists i ::
        0 <= i < |s.workloads[workload].bindings| && BindingTraverses(s, s.workloads[workload].bindings[i], domain)
  }

  predicate BindingTraverses(s: Snapshot, b: Binding, domain: Id) {
    b.route in s.routes && domain in RouteDomains(s, s.routes[b.route].spec)
  }

  predicate ContractForbids(s: Snapshot, c: Contract, domain: Id) {
    c.forbidsSameDomain && exists i :: 0 <= i < |c.workloads| && WorkloadTraverses(s, c.workloads[i], domain)
  }

  /** A contract forbids changing one failure domain twice at once while its workloads cross it. */
  predicate ContractConflict(s: Snapshot, contracts: seq<Contract>, a: Operation, b: Operation) {
    && TouchedDomain(s, a).Some? && TouchedDomain(s, b) == TouchedDomain(s, a)
    && exists i :: 0 <= i < |contracts| && ContractForbids(s, contracts[i], TouchedDomain(s, a).value)
  }

  // ----- the rule for one pair -----

  datatype Order = Forward(reason: Reason) | Backward(reason: Reason)

  /** How operation `a`, listed before `b`, must be ordered against it. */
  function OrderFor(s: Snapshot, contracts: seq<Contract>, a: Operation, b: Operation): Option<Order> {
    if Prerequisite(s, a, b) then Some(Forward(StructuralPrerequisite))
    else if Prerequisite(s, b, a) then Some(Backward(StructuralPrerequisite))
    else if IndependentFields(a, b) then None
    else if WriteRef(a) == WriteRef(b) then Some(Forward(WriteWrite))
    else if Reads(a, b) || Reads(b, a) then Some(Forward(WriteRead))
    else if SameDomain(s, a, b) then Some(Forward(DomainSerialization))
    else if ContractConflict(s, contracts, a, b) then Some(Forward(ContractSerialization))
    else None
  }

  predicate Linked(s: Snapshot, contracts: seq<Contract>, a: Operation, b: Operation) {
    OrderFor(s, contracts, a, b).Some?
  }

  /** Whether two operations are linked does not depend on which is listed first. */
  lemma LinkedIsSymmetric(s: Snapshot, contracts: seq<Contract>, a: Operation, b: Operation)
    ensures Linked(s, contracts, a, b) == Linked(s, contracts, b, a)
  {
    assert IndependentFields(a, b) == IndependentFields(b, a);
    assert SameDomain(s, a, b) == SameDomain(s, b, a);
    assert ContractConflict(s, contracts, a, b) ==> SameDomain(s, a, b);
  }

  /** A contract never adds an edge: the pairs it names already share a failure domain, and those
      are serialised for that reason before contracts are looked at. */
  lemma ContractsAddNothing(s: Snapshot, contracts: seq<Contract>, a: Operation, b: Operation)
    ensures OrderFor(s, contracts, a, b) == OrderFor(s, [], a, b)
    ensures OrderFor(s, contracts, a, b).Some? ==> OrderFor(s, contracts, a, b).value.reason != ContractSerialization
  {
    assert ContractConflict(s, contracts, a, b) ==> SameDomain(s, a, b);
  }

  // ----- all pairs -----

  function EdgeBetween(stepId: Operation -> StepId, a: Operation, b: Operation, order: Order): Dependency {
    match order
    case Forward(reason) => Dependency(stepId(a), stepId(b), reason)
    case Backward(reason) => Dependency(stepId(b), stepId(a), reason)
  }

  ghost predicate PairEdge(s: Snapshot, contracts: seq<Contract>, stepId: Operation -> StepId, ops: seq<Operation>,
                           i: nat, j: nat, e: Dependency) {
    && i < j < |ops| && OrderFor(s, contracts, ops[i], ops[j]).Some?
    && e == EdgeBetween(stepId, ops[i], ops[j], OrderFor(s, contracts, ops[i], ops[j]).value)
  }

  function ReasonRank(r: Reason): nat {
    match r
    case StructuralPrerequisite => 0
    case WriteWrite => 1
    case WriteRead => 2
    case DomainSerialization => 3
    case ContractSerialization => 4
  }

  predicate EdgeBefore(a: Dependency, b: Dependency) {
    if a.from != b.from then a.from < b.from
    else if a.to != b.to then a.to < b.to
    else ReasonRank(a.reason) < ReasonRank(b.reason)
  }

  lemma {:induction false} UniqueMembers<T>(s: seq<T>, x: T)
    ensures x in Unique(s) <==> x in s
  {
    if |s| > 1 {
      assert s == [s[0]] + s[1..];
      UniqueMembers(s[1..], x);
      assert s[0] == s[1] ==> s[0] in s[1..];
    }
  }

  /** The edges over all pairs, in canonical order without repetition: exactly one candidate per
      linked pair, and nothing else. */
  method DeriveDependencies(s: Snapshot, contracts: seq<Contract>, stepId: Operation -> StepId, ops: seq<Operation>)
    returns (edges: seq<Dependency>)
    ensures forall i: nat, j: nat, e :: PairEdge(s, contracts, stepId, ops, i, j, e) ==> e in edges
    ensures forall e :: e in edges ==> exists i: nat, j: nat :: PairEdge(s, contracts, stepId, ops, i, j, e)
    ensures SortedBy(edges, EdgeBefore) && forall k :: 0 < k < |edges| ==> edges[k - 1] != edges[k]
  {
    hide OrderFor, EdgeBetween;
    var found: seq<Dependency> := [];
    for i := 0 to |ops|
      invariant forall p: nat, q: nat, e :: p < i && PairEdge(s, contracts, stepId, ops, p, q, e) ==> e in found
      invariant forall e :: e in found ==> exists p: nat, q: nat :: PairEdge(s, contracts, stepId, ops, p, q, e)
    {
      for j := i + 1 to |ops|
        invariant forall p: nat, q: nat, e ::
          (p < i || (p == i && q < j)) && PairEdge(s, contracts, stepId, ops, p, q, e) ==> e in found
        invariant forall e :: e in found ==> exists p: nat, q: nat :: PairEdge(s, contracts, stepId, ops, p, q, e)
      {
        var order := OrderFor(s, contracts, ops[i], ops[j]);
        if order.Some? {
          var edge := EdgeBetween(stepId, ops[i], ops[j], order.value);
          assert PairEdge(s, contracts, stepId, ops, i, j, edge);
          found := found + [edge];
        }
      }
    }
    edges := SortedEdges(found);
  }

  method SortedEdges(found: seq<Dependency>) returns (edges: seq<Dependency>)
    ensures forall e :: e in edges <==> e in found
    ensures SortedBy(edges, EdgeBefore) && forall k :: 0 < k < |edges| ==> edges[k - 1] != edges[k]
  {
    var sorted := Sort(found, EdgeBefore);
    edges := Unique(sorted);
    SortSorts(found, EdgeBefore);
    UniqueSorted(sorted);
    forall e ensures e in edges <==> e in found {
      SortMembers(found, EdgeBefore, e);
      UniqueMembers(sorted, e);
    }
  }

  lemma {:induction false} UniqueSorted(s: seq<Dependency>)
    requires SortedBy(s, EdgeBefore)
    ensures SortedBy(Unique(s), EdgeBefore)
    ensures forall k :: 0 < k < |Unique(s)| ==> Unique(s)[k - 1] != Unique(s)[k]
    ensures s != [] ==> Unique(s) != [] && Unique(s)[0] == s[0]
  {
    if |s| > 1 {
      UniqueSorted(s[1..]);
      if s[0] != s[1] {
        var u := Unique(s[1..]);
        forall j | 0 <= j < |u| ensures !EdgeBefore(u[j], s[0]) {
          UniqueMembers(s[1..], u[j]);
        }
      }
    }
  }
}
