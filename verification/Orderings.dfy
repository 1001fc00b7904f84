/** Which operations dependency derivation orders and why, in terms of the entities they name, change
    and take out of service. */
module Orderings {
  import opened Wrappers
  import opened Sorting
  import opened Worlds
  import opened Snapshots
  import opened Operations
  import opened Evaluate
  import opened Dependencies

  /** The operation refers to the entity: a device or link it runs over or ends at, a route it binds, the
      target of a policy, the owner of a configuration entry. */
  predicate Names(op: Operation, r: Ref) {
    match r
    case DeviceRef(id) =>
      && id != 0
      && (|| (AreaOf(op.kind) == Links && EndsAt(op.linkSpec, id))
          || (AreaOf(op.kind) == Routes && Terminates(op.routeSpec, id))
          || (AreaOf(op.kind) == Configs && op.device == id)
          || (AreaOf(op.kind) == Policies && op.policyTarget == PolicyTarget(DeviceScope, id)))
    case LinkRef(id) =>
      || (op.kind in {RouteAdd, RouteSetPath} && id in op.routeSpec.path)
      || (id != 0 && AreaOf(op.kind) == Policies && op.policyTarget == PolicyTarget(LinkScope, id))
    case RouteRef(id) =>
      || (AreaOf(op.kind) == Workloads && exists i :: 0 <= i < |op.bindings| && op.bindings[i].route == id)
      || (id != 0 && AreaOf(op.kind) == Policies && op.policyTarget == PolicyTarget(RouteScope, id))
    case WorkloadRef(id) => id != 0 && AreaOf(op.kind) == Policies && op.policyTarget == PolicyTarget(WorkloadScope, id)
    case GlobalRef | DomainRef(_) | PolicyRef(_) | ConfigRef(_, _) => false
  }

  /** The operation takes the device out of use. */
  predicate Drains(op: Operation, device: Id) {
    op.device == device && (op.kind.DrainResource? || (op.kind.DeviceSetState? && op.entityState == Draining))
  }

  /** The operation is impossible as long as the other has not been done. */
  predicate Awaits(s: Snapshot, op: Operation, other: Operation) {
    match other.kind
    case DrainResource | DeviceSetState => op.kind in {DeviceRemove, EnterMaintenance} && Drains(other, op.device)
    case EnterMaintenance => op.kind.ExitMaintenance? && op.device == other.device
    case DeviceAdd =>
      || (op.device != 0 && op.device == other.device)
      || (AreaOf(op.kind) == Configs && op.device == other.device)
      || (op.kind.LinkAdd? && EndsAt(op.linkSpec, other.device))
      || (op.kind in {RouteAdd, RouteSetPath} && Terminates(op.routeSpec, other.device))
      || (AreaOf(op.kind) == Policies && op.policyTarget == PolicyTarget(DeviceScope, other.device))
    case LinkAdd => op.kind in {RouteAdd, RouteSetPath} && other.link in op.routeSpec.path
    case RouteAdd =>
      op.kind in {WorkloadAdd, WorkloadSetBindings} &&
        exists i :: 0 <= i < |op.bindings| && op.bindings[i].route == other.route
    case WorkloadRemove =>
      op.kind.RouteRemove? && other.workload in s.workloads &&
        exists b :: b in s.workloads[other.workload].bindings && b.route == op.route
    case WorkloadSetBindings | WorkloadSetRequirements =>
      op.kind.RouteRemove? && forall b :: b in other.bindings ==> b.route != op.route
    case _ => false
  }

  /** The two set different things of one entity. */
  predicate SeparateFields(a: Operation, b: Operation) {
    || (a.device == b.device != 0 && {a.kind, b.kind} == {DeviceSetCapacity, DeviceSetWindows})
    || (a.workload == b.workload != 0
        && {a.kind, b.kind} == {WorkloadSetBindings, WorkloadSetRequirements})
    || (a.route == b.route != 0 && {a.kind, b.kind} == {RouteSetPath, RouteSetState})
  }

  /** The operation takes a device of the failure domain out of service. */
  predicate Weakens(s: Snapshot, op: Operation, domain: Id) {
    && op.device in s.devices && s.devices[op.device].spec.domain == domain
    && (op.kind in {DrainResource, EnterMaintenance, DeviceRemove}
        || (op.kind.DeviceSetState? && op.entityState in {Draining, InMaintenance}))
  }

  lemma PrerequisiteIsAwaited(s: Snapshot, op: Operation, other: Operation)
    ensures Prerequisite(s, other, op) <==> Awaits(s, op, other)
  {
    if other.kind.WorkloadRemove? && other.workload in s.workloads {
      BoundMember(s.workloads[other.workload].bindings, op.route);
    }
    BoundMember(other.bindings, op.route);
  }

  lemma BoundMember(bs: seq<Binding>, route: Id)
    ensures BindsRoute(bs, route) <==> exists b :: b in bs && b.route == route
  {
    if b :| b in bs && b.route == route { var i :| 0 <= i < |bs| && bs[i] == b; }
  }

  lemma ReadIsNamed(op: Operation, r: Ref)
    ensures r in ReadRefs(op) <==> Names(op, r)
  {
  }

  lemma FieldsAreSeparate(a: Operation, b: Operation)
    ensures IndependentFields(a, b) <==> SeparateFields(a, b)
  {
    SamePair(a.kind, b.kind, DeviceSetCapacity, DeviceSetWindows);
    SamePair(a.kind, b.kind, WorkloadSetBindings, WorkloadSetRequirements);
    SamePair(a.kind, b.kind, RouteSetPath, RouteSetState);
  }

  lemma SamePair<T>(x: T, y: T, k: T, l: T)
    requires k != l
    ensures {x, y} == {k, l} <==> (x == k && y == l) || (x == l && y == k)
  {
    if {x, y} == {k, l} { assert x in {k, l} && y in {k, l} && k in {x, y} && l in {x, y}; }
  }

  /** The order of two listed operations, the one at `i` before the one at `j`, as edges: the one waited
      for comes first, the earlier listed if each waits for the other; of the others the earlier listed
      comes first where both write one entity, one names what the other writes, or both weaken one
      failure domain. */
  ghost predicate EdgeDue(s: Snapshot, a: Operation, b: Operation, forward: bool, reason: Reason) {
    match reason
    case StructuralPrerequisite => if forward then Awaits(s, b, a) else Awaits(s, a, b) && !Awaits(s, b, a)
    case WriteWrite => forward && Unawaited(s, a, b) && WriteRef(a) == WriteRef(b)
    case WriteRead => forward && Unawaited(s, a, b) && (Names(a, WriteRef(b)) || Names(b, WriteRef(a)))
    case DomainSerialization =>
      && forward && Unawaited(s, a, b) && WriteRef(a) != WriteRef(b)
      && exists domain: Id :: Weakens(s, a, domain) && Weakens(s, b, domain)
    case ContractSerialization => false
  }

  ghost predicate Unawaited(s: Snapshot, a: Operation, b: Operation) {
    !Awaits(s, a, b) && !Awaits(s, b, a) && !SeparateFields(a, b)
  }

  lemma NothingNamesItself(a: Operation, b: Operation)
    requires Names(a, WriteRef(b))
    ensures WriteRef(a) != WriteRef(b) && !SeparateFields(a, b)
    ensures forall s, domain: Id :: !(Weakens(s, a, domain) && Weakens(s, b, domain))
  {
  }

  /** The rule for one pair is this. */
  lemma PairRuleMeans(s: Snapshot, contracts: seq<Contract>, a: Operation, b: Operation, forward: bool, reason: Reason)
    ensures EdgeDue(s, a, b, forward, reason) <==>
      OrderFor(s, contracts, a, b) == Some(if forward then Forward(reason) else Backward(reason))
  {
    hide Prerequisite, Awaits, IndependentFields, SeparateFields, ReadRefs, Names, ContractConflict, TouchedDomain,
      Weakens;
    PrerequisiteIsAwaited(s, a, b);
    PrerequisiteIsAwaited(s, b, a);
    FieldsAreSeparate(a, b);
    ReadIsNamed(a, WriteRef(b));
    ReadIsNamed(b, WriteRef(a));
    DomainsMean(s, a, b);
    ContractsAddNothing(s, contracts, a, b);
    if Names(a, WriteRef(b)) { NothingNamesItself(a, b); }
    if Names(b, WriteRef(a)) { NothingNamesItself(b, a); }
  }

  lemma DomainsMean(s: Snapshot, a: Operation, b: Operation)
    ensures SameDomain(s, a, b) <==> exists domain: Id :: Weakens(s, a, domain) && Weakens(s, b, domain)
  {
    if domain: Id :| Weakens(s, a, domain) && Weakens(s, b, domain) {
      assert TouchedDomain(s, a) == Some(domain) == TouchedDomain(s, b);
    }
    if SameDomain(s, a, b) {
      var domain := TouchedDomain(s, a).value;
      assert Weakens(s, a, domain) && Weakens(s, b, domain);
    }
  }


  // ----- the edges of a list -----

  /** The edge belongs to the two operations, the one at `i` being listed before the one at `j`. */
  ghost predicate DueBetween(s: Snapshot, stepId: Operation -> StepId, ops: seq<Operation>, i: nat, j: nat,
                             e: Dependency) {
    && i < j < |ops|
    && exists forward: bool ::
         EdgeDue(s, ops[i], ops[j], forward, e.reason)
         && e.from == stepId(ops[if forward then i else j]) && e.to == stepId(ops[if forward then j else i])
  }

  /** What dependency derivation returns are exactly the edges due, for any list of operations. */
  lemma EdgesAreDue(s: Snapshot, contracts: seq<Contract>, stepId: Operation -> StepId, ops: seq<Operation>,
                    edges: seq<Dependency>)
    requires forall i: nat, j: nat, e :: PairEdge(s, contracts, stepId, ops, i, j, e) ==> e in edges
    requires forall e :: e in edges ==> exists i: nat, j: nat :: PairEdge(s, contracts, stepId, ops, i, j, e)
    ensures forall e :: e in edges <==> exists i: nat, j: nat :: DueBetween(s, stepId, ops, i, j, e)
  {
    hide OrderFor, EdgeDue;
    forall i: nat, j: nat, e
      ensures PairEdge(s, contracts, stepId, ops, i, j, e) <==> DueBetween(s, stepId, ops, i, j, e)
    {
      PairEdgeIsDue(s, contracts, stepId, ops, i, j, e);
    }
  }

  /** The reasons for an edge, the most pressing first. */
  function Reasons(): seq<Reason> {
    [StructuralPrerequisite, WriteWrite, WriteRead, DomainSerialization, ContractSerialization]
  }

  ghost predicate MorePressing(r: Reason, q: Reason) {
    exists i, j :: 0 <= i < j < |Reasons()| && r == Reasons()[i] && q == Reasons()[j]
  }

  lemma PressingIs(r: Reason, q: Reason)
    ensures ReasonRank(r) < ReasonRank(q) <==> MorePressing(r, q)
    ensures ReasonRank(r) == ReasonRank(q) <==> r == q
  {
    assert Reasons()[ReasonRank(r)] == r && Reasons()[ReasonRank(q)] == q;
  }

  /** The edges returned are listed by the step they come from, then by the one they lead to, then by their
      reason, and none twice. */
  lemma EdgesInOrder(edges: seq<Dependency>, i: nat, j: nat)
    requires SortedBy(edges, EdgeBefore) && forall k :: 0 < k < |edges| ==> edges[k - 1] != edges[k]
    requires i < j < |edges|
    ensures var a, b := edges[i], edges[j];
      a.from < b.from || (a.from == b.from && (a.to < b.to || (a.to == b.to && MorePressing(a.reason, b.reason))))
  {
    hide MorePressing, ReasonRank;
    forall k, l | 0 <= k < l < |edges| ensures !EdgeBefore(edges[l], edges[k]) {}
    var a, b := edges[i], edges[j];
    PressingIs(a.reason, b.reason);
    PressingIs(b.reason, a.reason);
    if a == b {
      var next := edges[i + 1];
      PressingIs(a.reason, next.reason);
      PressingIs(next.reason, a.reason);
    }
  }

  lemma PairEdgeIsDue(s: Snapshot, contracts: seq<Contract>, stepId: Operation -> StepId, ops: seq<Operation>,
                      i: nat, j: nat, e: Dependency)
    ensures PairEdge(s, contracts, stepId, ops, i, j, e) <==> DueBetween(s, stepId, ops, i, j, e)
  {
    hide OrderFor, EdgeDue;
    if i < j < |ops| {
      PairRuleMeans(s, contracts, ops[i], ops[j], true, e.reason);
      PairRuleMeans(s, contracts, ops[i], ops[j], false, e.reason);
    }
  }

  /** In a list in canonical order, whatever adds an entity has an edge to whatever names it: because
      that has to wait for it, or else because it reads what is written. */
  lemma AdditionsComeFirst(s: Snapshot, naming: Naming, stepId: Operation -> StepId, ops: seq<Operation>,
                           edges: seq<Dependency>, i: nat, j: nat)
    requires SortedBy(ops, CanonicalOrder(naming)) && i < |ops| && j < |ops|
    requires forall e :: e in edges <==> exists i: nat, j: nat :: DueBetween(s, stepId, ops, i, j, e)
    requires ops[i].kind in {DeviceAdd, LinkAdd, RouteAdd, WorkloadAdd} && Names(ops[j], WriteRef(ops[i]))
    ensures Dependency(stepId(ops[i]), stepId(ops[j]),
                       if Awaits(s, ops[j], ops[i]) then StructuralPrerequisite else WriteRead) in edges
  {
    hide Names, Awaits, SeparateFields;
    NamesRankHigher(s, ops[j], ops[i]);
    assert CanonicalOrder(naming)(ops[i], ops[j]);
    NothingNamesItself(ops[j], ops[i]);
    var reason := if Awaits(s, ops[j], ops[i]) then StructuralPrerequisite else WriteRead;
    assert SeparateFields(ops[i], ops[j]) == SeparateFields(ops[j], ops[i]) by { FieldsAreSeparate(ops[i], ops[j]); }
    assert EdgeDue(s, ops[i], ops[j], true, reason);
    assert DueBetween(s, stepId, ops, i, j, Dependency(stepId(ops[i]), stepId(ops[j]), reason));
  }

  lemma NamesRankHigher(s: Snapshot, op: Operation, added: Operation)
    requires added.kind in {DeviceAdd, LinkAdd, RouteAdd, WorkloadAdd} && Names(op, WriteRef(added))
    ensures KindRank(added.kind) < KindRank(op.kind) && !Awaits(s, added, op)
  {
  }
}
