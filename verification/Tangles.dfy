/** When the derived dependency edges form a cycle, for any list of operations; and the cycles that go
    through a device which is drained and removed. */
module Tangles {
  import opened Wrappers
  import opened Sorting
  import opened Worlds
  import opened Kahn
  import opened Cycles
  import opened Snapshots
  import opened Operations
  import opened Evaluate
  import opened Dependencies

  // ----- edges as a relation on the list -----

  /** The operation at `i` has to come before the one at `j`. */
  ghost predicate Arrow(s: Snapshot, contracts: seq<Contract>, ops: seq<Operation>, i: nat, j: nat) {
    && i < |ops| && j < |ops| && i != j
    && if i < j then IsForward(OrderFor(s, contracts, ops[i], ops[j]))
       else IsBackward(OrderFor(s, contracts, ops[j], ops[i]))
  }

  predicate IsForward(order: Option<Order>) { order.Some? && order.value.Forward? }

  predicate IsBackward(order: Option<Order>) { order.Some? && order.value.Backward? }

  ghost function Arrows(s: Snapshot, contracts: seq<Contract>, ops: seq<Operation>): (nat, nat) -> bool {
    (i: nat, j: nat) => Arrow(s, contracts, ops, i, j)
  }

  /** The edges are exactly those of the pair rule, over all pairs of the list. */
  ghost predicate DerivedEdges(s: Snapshot, contracts: seq<Contract>, stepId: Operation -> StepId, ops: seq<Operation>,
                               edges: seq<Edge>) {
    && (forall i: nat, j: nat :: Arrow(s, contracts, ops, i, j) ==> Edge(stepId(ops[i]), stepId(ops[j])) in edges)
    && (forall e :: e in edges ==> FromArrow(s, contracts, stepId, ops, e))
  }

  ghost predicate FromArrow(s: Snapshot, contracts: seq<Contract>, stepId: Operation -> StepId, ops: seq<Operation>,
                            e: Edge) {
    exists i: nat, j: nat :: Arrow(s, contracts, ops, i, j) && e == Edge(stepId(ops[i]), stepId(ops[j]))
  }

  function EdgesAlone(found: seq<Dependency>): seq<Edge> {
    seq(|found|, i requires 0 <= i < |found| => Edge(found[i].from, found[i].to))
  }

  /** What dependency derivation returns, with the reasons left out. */
  lemma DerivationGivesEdges(s: Snapshot, contracts: seq<Contract>, stepId: Operation -> StepId, ops: seq<Operation>,
                             found: seq<Dependency>)
    requires forall i: nat, j: nat, d :: PairEdge(s, contracts, stepId, ops, i, j, d) ==> d in found
    requires forall d :: d in found ==> exists i: nat, j: nat :: PairEdge(s, contracts, stepId, ops, i, j, d)
    ensures DerivedEdges(s, contracts, stepId, ops, EdgesAlone(found))
  {
    hide OrderFor;
    var edges := EdgesAlone(found);
    forall i: nat, j: nat | Arrow(s, contracts, ops, i, j) ensures Edge(stepId(ops[i]), stepId(ops[j])) in edges {
      var a, b := if i < j then i else j, if i < j then j else i;
      var d := EdgeBetween(stepId, ops[a], ops[b], OrderFor(s, contracts, ops[a], ops[b]).value);
      assert PairEdge(s, contracts, stepId, ops, a, b, d);
      var k :| 0 <= k < |found| && found[k] == d;
      assert edges[k] == Edge(stepId(ops[i]), stepId(ops[j]));
    }
    forall e | e in edges ensures FromArrow(s, contracts, stepId, ops, e) {
      var k :| 0 <= k < |edges| && edges[k] == e;
      assert found[k] in found;
      var a: nat, b: nat :| PairEdge(s, contracts, stepId, ops, a, b, found[k]);
      if OrderFor(s, contracts, ops[a], ops[b]).value.Forward? {
        assert Arrow(s, contracts, ops, a, b);
      } else {
        assert Arrow(s, contracts, ops, b, a);
      }
    }
  }

  lemma EdgeOfArrow(s: Snapshot, contracts: seq<Contract>, stepId: Operation -> StepId, ops: seq<Operation>,
                    edges: seq<Edge>, i: nat, j: nat)
    requires DerivedEdges(s, contracts, stepId, ops, edges) && Arrows(s, contracts, ops)(i, j)
    ensures i < |ops| && j < |ops| && Edge(stepId(ops[i]), stepId(ops[j])) in edges
  {
    hide OrderFor;
  }

  lemma ArrowOfEdge(s: Snapshot, contracts: seq<Contract>, stepId: Operation -> StepId, ops: seq<Operation>,
                    edges: seq<Edge>, e: Edge)
    returns (i: nat, j: nat)
    requires DerivedEdges(s, contracts, stepId, ops, edges) && e in edges
    ensures i < |ops| && j < |ops| && Arrows(s, contracts, ops)(i, j) && e == Edge(stepId(ops[i]), stepId(ops[j]))
  {
    hide OrderFor;
    assert FromArrow(s, contracts, stepId, ops, e);
    i, j :| Arrow(s, contracts, ops, i, j) && e == Edge(stepId(ops[i]), stepId(ops[j]));
  }

  lemma StuckIsTrapped(s: Snapshot, contracts: seq<Contract>, stepId: Operation -> StepId, ops: seq<Operation>,
                       edges: seq<Edge>, u: set<nat>)
    requires DerivedEdges(s, contracts, stepId, ops, edges) && Stuck(Arrows(s, contracts, ops), u)
    ensures exists t :: Trapped(OpIds(ops, stepId), edges, t)
  {
    hide Stuck, DerivedEdges, Arrows, Waits;
    var ids := OpIds(ops, stepId);
    var t := set i: nat | i < |ops| && i in u :: ids[i];
    var x0 := Member(Arrows(s, contracts, ops), u);
    StuckWaits(s, contracts, stepId, ops, edges, u, t, x0);
    forall id | id in t ensures Waits(edges, id, t) {
      var x: nat :| x < |ops| && x in u && ids[x] == id;
      StuckWaits(s, contracts, stepId, ops, edges, u, t, x);
    }
    assert ids[x0] in t;
    assert Trapped(ids, edges, t);
  }

  lemma StuckWaits(s: Snapshot, contracts: seq<Contract>, stepId: Operation -> StepId, ops: seq<Operation>,
                   edges: seq<Edge>, u: set<nat>, t: set<StepId>, x: nat)
    requires DerivedEdges(s, contracts, stepId, ops, edges) && Stuck(Arrows(s, contracts, ops), u) && x in u
    requires forall i: nat :: i < |ops| && i in u ==> stepId(ops[i]) in t
    ensures x < |ops| && Waits(edges, stepId(ops[x]), t)
  {
    hide Stuck, DerivedEdges, Arrows;
    var y := StepBack(Arrows(s, contracts, ops), u, x);
    EdgeOfArrow(s, contracts, stepId, ops, edges, y, x);
    assert Edge(stepId(ops[y]), stepId(ops[x])).from in t;
  }

  lemma TrappedIsStuck(s: Snapshot, contracts: seq<Contract>, stepId: Operation -> StepId, ops: seq<Operation>,
                       edges: seq<Edge>, t: set<StepId>)
    requires DerivedEdges(s, contracts, stepId, ops, edges) && Unrepeated(ops, stepId)
    requires Trapped(OpIds(ops, stepId), edges, t)
    ensures exists u :: Stuck(Arrows(s, contracts, ops), u)
  {
    hide DerivedEdges, Arrows, Preceded, Waits, Unrepeated;
    var ids := OpIds(ops, stepId);
    var u := set i: nat | i < |ops| && ids[i] in t;
    var id0 :| id0 in t;
    var i0 :| 0 <= i0 < |ids| && ids[i0] == id0;
    assert i0 in u;
    forall x | x in u ensures Preceded(Arrows(s, contracts, ops), u, x) {
      assert ids[x] in t;
      TrappedPreceded(s, contracts, stepId, ops, edges, t, u, x);
    }
    assert Stuck(Arrows(s, contracts, ops), u);
  }

  lemma TrappedPreceded(s: Snapshot, contracts: seq<Contract>, stepId: Operation -> StepId, ops: seq<Operation>,
                        edges: seq<Edge>, t: set<StepId>, u: set<nat>, x: nat)
    requires DerivedEdges(s, contracts, stepId, ops, edges) && Unrepeated(ops, stepId)
    requires x < |ops| && Waits(edges, stepId(ops[x]), t)
    requires forall i: nat :: i < |ops| && stepId(ops[i]) in t ==> i in u
    ensures Preceded(Arrows(s, contracts, ops), u, x)
  {
    hide DerivedEdges, Arrows;
    var e :| e in edges && e.to == stepId(ops[x]) && e.from in t;
    var i, j := ArrowOfEdge(s, contracts, stepId, ops, edges, e);
    assert j == x && i in u;
  }

  /** Derived edges rise along the list except where a later operation is a prerequisite of an
      earlier one.  They form a cycle if and only if some such pair is answered: the earlier
      operation has to come, directly or through others, before the later one. */
  lemma CyclicIffBackwardAnswered(s: Snapshot, contracts: seq<Contract>, stepId: Operation -> StepId,
                                  ops: seq<Operation>, edges: seq<Edge>)
    requires DerivedEdges(s, contracts, stepId, ops, edges) && Unrepeated(ops, stepId)
    ensures (exists t :: Trapped(OpIds(ops, stepId), edges, t)) <==> exists p :: BackCycle(Arrows(s, contracts, ops), p)
    ensures forall p :: BackCycle(Arrows(s, contracts, ops), p) ==>
      p != [] && AnsweredBy(s, contracts, ops, p[0], p[|p| - 1])
  {
    hide Trapped, DerivedEdges, Stuck, Path, OrderFor;
    var arrow := Arrows(s, contracts, ops);
    StuckIffBackCycle(arrow);
    if t :| Trapped(OpIds(ops, stepId), edges, t) { TrappedIsStuck(s, contracts, stepId, ops, edges, t); }
    if u :| Stuck(arrow, u) { StuckIsTrapped(s, contracts, stepId, ops, edges, u); }
    forall p | BackCycle(arrow, p) ensures p != [] && AnsweredBy(s, contracts, ops, p[0], p[|p| - 1]) {
      GoesBack(s, contracts, ops, p);
    }
  }

  /** The later operation, at `j`, is a prerequisite of the earlier one, at `i`. */
  ghost predicate AnsweredBy(s: Snapshot, contracts: seq<Contract>, ops: seq<Operation>, i: nat, j: nat) {
    && i < j < |ops| && OrderFor(s, contracts, ops[i], ops[j]) == Some(Backward(StructuralPrerequisite))
    && Prerequisite(s, ops[j], ops[i])
  }

  lemma GoesBack(s: Snapshot, contracts: seq<Contract>, ops: seq<Operation>, p: seq<nat>)
    requires BackCycle(Arrows(s, contracts, ops), p)
    ensures p != [] && AnsweredBy(s, contracts, ops, p[0], p[|p| - 1])
  {
    assert Arrow(s, contracts, ops, p[|p| - 1], p[0]);
  }

  // ----- the lists derivation makes -----

  /** Canonically ordered, without bare state changes; requirements and workload removals come without
      bindings; a device is removed at most once and drained at most once; what removes a route or adds
      a workload is all that writes it. */
  ghost predicate Regular(naming: Naming, ops: seq<Operation>) {
    && SortedBy(ops, CanonicalOrder(naming))
    && (forall i :: 0 <= i < |ops| ==> !ops[i].kind.DeviceSetState?)
    && (forall i :: 0 <= i < |ops| && ops[i].kind in {WorkloadRemove, WorkloadSetRequirements} ==>
          ops[i].bindings == [])
    && (forall i, j ::
          0 <= i < j < |ops| && ops[i].kind == ops[j].kind && ops[i].kind in {DeviceRemove, DrainResource} ==>
          ops[i].device != ops[j].device)
    && (forall i, j :: 0 <= i < |ops| && 0 <= j < |ops| && i != j && ops[i].kind in {RouteRemove, WorkloadAdd} ==>
          WriteRef(ops[i]) != WriteRef(ops[j]))
  }

  predicate ShareDomain(s: Snapshot, a: Id, b: Id) {
    a in s.devices && b in s.devices && s.devices[a].spec.domain == s.devices[b].spec.domain
  }

  /** The operation has to come after the removal of the device and before its drain: it changes
      or reads the device, or it removes a later device or drains an earlier one of the same failure
      domain. */
  predicate Entangles(s: Snapshot, op: Operation, device: Id) {
    || (op.kind in {DeviceSetCapacity, DeviceSetWindows} && op.device == device)
    || DeviceRef(device) in ReadRefs(op)
    || (op.kind.DeviceRemove? && device < op.device && ShareDomain(s, device, op.device))
    || (op.kind.DrainResource? && op.device < device && ShareDomain(s, op.device, device))
  }

  /** A device is both removed and drained, and a third operation is caught between. */
  ghost predicate Tangle(s: Snapshot, ops: seq<Operation>, i: nat, x: nat, j: nat) {
    && i < |ops| && x < |ops| && j < |ops|
    && ops[i].kind.DeviceRemove? && ops[j].kind.DrainResource? && ops[i].device == ops[j].device
    && Entangles(s, ops[x], ops[i].device)
  }

  ghost predicate Tangled(s: Snapshot, ops: seq<Operation>) {
    exists i: nat, x: nat, j: nat :: Tangle(s, ops, i, x, j)
  }

  /** Canonical order, on two places of the list. */
  lemma InOrder(naming: Naming, ops: seq<Operation>, i: nat, j: nat)
    requires SortedBy(ops, CanonicalOrder(naming)) && i < j < |ops|
    ensures KindRank(ops[i].kind) <= KindRank(ops[j].kind)
    ensures ops[i].kind == ops[j].kind ==> TargetName(naming, ops[i]) <= TargetName(naming, ops[j])
  {
    hide KindRank, TargetName;
    assert !OperationBefore(naming, ops[j], ops[i]);
    RankDecides(ops[i].kind, ops[j].kind);
  }

  lemma LowerFirst(naming: Naming, ops: seq<Operation>, i: nat, j: nat)
    requires SortedBy(ops, CanonicalOrder(naming)) && i < |ops| && j < |ops|
    requires KindRank(ops[i].kind) < KindRank(ops[j].kind)
    ensures i < j
  {
    hide KindRank;
    if j < i { InOrder(naming, ops, j, i); }
  }

  /** Removal, then the operation caught between, then the drain, then the removal again. */
  lemma TangleOrders(s: Snapshot, contracts: seq<Contract>, removal: Operation, op: Operation, drain: Operation)
    requires removal.kind.DeviceRemove? && drain.kind.DrainResource? && removal.device == drain.device
    requires Entangles(s, op, removal.device)
    ensures IsForward(OrderFor(s, contracts, removal, op)) && IsForward(OrderFor(s, contracts, op, drain))
    ensures IsBackward(OrderFor(s, contracts, removal, drain))
  {
    hide ContractConflict;
  }

  lemma TangledIsStuck(s: Snapshot, contracts: seq<Contract>, naming: Naming, ops: seq<Operation>, i: nat, x: nat,
                       j: nat)
    requires SortedBy(ops, CanonicalOrder(naming)) && Tangle(s, ops, i, x, j)
    ensures Stuck(Arrows(s, contracts, ops), {i, x, j})
  {
    hide OrderFor, Entangles, Stuck, CanonicalOrder, SortedBy;
    TangleOrders(s, contracts, ops[i], ops[x], ops[j]);
    Between(s, naming, ops, i, x, j);
    assert Arrow(s, contracts, ops, i, x) && Arrow(s, contracts, ops, x, j) && Arrow(s, contracts, ops, j, i);
    ThreeStuck(Arrows(s, contracts, ops), i, x, j);
  }

  /** The operation caught between is also listed between. */
  lemma Between(s: Snapshot, naming: Naming, ops: seq<Operation>, i: nat, x: nat, j: nat)
    requires SortedBy(ops, CanonicalOrder(naming)) && Tangle(s, ops, i, x, j)
    ensures i < x < j
  {
    hide OperationBefore, CanonicalOrder, SortedBy;
    LowerFirst(naming, ops, i, j);
    if ops[x].kind.DeviceRemove? {
      if x < i { InOrder(naming, ops, x, i); }
      LowerFirst(naming, ops, x, j);
    } else if ops[x].kind.DrainResource? {
      if j < x { InOrder(naming, ops, j, x); }
      LowerFirst(naming, ops, i, x);
    } else {
      LowerFirst(naming, ops, i, x);
      LowerFirst(naming, ops, x, j);
    }
  }

  // ----- a rank that rises along the edges of an untangled list -----

  /** A removal that waits for a drain is ranked just above that drain; everything else keeps its
      place. */
  ghost function Height(ops: seq<Operation>, k: nat): nat {
    if k < |ops| && ops[k].kind.DeviceRemove? && exists j :: Drains(ops, j, ops[k].device)
    then
      var j: nat :| Drains(ops, j, ops[k].device);
      2 * j + 1
    else 2 * k
  }

  ghost predicate Drains(ops: seq<Operation>, j: nat, device: Id) {
    j < |ops| && ops[j].kind.DrainResource? && ops[j].device == device
  }

  lemma HeightOf(naming: Naming, ops: seq<Operation>, k: nat, j: nat)
    requires Regular(naming, ops) && k < |ops| && ops[k].kind.DeviceRemove? && Drains(ops, j, ops[k].device)
    ensures Height(ops, k) == 2 * j + 1 && k < j
  {
    hide OperationBefore, CanonicalOrder, SortedBy;
    LowerFirst(naming, ops, k, j);
  }

  /** What is listed after something it is a prerequisite of is a drain, or leaves a route unbound that
      is to be removed. */
  lemma BackwardMeans(s: Snapshot, contracts: seq<Contract>, naming: Naming, ops: seq<Operation>, i: nat, j: nat)
    requires Regular(naming, ops) && i < j < |ops| && IsBackward(OrderFor(s, contracts, ops[i], ops[j]))
    ensures (ops[i].kind.DeviceRemove? && Drains(ops, j, ops[i].device))
      || (ops[i].kind.RouteRemove? && Releases(s, ops[j], ops[i].route))
  {
    hide OperationBefore, CanonicalOrder, SortedBy, BindsRoute, Releases, SameDomain, ContractConflict, Reads;
    InOrder(naming, ops, i, j);
    assert Prerequisite(s, ops[j], ops[i]);
  }

  /** What can follow a removal whose device is drained too, without being caught between: the drain
      itself, or something listed after the drain. */
  lemma AfterRemoval(s: Snapshot, contracts: seq<Contract>, naming: Naming, ops: seq<Operation>, k: nat, m: nat, j: nat)
    requires Regular(naming, ops) && k < m < |ops| && IsForward(OrderFor(s, contracts, ops[k], ops[m]))
    requires ops[k].kind.DeviceRemove? && Drains(ops, j, ops[k].device) && !Tangled(s, ops)
    ensures m > j && !ops[m].kind.DeviceRemove?
  {
    hide OperationBefore, CanonicalOrder, SortedBy, ContractConflict;
    var x := ops[m];
    assert !Tangle(s, ops, k, m, j);
    InOrder(naming, ops, k, m);
    FollowsRemoval(s, contracts, ops[k], x);
    if x.kind.DrainResource? {
      if m < j { InOrder(naming, ops, m, j); }
      assert IsBackward(OrderFor(s, contracts, ops[k], ops[j])) by { DrainComesFirst(s, contracts, ops[k], ops[j]); }
    } else {
      LowerFirst(naming, ops, j, m);
    }
  }

  lemma DrainComesFirst(s: Snapshot, contracts: seq<Contract>, removal: Operation, drain: Operation)
    requires removal.kind.DeviceRemove? && drain.kind.DrainResource? && removal.device == drain.device
    ensures IsBackward(OrderFor(s, contracts, removal, drain))
  {
  }

  /** What a removal has to precede: something caught between, a drain or a maintenance step in the
      same domain, or a maintenance step of the device. */
  lemma FollowsRemoval(s: Snapshot, contracts: seq<Contract>, removal: Operation, x: Operation)
    requires removal.kind.DeviceRemove? && IsForward(OrderFor(s, contracts, removal, x))
    requires !x.kind.DeviceAdd? && !x.kind.DeviceSetState? && !(x.kind.DeviceRemove? && x.device <= removal.device)
    requires !Entangles(s, x, removal.device)
    ensures x.kind in {DrainResource, EnterMaintenance, ExitMaintenance}
    ensures x.kind.DrainResource? ==> removal.device < x.device
  {
    assert ContractConflict(s, contracts, removal, x) ==> SameDomain(s, removal, x);
    hide ContractConflict;
  }

  lemma EdgeRises(s: Snapshot, contracts: seq<Contract>, naming: Naming, ops: seq<Operation>, k: nat, m: nat)
    requires Regular(naming, ops) && Arrow(s, contracts, ops, k, m) && !Tangled(s, ops) && !ops[m].kind.RouteRemove?
    ensures Height(ops, k) < Height(ops, m)
  {
    hide OrderFor, Tangled, OperationBefore, CanonicalOrder, SortedBy;
    if k > m {
      BackwardMeans(s, contracts, naming, ops, m, k);
      HeightOf(naming, ops, m, k);
    } else {
      if ops[m].kind.DeviceRemove? && exists j :: Drains(ops, j, ops[m].device) {
        var j: nat :| Drains(ops, j, ops[m].device);
        HeightOf(naming, ops, m, j);
      }
      if ops[k].kind.DeviceRemove? && exists j :: Drains(ops, j, ops[k].device) {
        var j: nat :| Drains(ops, j, ops[k].device);
        HeightOf(naming, ops, k, j);
        AfterRemoval(s, contracts, naming, ops, k, m, j);
      }
    }
  }

  /** Whatever else the list holds, a tangle makes the edges cyclic. */
  lemma TangledIsCyclic(s: Snapshot, contracts: seq<Contract>, naming: Naming, stepId: Operation -> StepId,
                        ops: seq<Operation>, edges: seq<Edge>)
    requires DerivedEdges(s, contracts, stepId, ops, edges) && SortedBy(ops, CanonicalOrder(naming)) && Tangled(s, ops)
    ensures exists t :: Trapped(OpIds(ops, stepId), edges, t)
  {
    hide Trapped, DerivedEdges, Stuck, Tangle, SortedBy;
    var i: nat, x: nat, j: nat :| Tangle(s, ops, i, x, j);
    TangledIsStuck(s, contracts, naming, ops, i, x, j);
    StuckIsTrapped(s, contracts, stepId, ops, edges, {i, x, j});
  }
}
