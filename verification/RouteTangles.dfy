/** The cycles that go through route removals, and the exact condition on the lists derivation
    makes. */
module RouteTangles {
  import opened Permutations
  import opened Sorting
  import opened Worlds
  import opened Kahn
  import opened Cycles
  import opened Snapshots
  import opened Operations
  import opened Evaluate
  import opened Dependencies
  import opened Tangles

  /** The routes the list removes that the operation binds: it has to come after those removals, and
      before all others. */
  ghost function Keeps(ops: seq<Operation>, k: nat): set<Id>
    requires k < |ops|
  {
    set i | 0 <= i < |ops| && ops[i].kind.RouteRemove? && BindsRoute(ops[k].bindings, ops[i].route) :: ops[i].route
  }

  /** Changes a workload in a way that frees the routes it does not bind. */
  predicate Frees(op: Operation) { op.kind in {WorkloadSetBindings, WorkloadSetRequirements} }

  /** The two operations change one workload, and not merely different fields of it. */
  predicate SameWorkload(a: Operation, b: Operation) { WriteRef(a) == WriteRef(b) && !IndependentFields(a, b) }

  /** Each of the two has to wait for a removal that has to wait for the other; or the second has to,
      and has to come after the first anyway. */
  ghost predicate RouteTangle(ops: seq<Operation>, x: nat, y: nat) {
    && x < |ops| && y < |ops| && Frees(ops[x]) && Frees(ops[y]) && !(Keeps(ops, x) <= Keeps(ops, y))
    && (!(Keeps(ops, y) <= Keeps(ops, x)) || (x < y && SameWorkload(ops[x], ops[y])))
  }

  ghost predicate RouteTangled(ops: seq<Operation>) {
    exists x: nat, y: nat :: RouteTangle(ops, x, y)
  }

  // ----- a tangle is a cycle -----

  lemma RemovalOrder(s: Snapshot, contracts: seq<Contract>, removal: Operation, op: Operation)
    requires removal.kind.RouteRemove? && Frees(op)
    ensures if BindsRoute(op.bindings, removal.route) then IsForward(OrderFor(s, contracts, removal, op))
            else IsBackward(OrderFor(s, contracts, removal, op))
  {
    hide BindsRoute, ContractConflict;
    if BindsRoute(op.bindings, removal.route) { BoundIsRead(op.bindings, removal.route); }
  }

  lemma BoundIsRead(bs: seq<Binding>, route: Id)
    requires BindsRoute(bs, route)
    ensures RouteRef(route) in BindingRefs(bs)
  {
  }

  lemma RemovalArrow(s: Snapshot, contracts: seq<Contract>, naming: Naming, ops: seq<Operation>, i: nat, x: nat)
    requires SortedBy(ops, CanonicalOrder(naming)) && i < |ops| && x < |ops| && ops[i].kind.RouteRemove?
    requires Frees(ops[x])
    ensures if BindsRoute(ops[x].bindings, ops[i].route) then Arrows(s, contracts, ops)(i, x)
      else Arrows(s, contracts, ops)(x, i)
  {
    hide OrderFor, BindsRoute, SortedBy, CanonicalOrder;
    LowerFirst(naming, ops, i, x);
    RemovalOrder(s, contracts, ops[i], ops[x]);
  }

  lemma WorkloadArrow(s: Snapshot, contracts: seq<Contract>, ops: seq<Operation>, x: nat, y: nat)
    requires x < y < |ops| && Frees(ops[x]) && Frees(ops[y]) && SameWorkload(ops[x], ops[y])
    ensures Arrows(s, contracts, ops)(x, y)
  {
    hide BindsRoute, ContractConflict, SameDomain, Reads;
  }

  /** A removed route one operation binds and another does not. */
  lemma KeptRemoval(ops: seq<Operation>, x: nat, y: nat) returns (i: nat)
    requires x < |ops| && y < |ops| && !(Keeps(ops, x) <= Keeps(ops, y))
    ensures i < |ops| && ops[i].kind.RouteRemove?
    ensures BindsRoute(ops[x].bindings, ops[i].route) && !BindsRoute(ops[y].bindings, ops[i].route)
  {
    hide BindsRoute;
    var r :| r in Keeps(ops, x) && r !in Keeps(ops, y);
    i :| 0 <= i < |ops| && ops[i].kind.RouteRemove? && ops[i].route == r && BindsRoute(ops[x].bindings, r);
  }

  lemma RouteTangledIsStuck(s: Snapshot, contracts: seq<Contract>, naming: Naming, ops: seq<Operation>)
    requires SortedBy(ops, CanonicalOrder(naming)) && RouteTangled(ops)
    ensures exists u :: Stuck(Arrows(s, contracts, ops), u)
  {
    hide Stuck, SortedBy, Arrows, Keeps, SameWorkload, Frees;
    var arrow := Arrows(s, contracts, ops);
    var x: nat, y: nat :| RouteTangle(ops, x, y);
    var i := KeptRemoval(ops, x, y);
    RemovalArrow(s, contracts, naming, ops, i, x);
    RemovalArrow(s, contracts, naming, ops, i, y);
    if x < y && SameWorkload(ops[x], ops[y]) {
      WorkloadArrow(s, contracts, ops, x, y);
      ThreeStuck(arrow, i, x, y);
    } else {
      var j := KeptRemoval(ops, y, x);
      RemovalArrow(s, contracts, naming, ops, j, x);
      RemovalArrow(s, contracts, naming, ops, j, y);
      FourStuck(arrow, i, x, j, y);
    }
  }

  // ----- and there are no other cycles there -----

  /** Route removals and the operations on bindings are ordered among themselves, apart from what comes
      before them all and what comes after. */
  ghost function Level(ops: seq<Operation>, k: nat): nat {
    if k >= |ops| then 0
    else if ops[k].kind in {RouteRemove, WorkloadAdd, WorkloadSetBindings, WorkloadSetRequirements} then 1
    else if KindRank(ops[k].kind) >= 16 then 2
    else if ops[k].kind.DeviceRemove? && exists j :: Drains(ops, j, ops[k].device) then 2
    else 0
  }

  /** What a route removal or the addition of a workload comes before. */
  lemma FollowsRouteRemoval(s: Snapshot, contracts: seq<Contract>, a: Operation, b: Operation)
    requires a.kind in {RouteRemove, WorkloadAdd} && IsForward(OrderFor(s, contracts, a, b))
    requires WriteRef(a) != WriteRef(b)
    requires KindRank(a.kind) <= KindRank(b.kind) && (b.kind.WorkloadRemove? ==> b.bindings == [])
    ensures KindRank(b.kind) >= 16 || b.kind in {WorkloadAdd, WorkloadSetBindings, WorkloadSetRequirements}
    ensures b.kind in {WorkloadAdd, WorkloadSetBindings, WorkloadSetRequirements} ==>
      a.kind.RouteRemove? && BindsRoute(b.bindings, a.route)
  {
    hide BindsRoute, ReadRefs;
    ContractsAddNothing(s, contracts, a, b);
    if Reads(a, b) && AreaOf(b.kind) in {Routes, Workloads} { WhoReadsRoutes(a, b); }
    if Reads(b, a) { WhoReadsRoutes(b, a); }
    if b.kind in {WorkloadAdd, WorkloadSetBindings, WorkloadSetRequirements} && a.kind.RouteRemove? {
      ReadIsBound(b.bindings, a.route);
    }
  }

  /** Only operations on bindings and policies read routes or workloads. */
  lemma WhoReadsRoutes(op: Operation, other: Operation)
    requires AreaOf(other.kind) in {Routes, Workloads} && Reads(op, other)
    ensures AreaOf(op.kind).Policies? || (AreaOf(op.kind).Workloads? && AreaOf(other.kind).Routes? && op.bindings != []
      && RouteRef(other.route) in BindingRefs(op.bindings))
  {
  }

  lemma ReadIsBound(bs: seq<Binding>, route: Id)
    ensures RouteRef(route) in BindingRefs(bs) ==> BindsRoute(bs, route)
  {
  }

  lemma LevelsRise(s: Snapshot, contracts: seq<Contract>, naming: Naming, ops: seq<Operation>, k: nat, m: nat)
    requires Regular(naming, ops) && !Tangled(s, ops) && Arrows(s, contracts, ops)(k, m)
    ensures Level(ops, k) <= Level(ops, m)
  {
    hide OrderFor, Tangled, OperationBefore, CanonicalOrder, SortedBy, Releases;
    if k > m {
      BackwardMeans(s, contracts, naming, ops, m, k);
      InOrder(naming, ops, m, k);
      if ops[m].kind.RouteRemove? { ReleasesMeans(s, ops[k], ops[m].route); }
    } else {
      InOrder(naming, ops, k, m);
      if ops[k].kind in {RouteRemove, WorkloadAdd} {
        FollowsRouteRemoval(s, contracts, ops[k], ops[m]);
      } else if ops[k].kind.DeviceRemove? && exists j :: Drains(ops, j, ops[k].device) {
        var j: nat :| Drains(ops, j, ops[k].device);
        AfterRemoval(s, contracts, naming, ops, k, m, j);
        InOrder(naming, ops, j, m);
      }
    }
  }

  lemma ReleasesMeans(s: Snapshot, op: Operation, route: Id)
    requires Releases(s, op, route)
    ensures op.kind.WorkloadRemove? || (Frees(op) && !BindsRoute(op.bindings, route))
  {
  }

  /** What comes directly before what, among route removals and operations on bindings. */
  lemma BeforeInside(s: Snapshot, contracts: seq<Contract>, naming: Naming, ops: seq<Operation>, y: nat, x: nat)
    requires Regular(naming, ops) && Arrows(s, contracts, ops)(y, x) && Level(ops, y) == Level(ops, x) == 1
    ensures ops[x].kind.RouteRemove? ==> Frees(ops[y]) && !BindsRoute(ops[y].bindings, ops[x].route)
    ensures ops[x].kind.WorkloadAdd? ==> ops[y].kind.RouteRemove?
    ensures Frees(ops[x]) ==>
      || (ops[y].kind.RouteRemove? && BindsRoute(ops[x].bindings, ops[y].route))
      || (Frees(ops[y]) && y < x && SameWorkload(ops[y], ops[x]))
  {
    hide OrderFor, BindsRoute, CanonicalOrder, SortedBy, Releases, SameWorkload, Drains;
    if y > x {
      BackwardMeans(s, contracts, naming, ops, x, y);
      ReleasesMeans(s, ops[y], ops[x].route);
    } else {
      InOrder(naming, ops, y, x);
      if Frees(ops[y]) {
        FreeingOrder(s, contracts, ops[y], ops[x]);
      } else {
        FollowsRouteRemoval(s, contracts, ops[y], ops[x]);
      }
    }
  }

  lemma FreeingOrder(s: Snapshot, contracts: seq<Contract>, a: Operation, b: Operation)
    requires Frees(a) && Frees(b) && IsForward(OrderFor(s, contracts, a, b))
    ensures SameWorkload(a, b)
  {
    ContractsAddNothing(s, contracts, a, b);
  }

  /** Going back from anything stuck there, one meets an operation that frees routes. */
  lemma FreeingMember(s: Snapshot, contracts: seq<Contract>, naming: Naming, ops: seq<Operation>, u: set<nat>)
    returns (x: nat)
    requires Regular(naming, ops) && Stuck(Arrows(s, contracts, ops), u) && forall x :: x in u ==> Level(ops, x) == 1
    ensures x in u && x < |ops| && Frees(ops[x])
  {
    hide Stuck, Regular, Arrows, BindsRoute, SameWorkload;
    var arrow := Arrows(s, contracts, ops);
    x := Member(arrow, u);
    if ops[x].kind.WorkloadAdd? {
      var y := StepBack(arrow, u, x);
      BeforeInside(s, contracts, naming, ops, y, x);
      x := y;
    }
    if ops[x].kind.RouteRemove? {
      var y := StepBack(arrow, u, x);
      BeforeInside(s, contracts, naming, ops, y, x);
      x := y;
    }
  }

  /** Fewer removals to wait for first, then the earlier place. */
  ghost function Weight(ops: seq<Operation>, x: nat): nat {
    if x < |ops| then |Keeps(ops, x)| * (|ops| + 1) + x else 0
  }

  lemma Lighter(ops: seq<Operation>, x: nat, y: nat)
    requires x < |ops| && y < |ops| && Keeps(ops, x) <= Keeps(ops, y) && (x < y || !(Keeps(ops, y) <= Keeps(ops, x)))
    ensures Weight(ops, x) < Weight(ops, y)
  {
    hide Keeps;
    var a, b, n := |Keeps(ops, x)|, |Keeps(ops, y)|, |ops| + 1;
    Subset(Keeps(ops, x), Keeps(ops, y));
    if !(Keeps(ops, y) <= Keeps(ops, x)) {
      ProperlyFewer(Keeps(ops, x), Keeps(ops, y));
      assert a + 1 <= b;
      assert (a + 1) * n <= b * n by { Scaled(a + 1, b, n); }
      assert (a + 1) * n == a * n + n;
    } else {
      assert Keeps(ops, x) == Keeps(ops, y);
    }
  }

  lemma Scaled(a: nat, b: nat, n: nat)
    requires a <= b
    ensures a * n <= b * n
  {
  }

  lemma ProperlyFewer(a: set<Id>, b: set<Id>)
    requires a <= b && !(b <= a)
    ensures |a| < |b|
  {
    assert b == a + (b - a);
    assert b - a != {};
  }

  lemma RoutePartNotStuck(s: Snapshot, contracts: seq<Contract>, naming: Naming, ops: seq<Operation>, u: set<nat>)
    requires Regular(naming, ops) && !RouteTangled(ops) && forall x :: x in u ==> Level(ops, x) == 1
    ensures !Stuck(Arrows(s, contracts, ops), u)
  {
    hide Stuck, Regular, Arrows, Level, BindsRoute, SameWorkload, Weight, Keeps, Frees;
    var arrow := Arrows(s, contracts, ops);
    if Stuck(arrow, u) {
      var x0 := FreeingMember(s, contracts, naming, ops, u);
      var freeing := set x | x in u && x < |ops| && Frees(ops[x]);
      assert x0 in freeing;
      var x := Lowest(freeing, (k: nat) => Weight(ops, k));
      forall z | z in u && z < |ops| && Frees(ops[z]) ensures Weight(ops, x) <= Weight(ops, z) { assert z in freeing; }
      var y := StepBack(arrow, u, x);
      var z := Lightened(s, contracts, naming, ops, u, y, x);
    }
  }

  /** Whatever comes before an operation that frees routes, something lighter does. */
  lemma Lightened(s: Snapshot, contracts: seq<Contract>, naming: Naming, ops: seq<Operation>, u: set<nat>, y: nat,
                  x: nat)
    returns (z: nat)
    requires Regular(naming, ops) && !RouteTangled(ops) && forall x :: x in u ==> Level(ops, x) == 1
    requires Stuck(Arrows(s, contracts, ops), u) && y in u && x in u && Arrows(s, contracts, ops)(y, x)
    requires x < |ops| && Frees(ops[x])
    ensures z in u && z < |ops| && Frees(ops[z]) && Weight(ops, z) < Weight(ops, x)
  {
    hide Stuck, Regular, Arrows, Weight, SameWorkload;
    BeforeInside(s, contracts, naming, ops, y, x);
    if ops[y].kind.RouteRemove? {
      z := StepBack(Arrows(s, contracts, ops), u, y);
      BeforeInside(s, contracts, naming, ops, z, y);
      assert ops[y].route in Keeps(ops, x) && ops[y].route !in Keeps(ops, z) by {
        KeptHere(ops, x, y);
        NotKept(ops, z, ops[y].route);
      }
      assert !RouteTangle(ops, x, z);
      Lighter(ops, z, x);
    } else {
      z := y;
      assert !RouteTangle(ops, y, x);
      Lighter(ops, y, x);
    }
  }

  lemma KeptHere(ops: seq<Operation>, x: nat, i: nat)
    requires x < |ops| && i < |ops| && ops[i].kind.RouteRemove? && BindsRoute(ops[x].bindings, ops[i].route)
    ensures ops[i].route in Keeps(ops, x)
  {
    hide BindsRoute;
  }

  lemma NotKept(ops: seq<Operation>, x: nat, route: Id)
    requires x < |ops| && !BindsRoute(ops[x].bindings, route)
    ensures route !in Keeps(ops, x)
  {
    hide BindsRoute;
  }

  // ----- the exact condition -----

  lemma UntangledIsNotStuck(s: Snapshot, contracts: seq<Contract>, naming: Naming, ops: seq<Operation>, u: set<nat>)
    requires Regular(naming, ops) && !Tangled(s, ops) && !RouteTangled(ops)
    ensures !Stuck(Arrows(s, contracts, ops), u)
  {
    hide Stuck, Regular, Arrows, Tangled, RouteTangled, Level, Height;
    var arrow := Arrows(s, contracts, ops);
    if Stuck(arrow, u) {
      forall y, x | y in u && x in u && arrow(y, x) ensures Level(ops, y) <= Level(ops, x) {
        LevelsRise(s, contracts, naming, ops, y, x);
      }
      var v, level := Layer(arrow, u, (k: nat) => Level(ops, k));
      if level == 1 {
        RoutePartNotStuck(s, contracts, naming, ops, v);
      } else {
        var x0 := Member(arrow, v);
        var x := Lowest(v, (k: nat) => Height(ops, k));
        var y := StepBack(arrow, v, x);
        OutsideRises(s, contracts, naming, ops, y, x);
      }
    }
  }

  lemma OutsideRises(s: Snapshot, contracts: seq<Contract>, naming: Naming, ops: seq<Operation>, y: nat, x: nat)
    requires Regular(naming, ops) && !Tangled(s, ops) && Arrows(s, contracts, ops)(y, x) && Level(ops, x) != 1
    ensures Height(ops, y) < Height(ops, x)
  {
    hide Regular, Tangled, Height;
    EdgeRises(s, contracts, naming, ops, y, x);
  }

  /** The exact condition for every list derivation makes: the edges form a cycle if and only if some
      device is both removed and drained while a third operation changes it, reads it, removes a later
      device or drains an earlier one of its failure domain; or two changes of bindings each keep a
      removed route the other frees, or one of them keeps a removed route which a later change of the
      same workload frees. */
  lemma CyclicIffTangled(s: Snapshot, contracts: seq<Contract>, naming: Naming, stepId: Operation -> StepId,
                         ops: seq<Operation>, edges: seq<Edge>)
    requires DerivedEdges(s, contracts, stepId, ops, edges) && Unrepeated(ops, stepId) && Regular(naming, ops)
    ensures (exists t :: Trapped(OpIds(ops, stepId), edges, t)) <==> Tangled(s, ops) || RouteTangled(ops)
  {
    hide Trapped, DerivedEdges, Stuck, Tangle, SortedBy, RouteTangled;
    if Tangled(s, ops) { TangledIsCyclic(s, contracts, naming, stepId, ops, edges); }
    if RouteTangled(ops) { RouteTangledIsCyclic(s, contracts, naming, stepId, ops, edges); }
    if t :| Trapped(OpIds(ops, stepId), edges, t) {
      TrappedIsStuck(s, contracts, stepId, ops, edges, t);
      var u :| Stuck(Arrows(s, contracts, ops), u);
      if !Tangled(s, ops) && !RouteTangled(ops) { UntangledIsNotStuck(s, contracts, naming, ops, u); }
    }
  }

  lemma RouteTangledIsCyclic(s: Snapshot, contracts: seq<Contract>, naming: Naming, stepId: Operation -> StepId,
                             ops: seq<Operation>, edges: seq<Edge>)
    requires DerivedEdges(s, contracts, stepId, ops, edges) && SortedBy(ops, CanonicalOrder(naming))
    requires RouteTangled(ops)
    ensures exists t :: Trapped(OpIds(ops, stepId), edges, t)
  {
    hide Trapped, DerivedEdges, Stuck, RouteTangled, SortedBy;
    RouteTangledIsStuck(s, contracts, naming, ops);
    var u :| Stuck(Arrows(s, contracts, ops), u);
    StuckIsTrapped(s, contracts, stepId, ops, edges, u);
  }
}
