/** Switching an obligation off can make planning harder: the drain obligation and the removal of a
    device in use. */
module DrainObligation {
  import opened Wrappers
  import opened Permutations
  import opened Sorting
  import opened Worlds
  import opened Plans
  import opened Search
  import opened Generate
  import opened Kahn
  import B = Blocking
  import opened Snapshots
  import opened Operations
  import opened Evaluate
  import opened Conditions
  import opened Derivation
  import opened Networks
  import D = Dependencies
  import T = Tangles

  /** One device, in use, with a maintenance window open at instant 0; `state` is its state. */
  function OneDevice(state: EntityState): Snapshot {
    Snapshot(Header(1, 1, 1, 1, 1, 0),
             map[1 := Device(DeviceSpec(1, state, 1, 0, 0, 1, ""), [], [Window(1, 0, 10, "")])],
             map[], map[], map[], map[], map[])
  }

  function Gone(): Target { Target(map[1 := Desired.Remove], map[], map[], map[], map[], map[]) }

  function Here(drainFirst: bool): Context { Context(0, true, true, drainFirst) }

  function RemovalOf(drainFirst: bool): (ops: seq<Operation>)
    ensures |ops| == if drainFirst then 2 else 1
  {
    [DeviceOp(DeviceRemove, 1)] + if drainFirst then [DeviceOp(DrainResource, 1)] else []
  }

  lemma RemovalDerived(drainFirst: bool, naming: Naming)
    ensures Derives(Here(drainFirst), OneDevice(Present), Gone(), naming, RemovalOf(drainFirst))
  {
    hide DeviceOp, OperationBefore;
    var ctx, s, t := Here(drainFirst), OneDevice(Present), Gone();
    assert Entries(t) == {DeviceRef(1)};
    var kinds := RemovalKinds(drainFirst, Present);
    assert EntryOps(ctx, s, t, DeviceRef(1)) == Some(ForKinds(1, kinds));
    forall op ensures op in RemovalOf(drainFirst) <==> op in DerivedOps(ctx, s, t) {
      if op in RemovalOf(drainFirst) {
        assert op.kind in kinds && op == DeviceOp(op.kind, 1);
        assert op in EntryOps(ctx, s, t, DeviceRef(1)).value;
      }
    }
    RemovalFirst(naming);
  }

  lemma RemovalFirst(naming: Naming)
    ensures !OperationBefore(naming, DeviceOp(DrainResource, 1), DeviceOp(DeviceRemove, 1))
  {
  }

  /** Obligation 0 is draining first, and obligation 1 one that every state breaks.  Planning gets
      somewhere, with these obligations off, when the operations derived then can be walked through. */
  ghost predicate GetsThrough(off: set<nat>) {
    Walks(WorldWithout(off), OneDevice(Present), RemovalOf(0 !in off))
  }

  function WorldWithout(off: set<nat>): World<Snapshot, Operation, Condition> {
    NetworkWorld(Here(0 !in off), _ => 1 !in off, (op: Operation) => if op.kind.DeviceRemove? then 1 else 2)
  }

  lemma AlwaysCanonical(state: EntityState)
    ensures Canonical(OneDevice(state)) == OneDevice(state)
  {
    var d := OneDevice(state).devices[1];
    assert SortWindows([]) == [] && SortWindows(d.maintenance) == d.maintenance by {
      assert d.maintenance[1..] == [];
      assert Sort(d.maintenance, WindowBefore) == Insert(d.maintenance[0], [], WindowBefore);
    }
  }

  lemma StateChanges(from: EntityState, kind: Kind, to: EntityState)
    requires (kind, to) in {(DrainResource, Draining), (DeviceRemove, Removed)}
    ensures Mutate(OneDevice(from), DeviceOp(kind, 1)) == OneDevice(to)
  {
    var d := OneDevice(from).devices[1];
    assert NextDevice(DeviceOp(kind, 1), Some(d)) == Some(OneDevice(to).devices[1]);
  }

  lemma StateChangeLeads(from: EntityState, kind: Kind, to: EntityState)
    requires (kind, to) in {(DrainResource, Draining), (DeviceRemove, Removed)}
    ensures Effect(OneDevice(from), DeviceOp(kind, 1)) == OneDevice(to)
  {
    hide Mutate, Canonical, OneDevice, DeviceOp;
    StateChanges(from, kind, to);
    AlwaysCanonical(to);
  }

  lemma AlwaysValid(state: EntityState)
    ensures Valid(OneDevice(state))
  {
  }

  lemma WindowsAllow(state: EntityState)
    ensures ChangePermitted(OneDevice(state).devices[1], 0) && MaintenancePermitted(OneDevice(state).devices[1], 0)
  {
    assert OneDevice(state).devices[1].maintenance[0].Contains(0);
  }

  lemma StepFits(state: EntityState, kind: Kind)
    requires (state, kind) in {(Present, DrainResource), (Draining, DeviceRemove)}
    ensures var s, op := OneDevice(state), DeviceOp(kind, 1);
      AllTrue(Here(true), s, Preconditions(s, op)) && Objection(Here(true), s, op) == None
  {
    hide ChangePermitted, MaintenancePermitted;
    WindowsAllow(state);
  }

  /** With draining first in force, and the other obligation off, the device is drained and then
      removed. */
  lemma DrainedRemovalGetsThrough()
    ensures GetsThrough({1})
  {
    hide Try, OneDevice, RemovalOf, WorldWithout, IsNetwork, Walks;
    var off: set<nat> := {1};
    assert 0 !in off && 1 in off;
    TheWorld(off);
    BothSteps(WorldWithout(off));
    TwoStepsWalk(WorldWithout(off), OneDevice(Present), RemovalOf(true), OneDevice(Draining), OneDevice(Removed));
  }

  /** Two steps that can be taken the second one first. */
  lemma TwoStepsWalk<S, O, C>(w: World<S, O, C>, s: S, ops: seq<O>, m: S, t: S)
    requires |ops| == 2 && Try(w, s, ops[1]) == Some(m) && Try(w, m, ops[0]) == Some(t)
    ensures Walks(w, s, ops)
  {
    hide Try, IsOrder;
    var q: seq<nat>, one: seq<nat> := [1, 0], [1];
    TriedNext(w, s, ops, [], 1);
    TriedNext(w, s, ops, one, 0);
    assert [] + [1 as nat] == one && one + [0] == q;
    FullOrder(q);
    assert WalksAlong(w, s, ops, q);
  }

  lemma TheWorld(off: set<nat>)
    requires 0 !in off && 1 in off
    ensures IsNetwork(WorldWithout(off), Here(true)) && forall s :: !WorldWithout(off).violated(s)
  {
  }

  lemma TriedNext<S, O, C>(w: World<S, O, C>, s: S, ops: seq<O>, q: seq<nat>, i: nat)
    requires i < |ops| && forall k :: 0 <= k < |q| ==> q[k] < |ops|
    ensures Tried(w, s, ops, q + [i]) ==
      match Tried(w, s, ops, q) { case None => None case Some(t) => Try(w, t, ops[i]) }
    ensures q == [] ==> Tried(w, s, ops, q) == Some(s)
  {
    assert (q + [i])[..|q|] == q;
  }

  lemma BothSteps(w: World<Snapshot, Operation, Condition>)
    requires IsNetwork(w, Here(true)) && forall s :: !w.violated(s)
    ensures Try(w, OneDevice(Present), RemovalOf(true)[1]) == Some(OneDevice(Draining))
    ensures Try(w, OneDevice(Draining), RemovalOf(true)[0]) == Some(OneDevice(Removed))
  {
    hide Preconditions, AllTrue, Objection, Effect, OneDevice, Try;
    TryMeans(w, Here(true), OneDevice(Present), DeviceOp(DrainResource, 1));
    TryMeans(w, Here(true), OneDevice(Draining), DeviceOp(DeviceRemove, 1));
    StepFits(Present, DrainResource);
    StepFits(Draining, DeviceRemove);
    StateChangeLeads(Present, DrainResource, Draining);
    StateChangeLeads(Draining, DeviceRemove, Removed);
    AlwaysValid(Draining);
    AlwaysValid(Removed);
  }

  lemma FullOrder(q: seq<nat>)
    requires q == [1, 0]
    ensures IsOrder(q, 2)
  {
    var i := Identity(2);
    assert i[0] == 0 && i[1] == 1;
    assert Elements(q) == Elements(i) by { assert q[0] == 1 && q[1] == 0; }
  }

  /** With both off, the bare removal is derived, and it is never ready. */
  lemma BareRemovalIsStuck()
    ensures !GetsThrough({0, 1})
  {
    hide Walks, DeviceOp;
    var off: set<nat> := {0, 1};
    assert 0 in off;
    if GetsThrough(off) { RemovalTakesTwo(WorldWithout(off), Here(false), OneDevice(Present), RemovalOf(false), 0); }
  }

  lemma NothingOffIsStuck(off: set<nat>)
    requires 1 !in off
    ensures !GetsThrough(off)
  {
    hide Apply, Preconditions, AllTrue, Objection, Effect, OneDevice, IsOrder;
    var w, s, ops := WorldWithout(off), OneDevice(Present), RemovalOf(0 !in off);
    forall q ensures !WalksAlong(w, s, ops, q) {
      if IsOrder(q, |ops|) { OrderInRange(q, |ops|); }
    }
  }

  /** So planning is not monotone in the obligations: with number 1 off it gets somewhere, and with
      the drain obligation off as well it does not.  The first pass never gets that far: it switches
      off number 1 alone, and that is the core, and irreducible. */
  lemma DrainingIsNotMonotone(left: nat, naming: Naming)
    requires left >= 4
    ensures forall drainFirst: bool ::
      Derives(Here(drainFirst), OneDevice(Present), Gone(), naming, RemovalOf(drainFirst))
    ensures GetsThrough({1}) && !GetsThrough({0, 1}) && {1 as nat} <= {0, 1}
    ensures B.Core(GetsThrough, [0, 1], left) == [1] && B.Irreducible(GetsThrough, {1})
  {
    hide GetsThrough, Derives;
    forall drainFirst: bool
      ensures Derives(Here(drainFirst), OneDevice(Present), Gone(), naming, RemovalOf(drainFirst))
    {
      RemovalDerived(drainFirst, naming);
    }
    DrainedRemovalGetsThrough();
    BareRemovalIsStuck();
    NothingOffIsStuck({});
    NothingOffIsStuck({0});
    var slots: seq<nat>, one: seq<nat>, two: seq<nat> := [0, 1], [1], [1, 0];
    assert Elements([] + [0 as nat]) == {0} && [] + [1 as nat] == one && Elements(one) == {1} && one + [0] == two;
    assert Elements(two) == {0, 1};
    assert B.Grow(GetsThrough, slots, [], 0, left) == B.Grow(GetsThrough, slots, [], 1, left - 1);
    assert B.Grow(GetsThrough, slots, [], 1, left - 1) == B.Grow(GetsThrough, slots, one, 0, left - 2);
    assert B.Grow(GetsThrough, slots, one, 1, left - 3) == B.Grow(GetsThrough, slots, one, 2, left - 3) == one;
    assert B.Grow(GetsThrough, slots, one, 0, left - 2) == one;
    assert Without(one, 0) == [] && Elements(Without(one, 0)) == {};
    assert B.Shrink(GetsThrough, one, 1) == one;
    assert B.Shrink(GetsThrough, one, 0) == one;
    forall less: set<nat> | less < {1} ensures !GetsThrough(less) { assert less == {}; }
  }

  // ----- asked for -----

  function RemovalUnder(off: set<nat>): seq<Operation> { RemovalOf(0 !in off) }

  /** The requests ask for the device to be removed, with these obligations off. */
  ghost predicate Removing(trial: set<nat> -> PlanRequest<Snapshot, Operation, Condition>, instant: int, naming: Naming,
                           contracts: seq<D.Contract>) {
    forall off: set<nat> :: RemovingWithout(trial(off), instant, naming, contracts, off)
  }

  ghost predicate RemovingWithout(req: PlanRequest<Snapshot, Operation, Condition>, instant: int, naming: Naming,
                                  contracts: seq<D.Contract>, off: set<nat>) {
    && PlansFor(req, instant, Change(Here(0 !in off), Gone(), contracts, naming), RemovalUnder(off))
    && req.base.worldAt(instant) == WorldWithout(off) && req.base.state == OneDevice(Present) && req.strategies != []
  }

  lemma DrainComesFirst(contracts: seq<D.Contract>)
    ensures D.OrderFor(OneDevice(Present), contracts, RemovalOf(true)[0], RemovalOf(true)[1])
      == Some(D.Backward(D.StructuralPrerequisite))
  {
  }

  /** The edges go from the drain to the removal, and there is one. */
  lemma DrainEdges(contracts: seq<D.Contract>, stepId: Operation -> StepId, edges: seq<Edge>)
    requires T.DerivedEdges(OneDevice(Present), contracts, stepId, RemovalOf(true), edges)
    ensures var ops := RemovalOf(true); var e := Edge(stepId(ops[1]), stepId(ops[0]));
      e in edges && forall f :: f in edges ==> f == e
  {
    hide OneDevice, RemovalOf, D.OrderFor;
    var s, ops := OneDevice(Present), RemovalOf(true);
    DrainComesFirst(contracts);
    assert T.Arrow(s, contracts, ops, 1, 0);
    forall f | f in edges ensures f == Edge(stepId(ops[1]), stepId(ops[0])) {
      var i: nat, j: nat :| T.Arrow(s, contracts, ops, i, j) && f == Edge(stepId(ops[i]), stepId(ops[j]));
      assert i == 1 && j == 0;
    }
  }

  lemma OneReady<O>(nodes: seq<Node<O>>, strategy: Strategy)
    requires |nodes| == 2 && nodes[0].predecessors == [1] && nodes[1].predecessors == []
    ensures Candidates(nodes, strategy, {}) == [1] && Candidates(nodes, strategy, {1}) == [0]
  {
    var one: seq<nat>, none: seq<nat> := [1], [0];
    assert nodes[0].predecessors[0] == 1 && !IsReady(nodes, {}, 0) && IsReady(nodes, {}, 1);
    assert ReadyUpTo(nodes, {}, 1) == ReadyUpTo(nodes, {}, 0) + [];
    assert ReadyUpTo(nodes, {}, 2) == ReadyUpTo(nodes, {}, 1) + [1];
    assert ReadyUpTo(nodes, {1}, 1) == ReadyUpTo(nodes, {1}, 0) + [0];
    assert ReadyUpTo(nodes, {1}, 2) == ReadyUpTo(nodes, {1}, 1) + [];
    assert one[1..] == [] && none[1..] == [];
    assert Sort(one, strategy.before) == one && Sort(none, strategy.before) == none;
    assert Reverse(one) == one && Reverse(none) == none;
  }

  /** A step that waits for another is found by every strategy. */
  lemma ChainIsFound<S, O, C>(w: World<S, O, C>, nodes: seq<Node<O>>, strategy: Strategy, s: S, m: S, t: S)
    requires |nodes| == 2 && nodes[0].predecessors == [1] && nodes[1].predecessors == []
    requires Try(w, s, nodes[1].op) == Some(m) && Try(w, m, nodes[0].op) == Some(t)
    ensures Greedy(w, nodes, strategy, {}, s).Some?
  {
    hide Candidates, Try;
    OneReady(nodes, strategy);
    AllMeans(nodes);
    assert 0 in All(nodes) && 1 in All(nodes);
    assert {} + {1 as nat} == {1} && {1 as nat} + {0} == All(nodes);
    assert FirstFit(w, nodes, s, [1]) == 0 && FirstFit(w, nodes, m, [0]) == 0;
    assert Greedy(w, nodes, strategy, All(nodes), t) == Some(([], t));
    assert Greedy(w, nodes, strategy, {1}, m).Some?;
  }

  lemma DrainNodes(edges: seq<Edge>, stepId: Operation -> StepId) returns (nodes: seq<Node<Operation>>)
    requires var ops := RemovalOf(true); stepId(ops[0]) != stepId(ops[1])
    requires var ops := RemovalOf(true); var e := Edge(stepId(ops[1]), stepId(ops[0]));
      e in edges && forall f :: f in edges ==> f == e
    ensures NodesFor(RemovalOf(true), edges, stepId, nodes)
    ensures nodes[0].predecessors == [1] && nodes[1].predecessors == []
  {
    hide RemovalOf;
    var ops := RemovalOf(true);
    var ids := OpIds(ops, stepId);
    nodes := [Node(ops[0], ids[0], [1], Leaving(edges, ids, ids[0])),
              Node(ops[1], ids[1], [], Leaving(edges, ids, ids[1]))];
    assert Between(nodes, Edge(ids[1], ids[0]), 1, 0);
    assert Joined(nodes, edges, 1, 0);
  }

  /** With number 1 off every strategy finds how to remove the device; with the drain obligation off as
      well, no plan exists. */
  lemma DrainObligationHelps(trial: set<nat> -> PlanRequest<Snapshot, Operation, Condition>, instant: int,
                             naming: Naming, contracts: seq<D.Contract>)
    requires Removing(trial, instant, naming, contracts)
    ensures SomeSearchSucceeds(trial({1}), instant)
    ensures forall plan: Plan<Operation, Condition> :: plan.instant == instant ==> !Sound(plan, trial({0, 1}))
  {
    hide PlansFor, Walks, OneDevice, RemovalOf, Try, NodesFor, Greedy, T.DerivedEdges;
    var one, both: set<nat> := {1}, {0, 1};
    assert 0 !in one && 1 in one && 0 in both;
    assert RemovingWithout(trial(one), instant, naming, contracts, one);
    assert RemovingWithout(trial(both), instant, naming, contracts, both);
    BareRemovalIsStuck();
    Asked(trial(one), instant, naming, contracts, one);
    Asked(trial(both), instant, naming, contracts, both);
    var req := trial(one);
    DrainEdges(contracts, req.base.worldAt(instant).stepId, req.dependencies(instant, RemovalOf(true)));
    StepsDiffer(one);
    var nodes := DrainNodes(EdgesOf(req, instant), WorldWithout(one).stepId);
    TheWorld(one);
    BothSteps(WorldWithout(one));
    NodesCarry(RemovalOf(true), EdgesOf(req, instant), WorldWithout(one).stepId, nodes);
    ChainIsFound(WorldWithout(one), nodes, req.strategies[0](nodes), OneDevice(Present), OneDevice(Draining),
                 OneDevice(Removed));
    assert SearchSucceeds(req, instant, 0, nodes);
  }

  lemma StepsDiffer(off: set<nat>)
    ensures var stepId, ops := WorldWithout(off).stepId, RemovalOf(true); stepId(ops[0]) != stepId(ops[1])
  {
  }

  lemma NodesCarry<O>(ops: seq<O>, edges: seq<Edge>, stepId: O -> StepId, nodes: seq<Node<O>>)
    requires NodesFor(ops, edges, stepId, nodes)
    ensures |nodes| == |ops| && forall i :: 0 <= i < |ops| ==> nodes[i].op == ops[i]
  {
  }

  lemma Asked(req: PlanRequest<Snapshot, Operation, Condition>, instant: int, naming: Naming,
              contracts: seq<D.Contract>, off: set<nat>)
    requires RemovingWithout(req, instant, naming, contracts, off)
    ensures req.derive(instant) == Some(RemovalUnder(off))
    ensures T.DerivedEdges(req.base.state, contracts, req.base.worldAt(instant).stepId, RemovalUnder(off),
                           req.dependencies(instant, RemovalUnder(off)))
  {
    hide T.DerivedEdges, Derives;
  }
}
