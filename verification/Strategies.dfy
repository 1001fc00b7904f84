/** The four ways the search arranges ready steps, and a change of the network that one of them
    cannot order although a safe order exists. */
module Strategies {
  import opened Wrappers
  import opened Sorting
  import opened Worlds
  import opened Search
  import opened Generate
  import opened Snapshots
  import opened Operations
  import opened Evaluate
  import D = Dependencies
  import opened Conditions
  import opened Derivation
  import opened Networks

  // ----- risk -----

  function BaseRisk(k: Kind): nat {
    match k
    case ConfigSet | ConfigClear | PolicyBind | PolicyUnbind => 10
    case WorkloadSetBindings | WorkloadSetRequirements | WorkloadAdd | WorkloadRemove => 25
    case DeviceSetCapacity | LinkSetCapacity => 30
    case RouteSetState | RouteSetPath | RouteAdd | RouteRemove => 40
    case LinkAdd | LinkRemove => 50
    case DeviceSetState | DeviceSetWindows => 60
    case DrainResource => 65
    case EnterMaintenance | ExitMaintenance => 70
    case DeviceAdd | DeviceRemove => 80
  }

  /** Risk scores are 32-bit numbers, and their sum wraps. */
  function Risk(op: Operation): nat { (BaseRisk(op.kind) + op.metadata.risk) % 0x1_0000_0000 }

  // ----- the arrangements -----

  datatype Approach = SafetyFirst | UnlockFirst | MaintenanceFirst | ReverseCanonical

  /** What an approach looks at before it falls back on the canonical order: two numbers, compared
      one after the other. */
  function Weights(approach: Approach, node: Node<Operation>): (int, int) {
    var calm: int := if RequiresWindow(node.op.kind) then 1 else 0;
    match approach
    case SafetyFirst => (calm, Risk(node.op) as int)
    case UnlockFirst => (-(node.successors as int), Risk(node.op) as int)
    case MaintenanceFirst => (1 - calm, -(Risk(node.op) as int))
    case ReverseCanonical => (0, 0)
  }

  predicate NodeBefore(approach: Approach, naming: Naming, x: Node<Operation>, y: Node<Operation>) {
    var a, b := Weights(approach, x), Weights(approach, y);
    if a.0 != b.0 then a.0 < b.0
    else if a.1 != b.1 then a.1 < b.1
    else OperationBefore(naming, x.op, y.op)
  }

  function Arrangement(approach: Approach, naming: Naming, nodes: seq<Node<Operation>>): Strategy {
    Strategy((a: nat, b: nat) => a < |nodes| && b < |nodes| && NodeBefore(approach, naming, nodes[a], nodes[b]),
             approach.ReverseCanonical?)
  }

  /** Each of the four compares ready steps consistently, so that sorting by it makes sense. */
  lemma ComparesConsistently(approach: Approach, naming: Naming, x: Node<Operation>, y: Node<Operation>,
                             z: Node<Operation>)
    ensures NodeBefore(approach, naming, x, y) ==> !NodeBefore(approach, naming, y, x)
    ensures !NodeBefore(approach, naming, x, y) && !NodeBefore(approach, naming, y, z) ==>
      !NodeBefore(approach, naming, x, z)
  {
    hide OperationBefore, Weights;
    CanonicalOrderIsWeak(naming);
    var before := CanonicalOrder(naming);
    assert before(x.op, y.op) == OperationBefore(naming, x.op, y.op);
    assert before(y.op, x.op) == OperationBefore(naming, y.op, x.op);
    assert before(y.op, z.op) == OperationBefore(naming, y.op, z.op);
    assert before(x.op, z.op) == OperationBefore(naming, x.op, z.op);
  }

  // ----- what comes first -----

  /** The kinds of operation from the mildest to the gravest. */
  function Grades(): seq<set<Kind>> {
    [{ConfigSet, ConfigClear, PolicyBind, PolicyUnbind},
     {WorkloadAdd, WorkloadRemove, WorkloadSetBindings, WorkloadSetRequirements},
     {DeviceSetCapacity, LinkSetCapacity},
     {RouteAdd, RouteRemove, RouteSetPath, RouteSetState},
     {LinkAdd, LinkRemove},
     {DeviceSetState, DeviceSetWindows},
     {DrainResource},
     {EnterMaintenance, ExitMaintenance},
     {DeviceAdd, DeviceRemove}]
  }

  /** The first kind of operation is milder than the second. */
  ghost predicate Milder(k: Kind, l: Kind) {
    exists i, j :: 0 <= i < j < |Grades()| && k in Grades()[i] && l in Grades()[j]
  }

  lemma GradeOf(k: Kind) returns (i: nat)
    ensures i < |Grades()| && k in Grades()[i]
    ensures forall j :: 0 <= j < |Grades()| && k in Grades()[j] ==> j == i
    ensures BaseRisk(k) == [10, 25, 30, 40, 50, 60, 65, 70, 80][i]
  {
    i := match BaseRisk(k)
      case 10 => 0
      case 25 => 1
      case 30 => 2
      case 40 => 3
      case 50 => 4
      case 60 => 5
      case 65 => 6
      case 70 => 7
      case _ => 8;
  }

  lemma MilderMeans(x: Operation, y: Operation)
    requires x.metadata.risk == y.metadata.risk == 0
    ensures Risk(x) < Risk(y) <==> Milder(x.kind, y.kind)
  {
    hide Grades, BaseRisk;
    var i := GradeOf(x.kind);
    var j := GradeOf(y.kind);
    var rising := [10, 25, 30, 40, 50, 60, 65, 70, 80];
    assert forall a, b :: 0 <= a < b < |rising| ==> rising[a] < rising[b];
    GradesCount();
  }

  lemma GradesCount()
    ensures |Grades()| == 9
  {
  }

  predicate Maintains(op: Operation) { op.kind in {DrainResource, EnterMaintenance, ExitMaintenance, DeviceRemove} }

  /** Which of two ready steps an approach tries first: maintenance last and mild steps before grave ones;
      what most steps wait for, then mild steps; maintenance, then grave steps; or the canonically last.
      What is left open is decided canonically. */
  ghost predicate Precedes(approach: Approach, naming: Naming, x: Node<Operation>, y: Node<Operation>) {
    var canonical := OperationBefore(naming, x.op, y.op);
    var alike := !Milder(x.op.kind, y.op.kind) && !Milder(y.op.kind, x.op.kind);
    match approach
    case SafetyFirst =>
      || (!Maintains(x.op) && Maintains(y.op))
      || ((Maintains(x.op) <==> Maintains(y.op)) && (Milder(x.op.kind, y.op.kind) || (alike && canonical)))
    case UnlockFirst =>
      || x.successors > y.successors
      || (x.successors == y.successors && (Milder(x.op.kind, y.op.kind) || (alike && canonical)))
    case MaintenanceFirst =>
      || (Maintains(x.op) && !Maintains(y.op))
      || ((Maintains(x.op) <==> Maintains(y.op)) && (Milder(y.op.kind, x.op.kind) || (alike && canonical)))
    case ReverseCanonical => OperationBefore(naming, y.op, x.op)
  }

  lemma PrecedesMeans(approach: Approach, naming: Naming, x: Node<Operation>, y: Node<Operation>)
    requires x.op.metadata.risk == y.op.metadata.risk == 0
    ensures approach.ReverseCanonical? ==>
      (NodeBefore(approach, naming, x, y) <==> Precedes(approach, naming, y, x))
    ensures !approach.ReverseCanonical? ==>
      (NodeBefore(approach, naming, x, y) <==> Precedes(approach, naming, x, y))
  {
    hide Risk, Milder, OperationBefore;
    MilderMeans(x.op, y.op);
    MilderMeans(y.op, x.op);
  }

  /** A list is sorted by a comparison that is consistent on its members. */
  lemma {:induction false} SortsAmong<T(!new)>(s: seq<T>, less: (T, T) -> bool, all: set<T>)
    requires forall x :: x in s ==> x in all
    requires forall a, b :: a in all && b in all && less(a, b) ==> !less(b, a)
    requires forall a, b, c :: a in all && b in all && c in all && !less(a, b) && !less(b, c) ==> !less(a, c)
    ensures SortedBy(Sort(s, less), less)
  {
    if s != [] {
      SortsAmong(s[1..], less, all);
      forall x | x in Sort(s[1..], less) ensures x in all { SortMembers(s[1..], less, x); }
      InsertsAmong(s[0], Sort(s[1..], less), less, all);
    }
  }

  lemma {:induction false} InsertsAmong<T(!new)>(x: T, s: seq<T>, less: (T, T) -> bool, all: set<T>)
    requires SortedBy(s, less) && x in all && forall y :: y in s ==> y in all
    requires forall a, b :: a in all && b in all && less(a, b) ==> !less(b, a)
    requires forall a, b, c :: a in all && b in all && c in all && !less(a, b) && !less(b, c) ==> !less(a, c)
    ensures SortedBy(Insert(x, s, less), less)
  {
    if s == [] {
    } else if !less(s[0], x) {
      forall j | 0 <= j < |s| ensures !less(s[j], x) {
        assert j > 0 ==> !less(s[j], s[0]);
        assert s[j] in all && s[0] in all;
      }
    } else {
      var r := Insert(x, s[1..], less);
      InsertsAmong(x, s[1..], less, all);
      InsertKeeps(x, s[1..], less);
      forall j | 0 <= j < |r| ensures !less(r[j], s[0]) {
        assert r[j] in multiset(r);
        assert r[j] == x || r[j] in s[1..];
      }
    }
  }

  /** Steps that are ready are tried in the order the approach stands for: none is tried after another that
      it precedes.  Derived operations are all rated as their kind. */
  lemma TriedInOrder(approach: Approach, naming: Naming, nodes: seq<Node<Operation>>, done: set<nat>, i: nat, j: nat)
    requires forall k :: 0 <= k < |nodes| ==> nodes[k].op.metadata.risk == 0
    ensures var ready := Candidates(nodes, Arrangement(approach, naming, nodes), done);
      i < j < |ready| ==>
        && ready[i] < |nodes| && ready[j] < |nodes|
        && !Precedes(approach, naming, nodes[ready[j]], nodes[ready[i]])
  {
    hide NodeBefore, Precedes;
    var strategy := Arrangement(approach, naming, nodes);
    var ready := ReadyUpTo(nodes, done, |nodes|);
    ReadyMeans(nodes, done, |nodes|);
    AllMeans(nodes);
    var all := All(nodes);
    forall a: nat, b: nat | a in all && b in all && strategy.before(a, b) ensures !strategy.before(b, a) {
      ComparesConsistently(approach, naming, nodes[a], nodes[b], nodes[a]);
    }
    forall a: nat, b: nat, c: nat | a in all && b in all && c in all && !strategy.before(a, b) && !strategy.before(b, c)
      ensures !strategy.before(a, c)
    {
      ComparesConsistently(approach, naming, nodes[a], nodes[b], nodes[c]);
    }
    SortsAmong(ready, strategy.before, all);
    CandidatesReady(nodes, strategy, done);
    var tried := Candidates(nodes, strategy, done);
    if i < j < |tried| {
      PrecedesMeans(approach, naming, nodes[tried[j]], nodes[tried[i]]);
      PrecedesMeans(approach, naming, nodes[tried[i]], nodes[tried[j]]);
    }
  }

  // ----- an order the search misses -----

  /** Once a link is gone, a route that runs over it can no longer be moved: the change of its path
      asks for the route to be in service as it is. */
  lemma GoneLinkHoldsRoute(ctx: Context, s: Snapshot, m: Snapshot, link: Id, op: Operation)
    requires op.kind.RouteSetPath? && op.route in m.routes && link in m.routes[op.route].spec.path
    requires link in m.links && m.links[link].state == Removed
    ensures !AllTrue(ctx, m, Preconditions(s, op))
  {
    hide Walkable;
    var cs := Preconditions(s, op);
    var i :| 0 <= i < |m.routes[op.route].spec.path| && m.routes[op.route].spec.path[i] == link;
    assert !Serviceable(m, m.routes[op.route].spec);
    assert cs[|cs| - 1] == RouteWalkable(op.route);
    assert Holds(ctx, m, cs[|cs| - 1]) != Some(true);
  }

  lemma PairReady<O>(nodes: seq<Node<O>>)
    requires |nodes| == 2 && nodes[0].predecessors == [] && nodes[1].predecessors == []
    ensures ReadyUpTo(nodes, {}, 2) == [0, 1] && ReadyUpTo(nodes, {0}, 2) == [1]
  {
    assert ReadyUpTo(nodes, {}, 1) == ReadyUpTo(nodes, {}, 0) + [0];
    assert ReadyUpTo(nodes, {}, 2) == ReadyUpTo(nodes, {}, 1) + [1];
    assert ReadyUpTo(nodes, {0}, 1) == ReadyUpTo(nodes, {0}, 0) + [];
    assert ReadyUpTo(nodes, {0}, 2) == ReadyUpTo(nodes, {0}, 1) + [1];
  }

  lemma PairArranged<O>(nodes: seq<Node<O>>, strategy: Strategy)
    requires |nodes| == 2 && nodes[0].predecessors == [] && nodes[1].predecessors == []
    requires !strategy.reversed && !strategy.before(1, 0)
    ensures Candidates(nodes, strategy, {}) == [0, 1] && Candidates(nodes, strategy, {0}) == [1]
  {
    PairReady(nodes);
    var less := strategy.before;
    var both: seq<nat>, last: seq<nat> := [0, 1], [1];
    assert both[1..] == last && last[1..] == [];
    assert Sort(last, less) == last;
    assert Sort(both, less) == Insert(0, last, less) == both;
  }

  /** Two unlinked steps, the first of which the strategy prefers although it shuts the door on the
      second: the search is stuck. */
  lemma PairIsMissed<S, O, C>(w: World<S, O, C>, nodes: seq<Node<O>>, strategy: Strategy, s: S, m: S)
    requires |nodes| == 2 && nodes[0].predecessors == [] && nodes[1].predecessors == []
    requires !strategy.reversed && !strategy.before(1, 0)
    requires Try(w, s, nodes[0].op) == Some(m) && Try(w, m, nodes[1].op) == None
    ensures Greedy(w, nodes, strategy, {}, s) == None
  {
    hide Candidates, Try;
    PairArranged(nodes, strategy);
    AllMeans(nodes);
    assert 0 in All(nodes) && 1 in All(nodes);
    assert {} + {0 as nat} == {0} && {0} < All(nodes);
    assert FitsAt(w, nodes, m, [1], 1);
    GreedyStuck(w, nodes, strategy, {0}, m);
    assert FirstFit(w, nodes, s, [0, 1]) == 0;
  }

  /** Two steps that no edge joins: a link to be removed, and a route that runs over it to be moved. */
  ghost predicate Rerouting(s: Snapshot, stepId: Operation -> StepId, nodes: seq<Node<Operation>>, remove: Operation,
                            move: Operation) {
    && nodes == [Node(remove, stepId(remove), [], 0), Node(move, stepId(move), [], 0)]
    && remove.kind.LinkRemove? && move.kind.RouteSetPath? && remove.metadata.risk == move.metadata.risk == 0
    && move.route in s.routes && remove.link in s.routes[move.route].spec.path
  }

  lemma RemovedLink(ctx: Context, s: Snapshot, op: Operation, m: Snapshot)
    requires op.kind.LinkRemove? && Apply(ctx, s, op) == Ok(m)
    ensures m.routes == s.routes && op.link in m.links && m.links[op.link].state == Removed
  {
    hide Valid, ExclusionGate, WindowGate, SortUnique, CanonicalDevices, CanonicalWorkloads;
    assert m.links == CanonicalLinks(StepLinks(s.links, op));
  }

  /** Taking the riskier step first, the search removes the link wherever that is possible, and then
      the route can never be moved, whatever the network and the obligations are. */
  lemma RerouteIsMissed(w: World<Snapshot, Operation, Condition>, ctx: Context, naming: Naming, s: Snapshot,
                        nodes: seq<Node<Operation>>, remove: Operation, move: Operation)
    requires IsNetwork(w, ctx) && Rerouting(s, w.stepId, nodes, remove, move) && Try(w, s, remove).Some?
    ensures Greedy(w, nodes, Arrangement(MaintenanceFirst, naming, nodes), {}, s) == None
  {
    hide Apply, Preconditions, Holds, Greedy;
    NetworkApplies(w, ctx);
    var m := Try(w, s, remove).value;
    RemovedLink(ctx, s, remove, m);
    GoneLinkHoldsRoute(ctx, m, m, remove.link, move);
    assert Try(w, m, move) == None;
    RiskierFirst(naming, nodes, remove, move);
    PairIsMissed(w, nodes, Arrangement(MaintenanceFirst, naming, nodes), s, m);
  }

  lemma RiskierFirst(naming: Naming, nodes: seq<Node<Operation>>, remove: Operation, move: Operation)
    requires |nodes| == 2 && nodes[0].op == remove && nodes[1].op == move
    requires remove.kind.LinkRemove? && move.kind.RouteSetPath? && remove.metadata.risk == move.metadata.risk == 0
    ensures !Arrangement(MaintenanceFirst, naming, nodes).before(1, 0)
  {
  }

  // ----- and a safe order there is -----

  /** Two devices joined by two links, and a route over the first. */
  function TwoLinks(): Snapshot {
    var spec := DeviceSpec(1, Present, 1, 0, 0, 1, "");
    var link := Link(LinkSpec(1, 2, 1, 0, 0, []), Present);
    Snapshot(Header(1, 1, 1, 1, 1, 0), map[1 := Device(spec, [], []), 2 := Device(spec, [], [])],
             map[1 := link, 2 := link],
             map[1 := Route(RouteSpec(1, 2, [1], 0), Active)], map[], map[], map[])
  }

  function Moved(): Route { Route(RouteSpec(1, 2, [2], 0), Active) }

  /** The first link goes, and the route is to run over the second. */
  function OverTheOther(): Target {
    Target(map[], map[1 := Desired.Remove], map[1 := Ensure(Moved())], map[], map[], map[])
  }

  function RerouteOps(): (ops: seq<Operation>)
    ensures |ops| == 2
  {
    [LinkRemoveOp(1), RoutePathOp(1, Moved())]
  }

  function RerouteNodes(stepId: Operation -> StepId): seq<Node<Operation>> {
    [Node(RerouteOps()[0], stepId(RerouteOps()[0]), [], 0), Node(RerouteOps()[1], stepId(RerouteOps()[1]), [], 0)]
  }

  lemma MoveDerived()
    ensures RouteEntry(TwoLinks(), OverTheOther(), 1, Ensure(Moved())) == Some({RoutePathOp(1, Moved())})
  {
    hide RoutePathOp, RouteStateOp;
    var s, t, r := TwoLinks(), OverTheOther(), Moved();
    var c := s.routes[1];
    assert c.spec.path[0] == 1 && r.spec.path[0] == 2;
    assert HasPath(s, t, r.spec.path) by { assert 2 in s.links; }
    assert {RoutePathOp(1, r)} + {} == {RoutePathOp(1, r)};
  }

  lemma RerouteDerived(ctx: Context, naming: Naming)
    ensures Derives(ctx, TwoLinks(), OverTheOther(), naming, RerouteOps())
  {
    hide LinkRemoveOp, RoutePathOp, OperationBefore;
    var s, t := TwoLinks(), OverTheOther();
    assert Entries(t) == {LinkRef(1), RouteRef(1)};
    assert LinkEntry(s, t, 1, Desired.Remove) == Some({LinkRemoveOp(1)});
    MoveDerived();
    assert EntryOps(ctx, s, t, LinkRef(1)) == Some({LinkRemoveOp(1)});
    assert EntryOps(ctx, s, t, RouteRef(1)) == Some({RoutePathOp(1, Moved())});
    forall op ensures op in RerouteOps() <==> op in DerivedOps(ctx, s, t) {
      if op in RerouteOps() {
        assert op in EntryOps(ctx, s, t, if op == LinkRemoveOp(1) then LinkRef(1) else RouteRef(1)).value;
      }
    }
    LinkBeforeRoute(naming);
  }

  lemma LinkBeforeRoute(naming: Naming)
    ensures !OperationBefore(naming, RerouteOps()[1], RerouteOps()[0])
  {
  }

  lemma RerouteUnlinked(contracts: seq<D.Contract>)
    ensures D.OrderFor(TwoLinks(), contracts, RerouteOps()[0], RerouteOps()[1]) == None
  {
  }

  function AfterMove(): Snapshot { TwoLinks().(routes := map[1 := Moved()]) }

  function AfterBoth(): Snapshot {
    AfterMove().(links := AfterMove().links[1 := AfterMove().links[1].(state := Removed)])
  }

  lemma AlreadyCanonical(s: Snapshot)
    requires s.workloads == map[]
    requires forall id :: id in s.devices ==> s.devices[id].exclusions == [] && s.devices[id].maintenance == []
    requires forall id :: id in s.links ==> s.links[id].spec.transit == []
    ensures Canonical(s) == s
  {
    assert SortWindows([]) == [] && SortUnique([]) == [];
  }

  lemma MoveLeads()
    ensures Effect(TwoLinks(), RerouteOps()[1]) == AfterMove()
  {
    hide Canonical;
    assert Mutate(TwoLinks(), RerouteOps()[1]) == AfterMove();
    AlreadyCanonical(AfterMove());
  }

  lemma RemovalLeads()
    ensures Effect(AfterMove(), RerouteOps()[0]) == AfterBoth()
  {
    hide Canonical;
    assert Mutate(AfterMove(), RerouteOps()[0]) == AfterBoth();
    AlreadyCanonical(AfterBoth());
  }

  lemma MovedIsValid()
    ensures Valid(AfterMove())
  {
  }

  lemma BothIsValid()
    ensures Valid(AfterBoth())
  {
  }

  /** Nothing is excluded at any time. */
  lemma GatesOpen(ctx: Context, s: Snapshot, op: Operation)
    requires s.devices == TwoLinks().devices && !RequiresWindow(op.kind)
    ensures ExclusionGate(ctx, s, op) && WindowGate(ctx, s, op)
  {
  }

  lemma MoveReady(ctx: Context)
    ensures AllTrue(ctx, TwoLinks(), Preconditions(TwoLinks(), RerouteOps()[1]))
  {
    hide Walk;
    var s, op := TwoLinks(), RerouteOps()[1];
    var cs := Preconditions(s, op);
    assert Serviceable(s, s.routes[1].spec) by { RouteWalks(s.links, 1); }
    forall i | 0 <= i < |cs| ensures Holds(ctx, s, cs[i]) == Some(true) {
      assert cs[i] in {EntityPresent(RouteRef(1)), EntityPresent(DeviceRef(1)), EntityPresent(DeviceRef(2)),
                       EntityPresent(LinkRef(2)), RouteWalkable(1)};
    }
  }

  lemma RouteWalks(links: map<Id, Link>, id: Id)
    requires id in links && links[id].spec.endpointA == 1 && links[id].spec.endpointB == 2
    ensures Walk(links, 1, [id]) == Some(2)
  {
    assert [id][1..] == [];
    assert Walk(links, 2, []) == Some(2);
  }

  lemma MoveAllowed(ctx: Context)
    ensures Objection(ctx, TwoLinks(), RerouteOps()[1]) == None
  {
    hide Walk, ExclusionGate, WindowGate;
    RouteWalks(TwoLinks().links, 2);
    GatesOpen(ctx, TwoLinks(), RerouteOps()[1]);
  }

  lemma RemovalReady(ctx: Context, s: Snapshot)
    requires s in {TwoLinks(), AfterMove()}
    ensures AllTrue(ctx, s, Preconditions(s, RerouteOps()[0])) && Objection(ctx, s, RerouteOps()[0]) == None
  {
    hide ExclusionGate, WindowGate;
    GatesOpen(ctx, s, RerouteOps()[0]);
  }

  /** In general the search is not complete: for the target that removes a link and moves the route
      that runs over it, the two derived operations are unlinked, moving first and removing then is
      safe, and the search that takes riskier steps first finds no order. */
  lemma SearchCanMissAnOrder(ctx: Context, naming: Naming, contracts: seq<D.Contract>, stepId: Operation -> StepId)
    ensures Derives(ctx, TwoLinks(), OverTheOther(), naming, RerouteOps())
    ensures !D.Linked(TwoLinks(), contracts, RerouteOps()[0], RerouteOps()[1])
    ensures NodesFor(RerouteOps(), [], stepId, RerouteNodes(stepId))
    ensures var w, nodes := NetworkWorld(ctx, _ => false, stepId), RerouteNodes(stepId);
      && Topological(nodes, [1, 0]) && Follow(w, nodes, TwoLinks(), [1, 0]) == Some(AfterBoth())
      && Greedy(w, nodes, Arrangement(MaintenanceFirst, naming, nodes), {}, TwoLinks()) == None
  {
    hide Derives, Preconditions, Holds, Objection, Valid, Effect, Greedy, Try, TwoLinks, AfterMove, AfterBoth,
      RerouteOps;
    var w, nodes, s := NetworkWorld(ctx, _ => false, stepId), RerouteNodes(stepId), TwoLinks();
    RerouteDerived(ctx, naming);
    RerouteUnlinked(contracts);
    BothTried(w, ctx);
    assert [] + [1 as nat] == [1] && [1 as nat] + [0] == [1, 0];
    assert Follow(w, nodes, s, []) == Some(s);
    FollowNext(w, nodes, s, [], 1);
    FollowNext(w, nodes, s, [1], 0);
    assert Rerouting(s, stepId, nodes, RerouteOps()[0], RerouteOps()[1]) by { IsRerouting(stepId); }
    RerouteIsMissed(w, ctx, naming, s, nodes, RerouteOps()[0], RerouteOps()[1]);
  }

  lemma IsRerouting(stepId: Operation -> StepId)
    ensures Rerouting(TwoLinks(), stepId, RerouteNodes(stepId), RerouteOps()[0], RerouteOps()[1])
  {
    assert 1 in TwoLinks().routes[1].spec.path;
  }

  lemma BothTried(w: World<Snapshot, Operation, Condition>, ctx: Context)
    requires IsNetwork(w, ctx) && forall s :: !w.violated(s)
    ensures Try(w, TwoLinks(), RerouteOps()[1]) == Some(AfterMove())
    ensures Try(w, AfterMove(), RerouteOps()[0]) == Some(AfterBoth())
    ensures Try(w, TwoLinks(), RerouteOps()[0]).Some?
  {
    hide Preconditions, AllTrue, Objection, Valid, Effect, Try, TwoLinks, AfterMove, AfterBoth, RerouteOps;
    TryMeans(w, ctx, TwoLinks(), RerouteOps()[1]);
    TryMeans(w, ctx, AfterMove(), RerouteOps()[0]);
    TryMeans(w, ctx, TwoLinks(), RerouteOps()[0]);
    MoveReady(ctx);
    MoveAllowed(ctx);
    MoveLeads();
    MovedIsValid();
    BothIsValid();
    RemovalReady(ctx, AfterMove());
    RemovalLeads();
    RemovalReady(ctx, TwoLinks());
    RemovalAlone();
  }

  lemma RemovalAlone()
    ensures Valid(Effect(TwoLinks(), RerouteOps()[0]))
  {
    hide Canonical;
    var u := TwoLinks().(links := TwoLinks().links[1 := TwoLinks().links[1].(state := Removed)]);
    assert Mutate(TwoLinks(), RerouteOps()[0]) == u;
    AlreadyCanonical(u);
  }
}
