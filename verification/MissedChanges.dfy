/** A change that plan generation refuses under all four strategies although a safe order exists, for
    want of trying a second choice. */
module MissedChanges {
  import opened Wrappers
  import opened Permutations
  import opened Sorting
  import opened Worlds
  import opened Kahn
  import opened Search
  import opened Generate
  import opened Snapshots
  import opened Operations
  import opened Evaluate
  import D = Dependencies
  import T = Tangles
  import opened Conditions
  import opened Derivation
  import opened Networks
  import opened Strategies
  import opened Eligibility
  import opened Capacity
  import opened Obligations
  import R = Readiness

  // ----- two links, and four workloads that share them -----

  function Unit(domain: Id): Device { Device(DeviceSpec(domain, Present, 100, 0, 0, 1, ""), [], []) }

  function Wire(): Link { Link(LinkSpec(1, 2, 4, 0, 0, []), Present) }

  function Along(link: Id): Route { Route(RouteSpec(1, 2, [link], 0), Active) }

  function On(route: Id): seq<Binding> { [Binding(route, true, 2)] }

  function Spread(): seq<Binding> { [Binding(1, true, 1), Binding(2, true, 1)] }

  function User(bs: seq<Binding>): Workload { Workload(bs, Requirements(false, 0, 0, 0, []), "") }

  /** What the workload is bound to, before and after. */
  function Use(workload: Id, moved: bool): seq<Binding> {
    if workload == 2 then On(if moved then 1 else 2)
    else if workload == 3 then On(if moved then 2 else 1)
    else if moved then Spread() else []
  }

  /** The network when the workloads after the places in `done` have been changed. */
  function Shared(done: set<nat>): Snapshot {
    Snapshot(Header(1, 1, 1, 1, 1, 0), map[1 := Unit(1), 2 := Unit(2)], map[1 := Wire(), 2 := Wire()],
             map[1 := Along(1), 2 := Along(2)],
             map[1 := User(Use(1, 0 in done)), 2 := User(Use(2, 1 in done)), 3 := User(Use(3, 2 in done)),
                 4 := User(Use(4, 3 in done))],
             map[], map[])
  }

  /** Workloads 2 and 3 are to change places, and 1 and 4 are to use both links. */
  function Shuffle(): Target {
    Target(map[], map[], map[],
           map[1 := Ensure(User(Use(1, true))), 2 := Ensure(User(Use(2, true))), 3 := Ensure(User(Use(3, true))),
               4 := Ensure(User(Use(4, true)))], map[], map[])
  }

  function Moving(workload: Id): Operation { BindingsOp(workload, Use(workload, true)) }

  function Movings(): seq<Operation> { [Moving(1), Moving(2), Moving(3), Moving(4)] }

  // ----- loads -----

  lemma Carries(done: set<nat>, w: Workload, b: Binding)
    requires b.active && b.route in {1, 2} && w.requirements.forbidden == []
    ensures IsEligible(Shared(done), w, b)
  {
    hide D.RouteDomains;
    var s := Shared(done);
    var r := s.routes[b.route];
    assert r.spec.path == [b.route] && r.spec.path[1..] == [];
    assert Walk(s.links, 2, []) == Some(2);
    assert Walkable(s.links, r.spec);
  }

  /** What a list of bindings of demand on the two links adds up to on one of them. */
  ghost function Share(bs: seq<Binding>, link: Id): nat {
    if bs == [] then 0
    else Share(bs[..|bs| - 1], link) + (if bs[|bs| - 1].route == link then bs[|bs| - 1].demand else 0)
  }

  ghost function Total(bs: seq<Binding>): nat {
    if bs == [] then 0 else Total(bs[..|bs| - 1]) + bs[|bs| - 1].demand
  }

  lemma {:induction false} BoundLoad(done: set<nat>, w: Workload, bs: seq<Binding>, link: Id, device: Id)
    requires w.requirements.forbidden == [] && forall i :: 0 <= i < |bs| ==> bs[i].active && bs[i].route in {1, 2}
    ensures Load(EligibleAmong(Shared(done), w, bs), LinkShare(link)) == Share(bs, link)
    ensures Load(EligibleAmong(Shared(done), w, bs), DeviceShare(device)) <= Total(bs)
  {
    hide Shared, IsEligible, Load, LinkShare, DeviceShare, EligibleAmong;
    var s := Shared(done);
    if bs == [] {
      NobodyEligible(s, w, link, device);
    } else {
      var n := |bs| - 1;
      var b := bs[n];
      BoundLoad(done, w, bs[..n], link, device);
      Carries(done, w, b);
      RouteHere(done, b.route);
      var before, e := EligibleAmong(s, w, bs[..n]), Entry(s.routes[b.route], b);
      OneMoreEligible(s, w, bs, e);
      LoadAppend(before, [e], LinkShare(link));
      LoadAppend(before, [e], DeviceShare(device));
      LoadOfOne(e, LinkShare(link));
      LoadOfOne(e, DeviceShare(device));
      ShareOfOne(e, link, device);
    }
  }

  lemma NobodyEligible(s: Snapshot, w: Workload, link: Id, device: Id)
    ensures Load(EligibleAmong(s, w, []), LinkShare(link)) == Load(EligibleAmong(s, w, []), DeviceShare(device)) == 0
  {
  }

  lemma OneMoreEligible(s: Snapshot, w: Workload, bs: seq<Binding>, e: Entry)
    requires bs != [] && e.binding == bs[|bs| - 1]
    requires e.binding.route in s.routes && e.route == s.routes[e.binding.route]
    requires IsEligible(s, w, e.binding)
    ensures EligibleAmong(s, w, bs) == EligibleAmong(s, w, bs[..|bs| - 1]) + [e]
  {
    hide IsEligible;
  }

  lemma ShareOfOne(e: Entry, link: Id, device: Id)
    requires e.route == Along(e.binding.route)
    ensures LinkShare(link)(e) == if e.binding.route == link then e.binding.demand else 0
    ensures DeviceShare(device)(e) <= e.binding.demand
  {
    PathOfOne(e.binding.route, link, e.binding.demand);
  }

  lemma RouteHere(done: set<nat>, route: Id)
    requires route in {1, 2}
    ensures route in Shared(done).routes && Shared(done).routes[route] == Along(route)
  {
  }

  ghost function LinkTotal(done: set<nat>, link: Id): nat {
    Share(Use(1, 0 in done), link) + Share(Use(2, 1 in done), link) + Share(Use(3, 2 in done), link)
    + Share(Use(4, 3 in done), link)
  }

  lemma UsesAreBound(workload: Id, moved: bool)
    ensures forall i :: 0 <= i < |Use(workload, moved)| ==>
      Use(workload, moved)[i].active && Use(workload, moved)[i].route in {1, 2}
    ensures Total(Use(workload, moved)) <= 2
  {
    assert Spread()[..1] == [Binding(1, true, 1)] && [Binding(1, true, 1)][..0] == [];
    assert On(1)[..0] == [] && On(2)[..0] == [];
  }

  lemma LoadsOf(done: set<nat>, link: Id, device: Id)
    ensures LinkLoad(EntriesUpTo(Shared(done), 5), link) == LinkTotal(done, link)
    ensures DeviceLoad(EntriesUpTo(Shared(done), 5), device) <= 8
  {
    hide EligibleAmong, Share, Total, Use;
    var s := Shared(done);
    assert EntriesUpTo(s, 1) == [];
    forall k: nat | 1 <= k <= 4 ensures k in s.workloads && s.workloads[k] == User(Use(k, k - 1 in done)) {}
    WorkloadAdds(done, 1, link, device);
    WorkloadAdds(done, 2, link, device);
    WorkloadAdds(done, 3, link, device);
    WorkloadAdds(done, 4, link, device);
  }

  lemma WorkloadAdds(done: set<nat>, k: nat, link: Id, device: Id)
    requires 1 <= k <= 4 && k in Shared(done).workloads && Shared(done).workloads[k] == User(Use(k, k - 1 in done))
    ensures LinkLoad(EntriesUpTo(Shared(done), k + 1), link) ==
      LinkLoad(EntriesUpTo(Shared(done), k), link) + Share(Use(k, k - 1 in done), link)
    ensures DeviceLoad(EntriesUpTo(Shared(done), k + 1), device) <= DeviceLoad(EntriesUpTo(Shared(done), k), device) + 2
  {
    hide EligibleAmong, Share, Total, Use, Shared, Load;
    var s, w := Shared(done), User(Use(k, k - 1 in done));
    UsesAreBound(k, k - 1 in done);
    BoundLoad(done, w, w.bindings, link, device);
    LoadAppend(EntriesUpTo(s, k), EligibleAmong(s, w, w.bindings), LinkShare(link));
    LoadAppend(EntriesUpTo(s, k), EligibleAmong(s, w, w.bindings), DeviceShare(device));
  }

  lemma {:induction false} NoMoreEntries(done: set<nat>, n: nat)
    requires n >= 5
    ensures EntriesUpTo(Shared(done), n) == EntriesUpTo(Shared(done), 5)
  {
    if n > 5 { NoMoreEntries(done, n - 1); }
  }

  lemma SharesAre(moved: bool)
    ensures forall link :: link in {1, 2} ==>
      && Share(Use(1, moved), link) == (if moved then 1 else 0)
      && Share(Use(4, moved), link) == (if moved then 1 else 0)
      && Share(Use(2, moved), link) == (if link == (if moved then 1 else 2) then 2 else 0)
      && Share(Use(3, moved), link) == (if link == (if moved then 2 else 1) then 2 else 0)
  {
    assert Spread()[..1] == [Binding(1, true, 1)] && [Binding(1, true, 1)][..0] == [];
    assert On(1)[..0] == [] && On(2)[..0] == [];
  }

  /** A state breaks the obligation exactly when one of the two links carries more than four. */
  lemma OverWhen(done: set<nat>)
    ensures OverCommitted(Shared(done), 0) <==> LinkTotal(done, 1) > 4 || LinkTotal(done, 2) > 4
  {
    hide EntriesUpTo, LinkTotal, LinkLoad, DeviceLoad, Use;
    var s := Shared(done);
    forall id | id in {1, 2} ensures LinkOver(s, 5, 0, id) <==> LinkTotal(done, id) > 4 {
      LoadsOf(done, id, 1);
      HeadroomExact(LinkLoad(EntriesUpTo(s, 5), id), 4, 0);
    }
    if LinkTotal(done, 1) > 4 { assert LinkOver(s, 5, 0, 1); }
    if LinkTotal(done, 2) > 4 { assert LinkOver(s, 5, 0, 2); }
    if n: nat, id :| Covers(s, n) && (LinkOver(s, n, 0, id) || DeviceOver(s, n, 0, id)) {
      assert 4 in s.workloads;
      NoMoreEntries(done, n);
      LoadsOf(done, id, id);
      HeadroomExact(DeviceLoad(EntriesUpTo(s, 5), id), 100, 0);
    }
  }

  // ----- one step -----

  lemma UsesAreSorted(workload: Id, moved: bool)
    ensures SortBindings(Use(workload, moved)) == Use(workload, moved)
  {
    assert Ordered(Use(workload, moved), BindingRoute);
    SortFixed(Use(workload, moved), BindingRoute);
  }

  lemma SharedIsCanonical(done: set<nat>)
    ensures Canonical(Shared(done)) == Shared(done)
  {
    hide Use;
    var s := Shared(done);
    assert SortWindows([]) == [] && SortUnique([]) == [];
    forall id | id in s.workloads ensures CanonicalWorkload(s.workloads[id]) == s.workloads[id] {
      UsesAreSorted(id, id - 1 in done);
    }
    assert CanonicalDevices(s.devices) == s.devices && CanonicalLinks(s.links) == s.links;
    assert CanonicalWorkloads(s.workloads) == s.workloads;
  }

  lemma UsesAreOk(workload: Id, moved: bool, routes: map<Id, Route>)
    requires 1 in routes && 2 in routes
    ensures WorkloadOk(routes, User(Use(workload, moved)))
  {
  }

  lemma SharedIsValid(done: set<nat>)
    ensures Valid(Shared(done))
  {
    hide Use, DeviceOk, RouteOk, WorkloadOk;
    var s := Shared(done);
    forall id | id in s.devices ensures DeviceOk(s.devices[id]) { UnitIsOk(id); }
    forall id | id in s.routes ensures RouteOk(s, s.routes[id]) { AlongIsOk(done, id); }
    forall id | id in s.workloads ensures WorkloadOk(s.routes, s.workloads[id]) {
      UsesAreOk(id, id - 1 in done, s.routes);
    }
  }

  lemma UnitIsOk(domain: Id)
    ensures DeviceOk(Unit(domain))
  {
  }

  lemma AlongIsOk(done: set<nat>, id: Id)
    requires id in {1, 2}
    ensures RouteOk(Shared(done), Along(id))
  {
  }

  lemma NothingExcluded(ctx: Context, done: set<nat>, op: Operation)
    requires !RequiresWindow(op.kind)
    ensures ExclusionGate(ctx, Shared(done), op) && WindowGate(ctx, Shared(done), op)
  {
    hide Use;
  }

  lemma UsersAre(done: set<nat>)
    ensures Shared(done).workloads.Keys == {1, 2, 3, 4}
    ensures forall id: nat :: 1 <= id <= 4 ==> Shared(done).workloads[id] == User(Use(id, id - 1 in done))
  {
    hide Use;
  }

  lemma Rebound(workload: Id, moved: bool)
    ensures AreaOf(Moving(workload).kind) == Workloads && Moving(workload).workload == workload
    ensures NextWorkload(Moving(workload), Some(User(Use(workload, moved)))) == Some(User(Use(workload, true)))
  {
    hide Use;
  }

  lemma MovingWrites(done: set<nat>, k: nat)
    requires k < 4
    ensures StepWorkloads(Shared(done).workloads, Moving(k + 1)) == Shared(done + {k}).workloads
  {
    hide Use, Shared, User, Moving, NextWorkload, AreaOf;
    UsersAre(done);
    UsersAre(done + {k});
    Rebound(k + 1, k in done);
    var m, n, user := Shared(done).workloads, Shared(done + {k}).workloads, User(Use(k + 1, true));
    assert m[k + 1 := user] == n by {
      forall id: nat | 1 <= id <= 4 ensures m[k + 1 := user][id] == n[id] {
        assert id - 1 in done + {k} <==> id - 1 in done || id - 1 == k;
      }
    }
  }

  lemma MovingLeads(done: set<nat>, k: nat)
    requires k < 4
    ensures Effect(Shared(done), Moving(k + 1)) == Shared(done + {k})
  {
    hide Canonical, Use, StepWorkloads;
    var s, op, t := Shared(done), Moving(k + 1), Shared(done + {k});
    MovingWrites(done, k);
    assert Mutate(s, op) == t;
    SharedIsCanonical(done + {k});
  }

  lemma MovingReady(ctx: Context, done: set<nat>, k: nat)
    requires k < 4
    ensures AllTrue(ctx, Shared(done), Preconditions(Shared(done), Moving(k + 1)))
    ensures Objection(ctx, Shared(done), Moving(k + 1)) == None
  {
    hide Preconditions, AllTrue, Objection;
    MovingAsked(ctx, done, k);
    MovingAllowed(ctx, done, k);
  }

  lemma MovingAsked(ctx: Context, done: set<nat>, k: nat)
    requires k < 4
    ensures AllTrue(ctx, Shared(done), Preconditions(Shared(done), Moving(k + 1)))
  {
    hide AllTrue, Use, R.AllKnown, RoutesPresent, Shared;
    var s, bs := Shared(done), Use(k + 1, true);
    var here := EntityPresent(WorkloadRef(k + 1));
    assert Preconditions(s, Moving(k + 1)) == [here] + RoutesPresent(bs);
    BothTrue(ctx, s, [here], RoutesPresent(bs));
    OneTrue(ctx, s, here);
    R.RoutesKnown(ctx, s, bs);
    UsedAreThere(done, k);
  }

  lemma UsedAreThere(done: set<nat>, k: nat)
    requires k < 4
    ensures k + 1 in Shared(done).workloads && R.AllKnown(Shared(done), Use(k + 1, true))
  {
    UsesAreBound(k + 1, true);
    hide Use;
  }

  lemma MovingAllowed(ctx: Context, done: set<nat>, k: nat)
    requires k < 4
    ensures Objection(ctx, Shared(done), Moving(k + 1)) == None
  {
    hide ExclusionGate, WindowGate;
    UsesAreBound(k + 1, true);
    NothingExcluded(ctx, done, Moving(k + 1));
    hide Use;
  }

  /** The world in which nothing but capacity is enforced. */
  ghost predicate CapacityWorld(w: World<Snapshot, Operation, Condition>, ctx: Context) {
    IsNetwork(w, ctx) && forall s :: w.violated(s) == OverCommitted(s, 0)
  }

  lemma MovingTried(w: World<Snapshot, Operation, Condition>, ctx: Context, done: set<nat>, k: nat)
    requires CapacityWorld(w, ctx) && k < 4
    ensures Try(w, Shared(done), Moving(k + 1)) ==
      if OverCommitted(Shared(done + {k}), 0) then None else Some(Shared(done + {k}))
  {
    hide Effect, Objection, Preconditions, AllTrue, OverCommitted, Valid, Try, Shared, Moving;
    TryMeans(w, ctx, Shared(done), Moving(k + 1));
    MovingLeads(done, k);
    MovingReady(ctx, done, k);
    SharedIsValid(done + {k});
  }

  function Ones(b: bool): nat { if b then 1 else 0 }

  lemma TotalsOf(done: set<nat>)
    ensures OverCommitted(Shared(done), 0) <==>
      || Ones(0 in done) + 2 * Ones(1 in done) + 2 * Ones(2 !in done) + Ones(3 in done) > 4
      || Ones(0 in done) + 2 * Ones(1 !in done) + 2 * Ones(2 in done) + Ones(3 in done) > 4
  {
    hide Use, OverCommitted, Shared, Share;
    OverWhen(done);
    SharesAre(true);
    SharesAre(false);
  }

  // ----- the searches -----

  ghost predicate FourSteps(nodes: seq<Node<Operation>>) {
    |nodes| == 4 && forall i :: 0 <= i < 4 ==>
      nodes[i].op == Moving(i + 1) && nodes[i].predecessors == [] && nodes[i].successors == 0
  }

  lemma CrossingFails(done: set<nat>, c: nat)
    requires (0 in done || 3 in done) && 1 !in done && 2 !in done && c in {1, 2}
    ensures OverCommitted(Shared(done + {c}), 0)
  {
    hide OverCommitted, Shared;
    TotalsOf(done + {c});
  }

  /** Once workload 1 or 4 uses both links, workloads 2 and 3 can no longer change places. */
  lemma {:induction false} NeverFinishes(w: World<Snapshot, Operation, Condition>, ctx: Context,
                                         nodes: seq<Node<Operation>>, strategy: Strategy, done: set<nat>)
    requires CapacityWorld(w, ctx) && FourSteps(nodes) && done <= All(nodes)
    requires (0 in done || 3 in done) && 1 !in done && 2 !in done
    ensures Greedy(w, nodes, strategy, done, Shared(done)) == None
    decreases |All(nodes) - done|
  {
    hide CapacityWorld, Candidates, Try, Shared, OverCommitted, Moving, Greedy, All;
    AllMeans(nodes);
    assert 1 in All(nodes);
    CandidatesReady(nodes, strategy, done);
    var s, ready := Shared(done), Candidates(nodes, strategy, done);
    var k := FirstFit(w, nodes, s, ready);
    if k < |ready| {
      var c := ready[k];
      Fitting(w, ctx, nodes, done, c);
      assert All(nodes) - done == (All(nodes) - (done + {c})) + {c};
      NeverFinishes(w, ctx, nodes, strategy, done + {c});
      GreedyGoesOn(w, nodes, strategy, done, s, k, Shared(done + {c}));
    } else {
      assert FitsAt(w, nodes, s, ready, |ready|);
      GreedyStuck(w, nodes, strategy, done, s);
    }
  }

  lemma Fitting(w: World<Snapshot, Operation, Condition>, ctx: Context, nodes: seq<Node<Operation>>, done: set<nat>,
                c: nat)
    requires CapacityWorld(w, ctx) && FourSteps(nodes) && c < 4 && Try(w, Shared(done), nodes[c].op).Some?
    requires (0 in done || 3 in done) && 1 !in done && 2 !in done
    ensures c !in {1, 2} && Try(w, Shared(done), nodes[c].op) == Some(Shared(done + {c}))
  {
    hide CapacityWorld, Try, Shared, OverCommitted, Moving;
    MovingTried(w, ctx, done, c);
    if c in {1, 2} { CrossingFails(done, c); }
  }

  lemma GreedyGoesOn<S, O, C>(w: World<S, O, C>, nodes: seq<Node<O>>, strategy: Strategy, done: set<nat>, s: S, k: nat,
                              t: S)
    requires done < All(nodes)
    requires forall i :: 0 <= i < |Candidates(nodes, strategy, done)| ==> Candidates(nodes, strategy, done)[i] < |nodes|
    requires var ready := Candidates(nodes, strategy, done); FirstFit(w, nodes, s, ready) == k < |ready|
    requires var c := Candidates(nodes, strategy, done)[k];
      Try(w, s, nodes[c].op) == Some(t) && done + {c} <= All(nodes) && Greedy(w, nodes, strategy, done + {c}, t) == None
    ensures Greedy(w, nodes, strategy, done, s) == None
  {
    hide Candidates, Try;
  }

  lemma MovingBefore(naming: Naming, i: Id, j: Id)
    requires i < j
    ensures OperationBefore(naming, Moving(i), Moving(j)) && !OperationBefore(naming, Moving(j), Moving(i))
  {
    hide Use;
  }

  lemma MovingWeighs(approach: Approach, x: Node<Operation>, y: Node<Operation>, i: Id, j: Id)
    requires x.op == Moving(i) && y.op == Moving(j) && x.successors == y.successors
    ensures Weights(approach, x) == Weights(approach, y)
  {
    hide Use;
  }

  lemma {:induction false} AllAreReady<O>(nodes: seq<Node<O>>, k: nat)
    requires k <= |nodes| && forall i :: 0 <= i < |nodes| ==> nodes[i].predecessors == []
    ensures ReadyUpTo(nodes, {}, k) == Identity(k)
  {
    if k > 0 { AllAreReady(nodes, k - 1); }
  }

  /** Every approach tries the first or the last of the four workloads before the others. */
  lemma StartsAtAnEnd(approach: Approach, naming: Naming, nodes: seq<Node<Operation>>)
    requires FourSteps(nodes)
    ensures var ready := Candidates(nodes, Arrangement(approach, naming, nodes), {});
      |ready| == 4 && ready[0] in {0, 3}
  {
    hide Moving, Weights, OperationBefore, Reverse, Sort, ReadyUpTo, Arrangement;
    AllAreReady(nodes, 4);
    ListedInOrder(approach, naming, nodes);
    var s: seq<nat> := [0, 1, 2, 3];
    assert Identity(4) == s;
    SortSame(s, Arrangement(approach, naming, nodes).before);
    ReverseFour(0, 1, 2, 3);
  }

  lemma ListedInOrder(approach: Approach, naming: Naming, nodes: seq<Node<Operation>>)
    requires FourSteps(nodes)
    ensures var s: seq<nat> := [0, 1, 2, 3]; SortedBy(s, Arrangement(approach, naming, nodes).before)
  {
    hide Moving, Weights, OperationBefore;
    var strategy := Arrangement(approach, naming, nodes);
    var s: seq<nat> := [0, 1, 2, 3];
    forall i, j | 0 <= i < j < 4 ensures !strategy.before(s[j], s[i]) {
      MovingBefore(naming, i + 1, j + 1);
      MovingWeighs(approach, nodes[i], nodes[j], i + 1, j + 1);
    }
  }

  lemma ReverseFour(a: nat, b: nat, c: nat, d: nat)
    ensures Reverse([a, b, c, d]) == [d, c, b, a]
  {
    var s: seq<nat> := [a, b, c, d];
    assert s[1..] == [b, c, d] && s[1..][1..] == [c, d] && s[1..][1..][1..] == [d];
    assert Reverse([d]) == [d];
    assert Reverse([c, d]) == [d, c];
    assert Reverse([b, c, d]) == [d, c, b];
  }

  /** So every search for an order of the four ends without one. */
  lemma EveryApproachIsStuck(w: World<Snapshot, Operation, Condition>, ctx: Context, nodes: seq<Node<Operation>>,
                             approach: Approach, naming: Naming)
    requires CapacityWorld(w, ctx) && FourSteps(nodes)
    ensures Greedy(w, nodes, Arrangement(approach, naming, nodes), {}, Shared({})) == None
  {
    hide CapacityWorld, Candidates, Try, Shared, OverCommitted, Moving, Greedy, All, Arrangement;
    AllMeans(nodes);
    assert 1 in All(nodes);
    var none: set<nat> := {};
    var strategy, s := Arrangement(approach, naming, nodes), Shared(none);
    CandidatesReady(nodes, strategy, {});
    StartsAtAnEnd(approach, naming, nodes);
    var ready := Candidates(nodes, strategy, {});
    var c := ready[0];
    MovingTried(w, ctx, none, c);
    TotalsOf(none + {c});
    assert FirstFit(w, nodes, s, ready) == 0;
    assert none + {c} == {c};
    NeverFinishes(w, ctx, nodes, strategy, none + {c});
    GreedyGoesOn(w, nodes, strategy, {}, s, 0, Shared(none + {c}));
  }

  // ----- the derived operations -----

  lemma MovingDerived(ctx: Context, k: Id)
    requires 1 <= k <= 4
    ensures EntryOps(ctx, Shared({}), Shuffle(), WorkloadRef(k)) == Some({Moving(k)})
  {
    hide BindingsOp;
    var w := Shared({}).workloads[k];
    assert w == User(Use(k, false)) && Shuffle().workloads[k] == Ensure(User(Use(k, true)));
    assert Use(k, false) != Use(k, true) by { if k in {2, 3} { assert On(1)[0] != On(2)[0]; } }
    assert {Moving(k)} + {} == {Moving(k)};
  }

  lemma MovingsDerived(ctx: Context, op: Operation)
    requires Derivable(ctx, Shared({}), Shuffle())
    ensures op in DerivedOps(ctx, Shared({}), Shuffle()) <==> op in Movings()
  {
    hide Moving, EntryOps, Shared;
    var t := Shuffle();
    assert Entries(t) == {WorkloadRef(1), WorkloadRef(2), WorkloadRef(3), WorkloadRef(4)};
    MovingDerived(ctx, 1);
    MovingDerived(ctx, 2);
    MovingDerived(ctx, 3);
    MovingDerived(ctx, 4);
  }

  lemma MovingsInOrder(ctx: Context, naming: Naming, ops: seq<Operation>)
    requires Derives(ctx, Shared({}), Shuffle(), naming, ops)
    ensures ops == Movings()
  {
    hide Moving, DerivedOps, Derivable, Shared, OperationBefore;
    forall op ensures op in ops <==> op in Movings() { MovingsDerived(ctx, op); }
    MovingNamed();
    forall i, j | 0 <= i < j < |ops| ensures ops[i].workload < ops[j].workload {
      assert ops[i] in Movings() && ops[j] in Movings();
      assert ops[i] == Moving(ops[i].workload) && ops[j] == Moving(ops[j].workload);
      assert !CanonicalOrder(naming)(ops[j], ops[i]);
      if ops[j].workload < ops[i].workload { MovingBefore(naming, ops[j].workload, ops[i].workload); }
    }
    FourRise(ops);
  }

  lemma MovingNamed()
    ensures forall k :: Moving(k).workload == k
  {
  }

  lemma FourRise(ops: seq<Operation>)
    requires (forall op :: op in ops <==> op in Movings()) && forall i, j :: 0 <= i < j < |ops| ==>
      ops[i].workload < ops[j].workload
    ensures ops == Movings()
  {
    hide Moving;
    MovingNamed();
    var p := seq(|ops|, i requires 0 <= i < |ops| => ops[i].workload);
    forall k: Id | 1 <= k <= 4 ensures k in p {
      assert Movings()[k - 1] == Moving(k) && Moving(k) in ops;
      var i :| 0 <= i < |ops| && ops[i] == Moving(k);
      assert p[i] == k;
    }
    forall i | 0 <= i < |p| ensures 1 <= p[i] <= 4 && ops[i] == Moving(p[i]) { assert ops[i] in ops; }
    AscendingSame(p, [1, 2, 3, 4]);
  }

  lemma HasMember<T>(s: seq<T>)
    ensures s == [] || exists x :: x in s
  {
    if s != [] { assert s[0] in s; }
  }

  /** Only one ascending list has these members. */
  lemma {:induction false} AscendingSame(p: seq<nat>, q: seq<nat>)
    requires Ascending(p) && Ascending(q) && forall k :: k in p <==> k in q
    ensures p == q
  {
    if p == [] {
      HasMember(q);
    } else {
      var m, n := |p| - 1, |q| - 1;
      assert p[m] in q;
      assert q[n] in p;
      assert p[m] == q[n];
      forall k ensures k in p[..m] <==> k in q[..n] {
        assert k in p[..m] <==> k in p && k != p[m];
        assert k in q[..n] <==> k in q && k != q[n];
      }
      AscendingSame(p[..m], q[..n]);
      assert p == p[..m] + [p[m]] && q == q[..n] + [q[n]];
    }
  }

  // ----- without edges -----

  lemma MovingUnlinked(s: Snapshot, contracts: seq<D.Contract>, i: Id, j: Id)
    requires i != j
    ensures D.OrderFor(s, contracts, Moving(i), Moving(j)) == None
  {
    hide Use;
  }

  lemma NoEdges(contracts: seq<D.Contract>, stepId: Operation -> StepId, edges: seq<Edge>)
    requires T.DerivedEdges(Shared({}), contracts, stepId, Movings(), edges)
    ensures edges == []
  {
    hide Moving, D.OrderFor, Shared;
    var s, ops := Shared({}), Movings();
    assert edges != [] ==> T.FromArrow(s, contracts, stepId, ops, edges[0]);
    forall i: nat, j: nat ensures !T.Arrow(s, contracts, ops, i, j) {
      if i < 4 && j < 4 && i != j {
        assert ops[i] == Moving(i + 1) && ops[j] == Moving(j + 1);
        MovingUnlinked(s, contracts, i + 1, j + 1);
        MovingUnlinked(s, contracts, j + 1, i + 1);
      }
    }
  }

  lemma FourNodes(stepId: Operation -> StepId, nodes: seq<Node<Operation>>)
    requires NodesFor(Movings(), [], stepId, nodes)
    ensures FourSteps(nodes)
  {
    hide Moving;
    forall i | 0 <= i < 4 ensures nodes[i].predecessors == [] { HasMember(nodes[i].predecessors); }
  }

  // ----- a safe order -----

  lemma ShuffleWalks(w: World<Snapshot, Operation, Condition>, ctx: Context)
    requires CapacityWorld(w, ctx)
    ensures Walks(w, Shared({}), Movings())
  {
    hide CapacityWorld, Try, Shared, OverCommitted, Moving;
    var q: seq<nat>, ops, none: set<nat> := [1, 2, 0, 3], Movings(), {};
    assert Tried(w, Shared({}), ops, []) == Some(Shared(none));
    hide Tried;
    TotalsOf(none + {1});
    Onwards(w, ctx, [], none, 1);
    assert [] + [1 as nat] == [1];
    TotalsOf(none + {1} + {2});
    Onwards(w, ctx, [1], none + {1}, 2);
    assert [1 as nat] + [2] == [1, 2];
    TotalsOf(none + {1} + {2} + {0});
    Onwards(w, ctx, [1, 2], none + {1} + {2}, 0);
    assert [1 as nat, 2] + [0] == [1, 2, 0];
    TotalsOf(none + {1} + {2} + {0} + {3});
    Onwards(w, ctx, [1, 2, 0], none + {1} + {2} + {0}, 3);
    assert [1 as nat, 2, 0] + [3] == q;
    AnOrderOfFour();
    assert WalksAlong(w, Shared({}), ops, q);
  }

  lemma AnOrderOfFour()
    ensures IsOrder([1, 2, 0, 3], 4)
  {
    var q: seq<nat> := [1, 2, 0, 3];
    assert Identity(4) == [0, 1, 2, 3];
    assert Elements(q) == {0, 1, 2, 3} == Elements(Identity(4));
  }

  lemma Onwards(w: World<Snapshot, Operation, Condition>, ctx: Context, q: seq<nat>, done: set<nat>, k: nat)
    requires CapacityWorld(w, ctx) && k < 4 && forall i :: 0 <= i < |q| ==> q[i] < 4
    requires Tried(w, Shared({}), Movings(), q) == Some(Shared(done)) && !OverCommitted(Shared(done + {k}), 0)
    ensures Tried(w, Shared({}), Movings(), q + [k]) == Some(Shared(done + {k}))
  {
    hide CapacityWorld, Try, Shared, OverCommitted, Moving;
    var r := q + [k];
    assert r[..|r| - 1] == q && r[|r| - 1] == k;
    assert Movings()[k] == Moving(k + 1);
    MovingTried(w, ctx, done, k);
  }

  // ----- no plan -----

  /** The strategies are the four approaches, in any order and number. */
  ghost predicate UsesApproaches<S, C>(req: PlanRequest<S, Operation, C>, naming: Naming) {
    forall k, nodes :: 0 <= k < |req.strategies| ==>
      exists approach :: req.strategies[k](nodes) == Arrangement(approach, naming, nodes)
  }

  /** In general plan generation is not complete, even with all four strategies: the four derived
      operations have a safe order, and no strategy finds one. */
  lemma SafeChangeIsMissed(change: Change, req: PlanRequest<Snapshot, Operation, Condition>, instant: int,
                           ops: seq<Operation>)
    requires PlansFor(req, instant, change, ops) && change.target == Shuffle() && req.base.state == Shared({})
    requires CapacityWorld(req.base.worldAt(instant), change.ctx) && UsesApproaches(req, change.naming)
    ensures Walks(req.base.worldAt(instant), req.base.state, ops)
    ensures ops != [] && !SomeSearchSucceeds(req, instant)
  {
    hide CapacityWorld, Shared, Shuffle, Derives, NodesFor, Greedy, Arrangement, Walks, T.DerivedEdges, Moving;
    var w := req.base.worldAt(instant);
    MovingsInOrder(change.ctx, change.naming, ops);
    NoEdges(change.contracts, w.stepId, req.dependencies(instant, ops));
    ShuffleWalks(w, change.ctx);
    forall k, nodes | 0 <= k < |req.strategies| ensures !SearchSucceeds(req, instant, k, nodes) {
      if NodesFor(ops, [], w.stepId, nodes) {
        FourNodes(w.stepId, nodes);
        var approach :| req.strategies[k](nodes) == Arrangement(approach, change.naming, nodes);
        EveryApproachIsStuck(w, change.ctx, nodes, approach, change.naming);
      }
    }
  }
}
