/** Where the search is complete on the network: changes to policies and configuration, beside work
    on devices whose steps are ordered among themselves. */
module Settings {
  import opened Wrappers
  import opened Permutations
  import opened Worlds
  import opened Kahn
  import opened Search
  import opened Completeness
  import opened Generate
  import opened Snapshots
  import opened Operations
  import opened Evaluate
  import D = Dependencies
  import T = Tangles
  import opened Commutation
  import opened Conditions
  import opened Convergence
  import opened Networks

  predicate Setting(op: Operation) { op.kind in {PolicyBind, PolicyUnbind, ConfigSet, ConfigClear} }

  /** Changes a device in place, leaving its windows alone. */
  predicate DeviceWork(op: Operation) {
    op.kind in {DeviceRemove, DeviceSetCapacity, DeviceSetState, DrainResource, EnterMaintenance, ExitMaintenance}
  }

  /** The obligations do not look at policies or configuration. */
  ghost predicate Blind(violated: Snapshot -> bool) {
    forall s: Snapshot, ps, cs :: violated(s.(policies := ps, configs := cs)) == violated(s)
  }

  // ----- what each kind of step looks at -----

  /** Nothing a setting looks at differs between the two snapshots. */
  ghost predicate AlikeFor(m: Snapshot, u: Snapshot, y: Operation) {
    && u.links == m.links && u.routes == m.routes && u.workloads == m.workloads
    && u.devices.Keys == m.devices.Keys
    && (forall id :: id in m.devices ==> u.devices[id].exclusions == m.devices[id].exclusions)
    && (forall id :: id in m.devices && DeviceRef(id) in ReadRefs(y) ==> u.devices[id] == m.devices[id])
    && (AreaOf(y.kind) == Policies ==> At(u.policies, y.policy) == At(m.policies, y.policy))
    && (AreaOf(y.kind) == Configs ==> At(u.configs, (y.device, y.configKey)) == At(m.configs, (y.device, y.configKey)))
  }

  lemma PolicyReady(ctx: Context, m: Snapshot, u: Snapshot, y: Operation)
    requires y.kind in {PolicyBind, PolicyUnbind} && AlikeFor(m, u, y) && AllTrue(ctx, m, Preconditions(m, y))
    ensures AllTrue(ctx, u, Preconditions(u, y))
  {
    hide Serviceable, ActivelyBinds, MaintenancePermitted;
    var cs := Preconditions(m, y);
    assert Preconditions(u, y) == cs;
    forall i | 0 <= i < |cs| ensures Holds(ctx, u, cs[i]) == Some(true) { assert Holds(ctx, m, cs[i]) == Some(true); }
  }

  lemma ConfigReady(ctx: Context, m: Snapshot, u: Snapshot, y: Operation)
    requires y.kind in {ConfigSet, ConfigClear} && AlikeFor(m, u, y) && AllTrue(ctx, m, Preconditions(m, y))
    ensures AllTrue(ctx, u, Preconditions(u, y))
  {
    hide Serviceable, ActivelyBinds, MaintenancePermitted;
    var cs := Preconditions(m, y);
    assert Preconditions(u, y) == cs;
    forall i | 0 <= i < |cs| ensures Holds(ctx, u, cs[i]) == Some(true) { assert Holds(ctx, m, cs[i]) == Some(true); }
  }

  lemma SettingReady(ctx: Context, m: Snapshot, u: Snapshot, y: Operation)
    requires Setting(y) && AlikeFor(m, u, y) && AllTrue(ctx, m, Preconditions(m, y))
    ensures AllTrue(ctx, u, Preconditions(u, y))
  {
    hide AlikeFor, Preconditions, AllTrue;
    if y.kind in {PolicyBind, PolicyUnbind} { PolicyReady(ctx, m, u, y); } else { ConfigReady(ctx, m, u, y); }
  }

  lemma SettingGates(ctx: Context, m: Snapshot, u: Snapshot, y: Operation)
    requires Setting(y) && AlikeFor(m, u, y)
    ensures ExclusionGate(ctx, m, y) ==> ExclusionGate(ctx, u, y)
    ensures WindowGate(ctx, u, y)
  {
    hide LinkEnds, RouteEnds;
    assert LinkEnds(u, y.policyTarget.identity) == LinkEnds(m, y.policyTarget.identity) by {
      SameEnds(m, u, y.policyTarget.identity);
    }
    assert RouteEnds(u, y.policyTarget.identity) == RouteEnds(m, y.policyTarget.identity) by {
      SameEnds(m, u, y.policyTarget.identity);
    }
    assert Subjects(y, u) == Subjects(y, m);
  }

  lemma SameEnds(m: Snapshot, u: Snapshot, id: Id)
    requires u.links == m.links && u.routes == m.routes
    ensures LinkEnds(u, id) == LinkEnds(m, id) && RouteEnds(u, id) == RouteEnds(m, id)
  {
  }

  lemma SettingAccepted(ctx: Context, m: Snapshot, u: Snapshot, y: Operation)
    requires Setting(y) && AlikeFor(m, u, y) && Objection(ctx, m, y) == None
    ensures Objection(ctx, u, y) == None
  {
    hide ExclusionGate, WindowGate;
    SettingGates(ctx, m, u, y);
  }

  lemma WorkFits(ctx: Context, m: Snapshot, u: Snapshot, y: Operation)
    requires DeviceWork(y) && u.devices == m.devices
    requires AllTrue(ctx, m, Preconditions(m, y)) && Objection(ctx, m, y) == None
    ensures AllTrue(ctx, u, Preconditions(u, y)) && Objection(ctx, u, y) == None
  {
    hide Serviceable, ActivelyBinds;
    var cs := Preconditions(m, y);
    assert Preconditions(u, y) == cs;
    forall i | 0 <= i < |cs| ensures Holds(ctx, u, cs[i]) == Some(true) { assert Holds(ctx, m, cs[i]) == Some(true); }
  }

  // ----- one step seen from another -----

  /** What a setting or a device step does to a snapshot in canonical form. */
  lemma StepLeaves(m: Snapshot, x: Operation)
    requires Canonical(m) == m && (Setting(x) || DeviceWork(x))
    ensures var u := Effect(m, x);
      && u.header == m.header && u.links == m.links && u.routes == m.routes && u.workloads == m.workloads
      && u.devices.Keys == m.devices.Keys
      && (Setting(x) ==> u.devices == m.devices)
      && (DeviceWork(x) ==> u.policies == m.policies && u.configs == m.configs)
      && (forall id :: id in m.devices ==> u.devices[id].exclusions == m.devices[id].exclusions)
      && (forall id :: id in m.devices && id != x.device ==> u.devices[id] == m.devices[id])
  {
    hide SortWindows, CanonicalLinks, CanonicalWorkloads;
    var u := Effect(m, x);
    assert CanonicalLinks(m.links) == m.links && CanonicalWorkloads(m.workloads) == m.workloads;
    assert CanonicalDevices(m.devices) == m.devices;
    assert u.devices == CanonicalDevices(StepDevices(m.devices, x));
    forall id | id in m.devices ensures CanonicalDevice(m.devices[id]) == m.devices[id] {
      assert CanonicalDevices(m.devices)[id] == CanonicalDevice(m.devices[id]);
    }
    if Setting(x) { assert StepDevices(m.devices, x) == m.devices; }
  }

  lemma LeavesAlike(s0: Snapshot, contracts: seq<D.Contract>, m: Snapshot, x: Operation, y: Operation)
    requires Canonical(m) == m && (Setting(x) || DeviceWork(x)) && Setting(y) && !D.Linked(s0, contracts, x, y)
    ensures AlikeFor(m, Effect(m, x), y)
  {
    hide Effect, D.Prerequisite, D.SameDomain, D.ContractConflict, Canonical;
    StepLeaves(m, x);
    PolicySeen(m, x, y.policy);
    ConfigSeen(m, x, (y.device, y.configKey));
    assert DeviceWork(x) ==> WriteRef(x) == DeviceRef(x.device);
    assert WriteRef(x) != WriteRef(y) && WriteRef(x) !in ReadRefs(y) by { LinkedOtherwise(s0, contracts, x, y); }
  }

  lemma LinkedOtherwise(s0: Snapshot, contracts: seq<D.Contract>, x: Operation, y: Operation)
    requires Setting(y) && !D.Linked(s0, contracts, x, y)
    ensures WriteRef(x) != WriteRef(y) && WriteRef(x) !in ReadRefs(y)
  {
  }

  // ----- validity of both together -----

  lemma BothValid(m: Snapshot, x: Operation, y: Operation)
    requires Canonical(m) == m && (Setting(x) || DeviceWork(x)) && (Setting(y) || DeviceWork(y))
    requires Setting(x) || Setting(y)
    requires WriteRef(x) != WriteRef(y) && Valid(Effect(m, x)) && Valid(Effect(m, y))
    ensures Valid(Effect(Effect(m, x), y))
  {
    hide Effect, Canonical, DeviceOk, LinkOk, WorkloadOk, Mutate;
    var u, v, z := Effect(m, x), Effect(m, y), Effect(Effect(m, x), y);
    CanonicalTwiceOf(m, x);
    StepLeaves(m, x);
    StepLeaves(m, y);
    StepLeaves(u, y);
    forall id | id in z.devices ensures DeviceOk(z.devices[id]) {
      DeviceSeen(m, y, id);
      DeviceSeen(u, y, id);
      assert At(z.devices, id) == At(if AreaOf(y.kind) == Devices then v.devices else u.devices, id)
        || z.devices[id] == u.devices[id];
    }
    forall id | id in z.links ensures LinkOk(z.devices, z.links[id]) { LinkKeys(u.devices, z.devices, z.links[id]); }
    forall id ensures At(z.policies, id) == At(u.policies, id) || At(z.policies, id) == At(v.policies, id) {
      PolicySeen(m, y, id);
      PolicySeen(u, y, id);
    }
    forall key ensures At(z.configs, key) == At(u.configs, key) || At(z.configs, key) == At(v.configs, key) {
      ConfigFrom(m, x, y, key);
    }
    forall id | id in z.routes ensures RouteOk(z, z.routes[id]) { RouteStays(m, x, y, id); }
    forall id | id in z.policies ensures PolicyOk(z, z.policies[id]) { PolicyStays(u, v, z, id); }
    forall key | key in z.configs ensures ConfigOk(z.devices, key, z.configs[key]) { ConfigStays(u, v, z, key); }
    forall id | id in z.workloads ensures WorkloadOk(z.routes, z.workloads[id]) {}
  }

  lemma CanonicalTwiceOf(m: Snapshot, x: Operation)
    ensures Canonical(Effect(m, x)) == Effect(m, x)
  {
    hide Mutate, Canonical;
    CanonicalTwice(Mutate(m, x));
  }

  lemma LinkKeys(a: map<Id, Device>, b: map<Id, Device>, l: Link)
    requires a.Keys == b.Keys && LinkOk(a, l)
    ensures LinkOk(b, l)
  {
  }

  lemma ConfigStays(u: Snapshot, v: Snapshot, z: Snapshot, key: (Id, Id))
    requires Valid(u) && Valid(v) && key in z.configs && u.devices.Keys == v.devices.Keys == z.devices.Keys
    requires At(z.configs, key) == At(u.configs, key) || At(z.configs, key) == At(v.configs, key)
    ensures ConfigOk(z.devices, key, z.configs[key])
  {
    hide DeviceOk, LinkOk, WorkloadOk, RouteOk, PolicyOk;
    if key in u.configs && z.configs[key] == u.configs[key] {
      assert ConfigOk(u.devices, key, u.configs[key]);
    } else {
      assert ConfigOk(v.devices, key, v.configs[key]);
    }
  }

  lemma ConfigFrom(m: Snapshot, x: Operation, y: Operation, key: (Id, Id))
    requires Canonical(m) == m && WriteRef(x) != WriteRef(y)
    ensures var u, v, z := Effect(m, x), Effect(m, y), Effect(Effect(m, x), y);
      At(z.configs, key) == At(u.configs, key) || At(z.configs, key) == At(v.configs, key)
  {
    hide Effect, Canonical;
    ConfigSeen(m, x, key);
    ConfigSeen(m, y, key);
    ConfigSeen(Effect(m, x), y, key);
  }

  lemma RouteStays(m: Snapshot, x: Operation, y: Operation, id: Id)
    requires Canonical(m) == m && (Setting(x) || DeviceWork(x)) && (Setting(y) || DeviceWork(y))
    requires var z := Effect(Effect(m, x), y); id in z.routes
    requires Valid(Effect(m, x)) && Valid(Effect(m, y))
    ensures var z := Effect(Effect(m, x), y); RouteOk(z, z.routes[id])
  {
    hide Effect, Canonical, DeviceOk, LinkOk, WorkloadOk, PolicyOk, ConfigOk;
    var u, v, z := Effect(m, x), Effect(m, y), Effect(Effect(m, x), y);
    CanonicalTwiceOf(m, x);
    StepLeaves(m, x);
    StepLeaves(m, y);
    StepLeaves(u, y);
    var p := z.routes[id].spec.policy;
    PolicySeen(m, y, p);
    PolicySeen(u, y, p);
    assert RouteOk(u, u.routes[id]) && RouteOk(v, v.routes[id]);
  }

  lemma PolicyStays(u: Snapshot, v: Snapshot, z: Snapshot, id: Id)
    requires Valid(u) && Valid(v) && id in z.policies
    requires At(z.policies, id) == At(u.policies, id) || At(z.policies, id) == At(v.policies, id)
    requires u.devices.Keys == v.devices.Keys == z.devices.Keys && u.links == v.links == z.links
    requires u.routes == v.routes == z.routes && u.workloads == v.workloads == z.workloads
    ensures PolicyOk(z, z.policies[id])
  {
    hide DeviceOk, LinkOk, WorkloadOk, RouteOk, ConfigOk;
    if id in u.policies && z.policies[id] == u.policies[id] {
      assert PolicyOk(u, u.policies[id]);
    } else {
      assert PolicyOk(v, v.policies[id]);
    }
  }

  // ----- unlinked steps leave one another possible -----

  /** A pair of steps of which one at least is a setting. */
  predicate Light(x: Operation, y: Operation) {
    (Setting(x) && (Setting(y) || DeviceWork(y))) || (DeviceWork(x) && Setting(y))
  }

  lemma StillFits(w: World<Snapshot, Operation, Condition>, ctx: Context, s0: Snapshot, contracts: seq<D.Contract>,
                  m: Snapshot, x: Operation, y: Operation)
    requires IsNetwork(w, ctx) && Blind(w.violated) && Canonical(m) == m
    requires Light(x, y) && !D.Linked(s0, contracts, x, y)
    requires Try(w, m, x).Some? && Try(w, m, y).Some?
    ensures Try(w, Try(w, m, x).value, y).Some?
  {
    hide Effect, Canonical, Valid, D.OrderFor, AlikeFor, Objection, Preconditions, AllTrue, Try, IsNetwork;
    var u := Effect(m, x);
    TryMeans(w, ctx, m, x);
    TryMeans(w, ctx, m, y);
    TryMeans(w, ctx, u, y);
    if Setting(y) {
      LeavesAlike(s0, contracts, m, x, y);
      SettingReady(ctx, m, u, y);
      SettingAccepted(ctx, m, u, y);
    } else {
      StepLeaves(m, x);
      WorkFits(ctx, m, u, y);
    }
    WritesApart(s0, contracts, x, y);
    BothValid(m, x, y);
    StillUnbroken(w, m, x, y);
  }

  lemma WritesApart(s0: Snapshot, contracts: seq<D.Contract>, x: Operation, y: Operation)
    requires Light(x, y) && !D.Linked(s0, contracts, x, y)
    ensures WriteRef(x) != WriteRef(y)
  {
    hide D.Prerequisite, D.SameDomain, D.ContractConflict;
  }

  /** Both together break an obligation only if the device step alone does. */
  lemma StillUnbroken(w: World<Snapshot, Operation, Condition>, m: Snapshot, x: Operation, y: Operation)
    requires Blind(w.violated) && Canonical(m) == m && Light(x, y)
    requires !w.violated(Effect(m, x)) && !w.violated(Effect(m, y))
    ensures !w.violated(Effect(Effect(m, x), y))
  {
    hide Effect, Canonical;
    var u, v, z := Effect(m, x), Effect(m, y), Effect(Effect(m, x), y);
    CanonicalTwiceOf(m, x);
    StepLeaves(m, x);
    StepLeaves(m, y);
    StepLeaves(u, y);
    if Setting(y) {
      assert z == u.(policies := z.policies, configs := z.configs);
    } else {
      WorkApart(m, x, y);
      assert z == v.(policies := z.policies, configs := z.configs);
    }
  }

  lemma WorkApart(m: Snapshot, x: Operation, y: Operation)
    requires Canonical(m) == m && Setting(x) && DeviceWork(y)
    ensures Effect(Effect(m, x), y).devices == Effect(m, y).devices
  {
    StepLeaves(m, x);
    hide Effect;
    var u := Effect(m, x);
    assert u.devices == m.devices;
    EffectDevices(m, y);
    EffectDevices(u, y);
  }

  lemma EffectDevices(m: Snapshot, y: Operation)
    ensures Effect(m, y).devices == CanonicalDevices(StepDevices(m.devices, y))
  {
    hide CanonicalDevices, StepDevices, CanonicalLinks, CanonicalWorkloads;
  }

  // ----- so the search is complete -----

  /** Every step changes policies or configuration, or works on the one device. */
  predicate OneDeviceAtMost(ops: seq<Operation>, device: Id) {
    forall i :: 0 <= i < |ops| ==> Setting(ops[i]) || (DeviceWork(ops[i]) && ops[i].device == device)
  }

  lemma LightOrLinked(s0: Snapshot, contracts: seq<D.Contract>, ops: seq<Operation>, device: Id, i: nat, j: nat)
    requires OneDeviceAtMost(ops, device) && i < |ops| && j < |ops|
    ensures D.Linked(s0, contracts, ops[i], ops[j]) || Light(ops[i], ops[j])
  {
    hide D.Prerequisite, D.SameDomain, D.ContractConflict;
  }

  /** Linked operations are predecessors one of the other. */
  lemma LinkedIsOrdered(s0: Snapshot, contracts: seq<D.Contract>, stepId: Operation -> StepId, ops: seq<Operation>,
                        edges: seq<Edge>, nodes: seq<Node<Operation>>, a: nat, b: nat)
    requires NodesFor(ops, edges, stepId, nodes) && T.DerivedEdges(s0, contracts, stepId, ops, edges)
    requires a < |ops| && b < |ops| && a != b && Independent(nodes, a, b)
    ensures !D.Linked(s0, contracts, ops[a], ops[b])
  {
    hide T.DerivedEdges, Independent, D.OrderFor, NodesOk;
    var i, j := if a < b then a else b, if a < b then b else a;
    D.LinkedIsSymmetric(s0, contracts, ops[a], ops[b]);
    var order := D.OrderFor(s0, contracts, ops[i], ops[j]);
    if T.IsForward(order) {
      ArrowIsOrdered(s0, contracts, stepId, ops, edges, nodes, i, j);
    } else if order.Some? {
      ArrowIsOrdered(s0, contracts, stepId, ops, edges, nodes, j, i);
    }
    IndependentEitherWay(nodes, a, b);
  }

  lemma IndependentEitherWay<O>(nodes: seq<Node<O>>, a: nat, b: nat)
    requires a < |nodes| && b < |nodes|
    ensures Independent(nodes, a, b) <==> Independent(nodes, b, a)
  {
  }

  lemma ArrowIsOrdered(s0: Snapshot, contracts: seq<D.Contract>, stepId: Operation -> StepId, ops: seq<Operation>,
                       edges: seq<Edge>, nodes: seq<Node<Operation>>, x: nat, y: nat)
    requires NodesFor(ops, edges, stepId, nodes) && T.DerivedEdges(s0, contracts, stepId, ops, edges)
    requires T.Arrow(s0, contracts, ops, x, y)
    ensures x < |nodes| && y < |nodes| && !Independent(nodes, x, y)
  {
    hide D.OrderFor;
    var e := Edge(stepId(ops[x]), stepId(ops[y]));
    assert e in edges && Between(nodes, e, x, y);
  }

  lemma {:induction false} StaysCanonical(w: World<Snapshot, Operation, Condition>, ctx: Context,
                                          nodes: seq<Node<Operation>>, s: Snapshot, p: seq<nat>)
    requires IsNetwork(w, ctx) && Canonical(s) == s && forall i :: 0 <= i < |p| ==> p[i] < |nodes|
    requires Follow(w, nodes, s, p).Some?
    ensures var m := Follow(w, nodes, s, p).value; Canonical(m) == m
  {
    hide IsNetwork, Try, Canonical, Effect;
    if p != [] {
      var n := |p| - 1;
      StaysCanonical(w, ctx, nodes, s, p[..n]);
      var m := Follow(w, nodes, s, p[..n]).value;
      TryMeans(w, ctx, m, nodes[p[n]].op);
      CanonicalTwiceOf(m, nodes[p[n]].op);
    }
  }

  lemma LightDiamond(w: World<Snapshot, Operation, Condition>, ctx: Context, s0: Snapshot, contracts: seq<D.Contract>,
                     nodes: seq<Node<Operation>>, m: Snapshot, a: nat, b: nat)
    requires IsNetwork(w, ctx) && Blind(w.violated) && Canonical(m) == m && a < |nodes| && b < |nodes|
    requires Light(nodes[a].op, nodes[b].op) && !D.Linked(s0, contracts, nodes[a].op, nodes[b].op)
    ensures Diamond(w, nodes, m, a, b)
  {
    hide IsNetwork, Try, Canonical, Effect, D.Linked, Clash, Light, Blind;
    var x, y := nodes[a].op, nodes[b].op;
    if Try(w, m, x).Some? && Try(w, m, y).Some? {
      D.LinkedIsSymmetric(s0, contracts, x, y);
      LightEitherWay(x, y);
      StillFits(w, ctx, s0, contracts, m, x, y);
      StillFits(w, ctx, s0, contracts, m, y, x);
      TryMeans(w, ctx, m, x);
      TryMeans(w, ctx, m, y);
      TryMeans(w, ctx, Effect(m, x), y);
      TryMeans(w, ctx, Effect(m, y), x);
      UnlinkedDoNotClash(s0, contracts, x, y);
      EffectsCommute(m, x, y);
    }
  }

  lemma LightEitherWay(x: Operation, y: Operation)
    requires Light(x, y)
    ensures Light(y, x)
  {
  }

  /** Such steps never disturb one another, whatever the obligations are, as long as these do not
      look at policies and configuration. */
  lemma LightIsUndisturbed(w: World<Snapshot, Operation, Condition>, ctx: Context, contracts: seq<D.Contract>,
                           s0: Snapshot, ops: seq<Operation>, edges: seq<Edge>, nodes: seq<Node<Operation>>, device: Id)
    requires IsNetwork(w, ctx) && Blind(w.violated) && Canonical(s0) == s0 && OneDeviceAtMost(ops, device)
    requires NodesFor(ops, edges, w.stepId, nodes) && T.DerivedEdges(s0, contracts, w.stepId, ops, edges)
    ensures Undisturbed(w, nodes, s0)
  {
    hide IsNetwork, Blind, Canonical, Light, D.Linked, Diamond, IsReady, Independent, OneDeviceAtMost, T.DerivedEdges;
    forall p: seq<nat>, a: nat, b: nat
      | Topological(nodes, p) && ReadyAfter(nodes, p, a) && ReadyAfter(nodes, p, b) && a != b
      ensures UndisturbedAfter(w, nodes, s0, p, a, b)
    {
      ReadyTogetherIndependent(nodes, Elements(p), a, b);
      LinkedIsOrdered(s0, contracts, w.stepId, ops, edges, nodes, a, b);
      LightOrLinked(s0, contracts, ops, device, a, b);
      if Follow(w, nodes, s0, p).Some? {
        StaysCanonical(w, ctx, nodes, s0, p);
        LightDiamond(w, ctx, s0, contracts, nodes, Follow(w, nodes, s0, p).value, a, b);
      }
    }
  }

  /** For changes of policies and configuration, beside any work on one device, the search refuses
      under no strategy what has a safe order, and ends where every safe order ends. */
  lemma SettingsAreNeverMissed(w: World<Snapshot, Operation, Condition>, ctx: Context, contracts: seq<D.Contract>,
                               s0: Snapshot, ops: seq<Operation>, edges: seq<Edge>, nodes: seq<Node<Operation>>,
                               device: Id, strategy: Strategy, order: seq<nat>)
    requires IsNetwork(w, ctx) && Blind(w.violated) && Canonical(s0) == s0 && OneDeviceAtMost(ops, device)
    requires NodesFor(ops, edges, w.stepId, nodes) && T.DerivedEdges(s0, contracts, w.stepId, ops, edges)
    requires Topological(nodes, order) && |order| == |nodes| && Follow(w, nodes, s0, order).Some?
    ensures Greedy(w, nodes, strategy, {}, s0).Some?
    ensures Some(Greedy(w, nodes, strategy, {}, s0).value.1) == Follow(w, nodes, s0, order)
  {
    hide IsNetwork, Blind, OneDeviceAtMost, NodesFor, T.DerivedEdges, Canonical, Undisturbed, Greedy;
    LightIsUndisturbed(w, ctx, contracts, s0, ops, edges, nodes, device);
    RefusalMeansNoOrder(w, nodes, strategy, s0, order);
  }
}
