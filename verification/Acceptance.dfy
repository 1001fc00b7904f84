/** What accepting an operation means: when it happens, what of the snapshot changes, and what doing
    the same again does. */
module Acceptance {
  import opened Wrappers
  import opened Sorting
  import opened Checked
  import opened Snapshots
  import opened Operations
  import opened Evaluate
  import opened Commutation
  import opened Convergence

  // ----- one entity at a time -----

  /** Apart from the entity `r`, the two snapshots hold the same entities. */
  ghost predicate SameExcept(s: Snapshot, t: Snapshot, r: Ref) {
    && t.header == s.header
    && (forall id :: DeviceRef(id) != r ==> At(t.devices, id) == At(s.devices, id))
    && (forall id :: LinkRef(id) != r ==> At(t.links, id) == At(s.links, id))
    && (forall id :: RouteRef(id) != r ==> At(t.routes, id) == At(s.routes, id))
    && (forall id :: WorkloadRef(id) != r ==> At(t.workloads, id) == At(s.workloads, id))
    && (forall id :: PolicyRef(id) != r ==> At(t.policies, id) == At(s.policies, id))
    && (forall owner, key :: ConfigRef(owner, key) != r ==> At(t.configs, (owner, key)) == At(s.configs, (owner, key)))
  }

  /** An accepted operation changes the one entity it writes and nothing else, beyond putting the
      snapshot into canonical form; what comes back is valid and canonical. */
  lemma OnlyTheWritten(ctx: Context, s: Snapshot, op: Operation, t: Snapshot)
    requires Apply(ctx, s, op) == Ok(t)
    ensures SameExcept(Canonical(s), t, WriteRef(op))
    ensures Valid(t) && Canonical(t) == t
  {
    hide Valid, Objection, Canonical;
    CanonicalTwice(Mutate(s, op));
    EffectSees(s, op);
  }

  lemma EffectSees(s: Snapshot, op: Operation)
    ensures SameExcept(Canonical(s), Effect(s, op), WriteRef(op))
  {
    hide CanonicalDevice, CanonicalLink, CanonicalWorkload, NextDevice, NextLink, NextRoute, NextWorkload, NextPolicy,
      NextConfig;
  }

  // ----- when an operation is admitted -----

  predicate DeviceIn(s: Snapshot, id: Id, states: set<EntityState>) {
    id in s.devices && s.devices[id].spec.state in states
  }

  /** The snapshots in which an operation is not objected to, kind by kind. */
  predicate Admissible(ctx: Context, s: Snapshot, op: Operation) {
    match op.kind
    case DeviceAdd => op.device !in s.devices && op.deviceSpec.state in {Present, Draining, InMaintenance}
    case DeviceRemove =>
      DeviceIn(s, op.device,
               if ctx.drainFirst then {Draining, InMaintenance} else {Absent, Present, Draining, InMaintenance})
    case DeviceSetCapacity | DeviceSetWindows => op.device in s.devices
    case DeviceSetState =>
      && op.device in s.devices && op.entityState in {Present, Draining, InMaintenance}
      && !(ctx.drainFirst && op.entityState == InMaintenance && s.devices[op.device].spec.state == Present)
    case DrainResource => DeviceIn(s, op.device, {Absent, Present})
    case EnterMaintenance => DeviceIn(s, op.device, if ctx.drainFirst then {Draining} else {Absent, Present, Draining})
    case ExitMaintenance => DeviceIn(s, op.device, {Draining, InMaintenance})
    case LinkAdd =>
      && op.link !in s.links && op.linkSpec.endpointA != op.linkSpec.endpointB
      && op.linkSpec.endpointA in s.devices && op.linkSpec.endpointB in s.devices
    case LinkRemove => op.link in s.links && s.links[op.link].state != Removed
    case LinkSetCapacity => op.link in s.links && s.links[op.link].spec.reserved <= op.capacity
    case RouteAdd =>
      && op.route !in s.routes && op.routeSpec.source in s.devices && op.routeSpec.sink in s.devices
      && Walkable(s.links, op.routeSpec)
    case RouteRemove => op.route in s.routes && !Bound(s, op.route)
    case RouteSetPath => op.route in s.routes && Walkable(s.links, op.routeSpec)
    case RouteSetState =>
      op.route in s.routes && (op.routeState == Active ==> Walkable(s.links, s.routes[op.route].spec))
    case WorkloadAdd => op.workload !in s.workloads && BindingsKnown(s, op.bindings)
    case WorkloadRemove | WorkloadSetRequirements => op.workload in s.workloads
    case WorkloadSetBindings => op.workload in s.workloads && BindingsKnown(s, op.bindings)
    case PolicyBind => op.policy != 0
    case PolicyUnbind => op.policy in s.policies
    case ConfigSet =>
      var key := (op.device, op.configKey);
      op.device in s.devices && (key in s.configs ==> s.configs[key].revision < MAX_U64)
    case ConfigClear => (op.device, op.configKey) in s.configs
  }

  /** A walkable path is known link by link. */
  lemma {:induction false} WalkedIsKnown(links: map<Id, Link>, at: Id, path: seq<Id>)
    requires Walk(links, at, path).Some?
    ensures forall i :: 0 <= i < |path| ==> path[i] in links
    decreases |path|
  {
    if path != [] {
      var spec := links[path[0]].spec;
      WalkedIsKnown(links, if spec.endpointA == at then spec.endpointB else spec.endpointA, path[1..]);
      assert forall i :: 1 <= i < |path| ==> path[i] == path[1..][i - 1];
    }
  }

  lemma DeviceAdmitted(ctx: Context, s: Snapshot, op: Operation)
    requires AreaOf(op.kind) == Devices
    ensures DeviceObjection(ctx, s, op) == None <==> Admissible(ctx, s, op)
  {
    OneOfFive(op.entityState);
    if op.device in s.devices { OneOfFive(s.devices[op.device].spec.state); }
  }

  lemma OneOfFive(state: EntityState)
    ensures state in {Absent, Present, Draining, InMaintenance, Removed}
  {
  }

  lemma LinkAdmitted(ctx: Context, s: Snapshot, op: Operation)
    requires AreaOf(op.kind) == Links
    ensures LinkObjection(s, op) == None <==> Admissible(ctx, s, op)
  {
  }

  lemma RouteAdmitted(ctx: Context, s: Snapshot, op: Operation)
    requires AreaOf(op.kind) == Routes
    ensures RouteObjection(s, op) == None <==> Admissible(ctx, s, op)
  {
    hide Walk, Bound;
    if Walkable(s.links, op.routeSpec) { WalkedIsKnown(s.links, op.routeSpec.source, op.routeSpec.path); }
  }

  lemma OthersAdmitted(ctx: Context, s: Snapshot, op: Operation)
    requires AreaOf(op.kind) in {Workloads, Policies, Configs}
    ensures KindObjection(ctx, s, op) == None <==> Admissible(ctx, s, op)
  {
    hide BindingsKnown;
  }

  /** The kind of an operation raises no objection exactly in these snapshots. */
  lemma AdmissibleExactly(ctx: Context, s: Snapshot, op: Operation)
    ensures KindObjection(ctx, s, op) == None <==> Admissible(ctx, s, op)
  {
    hide Admissible, DeviceObjection, LinkObjection, RouteObjection, WorkloadObjection, PolicyObjection,
      ConfigObjection;
    match AreaOf(op.kind) {
    case Devices => DeviceAdmitted(ctx, s, op);
    case Links => LinkAdmitted(ctx, s, op);
    case Routes => RouteAdmitted(ctx, s, op);
    case _ => OthersAdmitted(ctx, s, op);
    }
  }

  // ----- when what comes out is valid -----

  /** The entity written, if it is still there, is in order in the snapshot that comes out. */
  predicate WrittenOk(t: Snapshot, r: Ref) {
    match r
    case DeviceRef(id) => id in t.devices ==> DeviceOk(t.devices[id])
    case LinkRef(id) => id in t.links ==> LinkOk(t.devices, t.links[id])
    case RouteRef(id) => id in t.routes ==> RouteOk(t, t.routes[id])
    case WorkloadRef(id) => id in t.workloads ==> WorkloadOk(t.routes, t.workloads[id])
    case PolicyRef(id) => id in t.policies ==> PolicyOk(t, t.policies[id])
    case ConfigRef(owner, key) =>
      (owner, key) in t.configs ==> ConfigOk(t.devices, (owner, key), t.configs[(owner, key)])
    case _ => true
  }

  /** Something else in the snapshot refers to what the operation takes away. */
  predicate StillReferred(s: Snapshot, op: Operation) {
    match op.kind
    case RouteRemove =>
      PolicyTargets(s, PolicyTarget(RouteScope, op.route)) || (op.route in s.routes && Bound(s, op.route))
    case WorkloadRemove => PolicyTargets(s, PolicyTarget(WorkloadScope, op.workload))
    case PolicyUnbind => exists id :: id in s.routes && s.routes[id].spec.policy == op.policy != 0
    case _ => false
  }

  predicate PolicyTargets(s: Snapshot, target: PolicyTarget) {
    exists id :: id in s.policies && s.policies[id].target == target
  }

  /** Nothing that was there has gone, except what the operation takes away. */
  lemma KeysAfter(s: Snapshot, op: Operation)
    ensures var t := Effect(s, op);
      && t.header == s.header
      && s.devices.Keys <= t.devices.Keys && s.links.Keys <= t.links.Keys
      && s.routes.Keys - (if op.kind.RouteRemove? then {op.route} else {}) <= t.routes.Keys
      && s.workloads.Keys - (if op.kind.WorkloadRemove? then {op.workload} else {}) <= t.workloads.Keys
      && s.policies.Keys - (if op.kind.PolicyUnbind? then {op.policy} else {}) <= t.policies.Keys
  {
    hide CanonicalDevice, CanonicalLink, CanonicalWorkload;
  }

  lemma GoneAfter(s: Snapshot, op: Operation)
    ensures var t := Effect(s, op);
      && (op.kind.RouteRemove? ==> op.route !in t.routes) && (op.kind.WorkloadRemove? ==> op.workload !in t.workloads)
      && (op.kind.PolicyUnbind? ==> op.policy !in t.policies)
  {
    hide CanonicalDevice, CanonicalLink, CanonicalWorkload;
  }

  lemma OtherRoutes(s: Snapshot, op: Operation, t: Snapshot, id: Id)
    requires Valid(s) && SameExcept(s, t, WriteRef(op)) && !StillReferred(s, op) && id in t.routes
    requires RouteRef(id) != WriteRef(op)
    requires s.devices.Keys <= t.devices.Keys && s.links.Keys <= t.links.Keys
    requires s.policies.Keys - (if op.kind.PolicyUnbind? then {op.policy} else {}) <= t.policies.Keys
    ensures RouteOk(t, t.routes[id])
  {
    hide DeviceOk, LinkOk, WorkloadOk, PolicyOk, ConfigOk, PolicyTargets, Bound;
    assert At(t.routes, id) == At(s.routes, id);
    assert RouteOk(s, s.routes[id]);
  }

  lemma OtherWorkloads(s: Snapshot, op: Operation, t: Snapshot, id: Id)
    requires Valid(s) && SameExcept(s, t, WriteRef(op)) && !StillReferred(s, op) && id in t.workloads
    requires WorkloadRef(id) != WriteRef(op)
    requires op.kind.RouteRemove? ==> op.route in s.routes
    requires s.routes.Keys - (if op.kind.RouteRemove? then {op.route} else {}) <= t.routes.Keys
    ensures WorkloadOk(t.routes, t.workloads[id])
  {
    hide DeviceOk, LinkOk, RouteOk, PolicyOk, ConfigOk, PolicyTargets;
    assert At(t.workloads, id) == At(s.workloads, id);
    var w := s.workloads[id];
    assert WorkloadOk(s.routes, w);
    assert op.kind.RouteRemove? ==> !BindsRoute(w.bindings, op.route);
  }

  lemma OtherPolicies(s: Snapshot, op: Operation, t: Snapshot, id: Id)
    requires Valid(s) && SameExcept(s, t, WriteRef(op)) && !StillReferred(s, op) && id in t.policies
    requires PolicyRef(id) != WriteRef(op)
    requires s.devices.Keys <= t.devices.Keys && s.links.Keys <= t.links.Keys
    requires s.routes.Keys - (if op.kind.RouteRemove? then {op.route} else {}) <= t.routes.Keys
    requires s.workloads.Keys - (if op.kind.WorkloadRemove? then {op.workload} else {}) <= t.workloads.Keys
    ensures PolicyOk(t, t.policies[id])
  {
    hide DeviceOk, LinkOk, RouteOk, WorkloadOk, ConfigOk, Bound;
    assert At(t.policies, id) == At(s.policies, id);
    assert PolicyOk(s, s.policies[id]);
    var target := s.policies[id].target;
    assert target == PolicyTarget(target.scope, target.identity);
  }

  /** From a valid snapshot in canonical form, what comes out is valid exactly when the entity written
      is in order and nothing else refers to what is taken away. */
  lemma ValidExactly(ctx: Context, s: Snapshot, op: Operation)
    requires Valid(s) && Canonical(s) == s && Admissible(ctx, s, op)
    ensures Valid(Effect(s, op)) <==> WrittenOk(Effect(s, op), WriteRef(op)) && !StillReferred(s, op)
  {
    hide Effect, DeviceOk, LinkOk, RouteOk, WorkloadOk, PolicyOk, ConfigOk, Canonical, StillReferred;
    var t, r := Effect(s, op), WriteRef(op);
    EffectSees(s, op);
    KeysAfter(s, op);
    if Valid(t) {
      GoneAfter(s, op);
      NotReferred(s, op, t);
    }
    if WrittenOk(t, r) && !StillReferred(s, op) {
      hide SameExcept;
      forall id | id in t.devices ensures DeviceOk(t.devices[id]) { OtherDevices(s, t, r, id); }
      forall id | id in t.links ensures LinkOk(t.devices, t.links[id]) { OtherLinks(s, t, r, id); }
      forall id | id in t.routes ensures RouteOk(t, t.routes[id]) {
        if RouteRef(id) != r { OtherRoutes(s, op, t, id); }
      }
      forall id | id in t.workloads ensures WorkloadOk(t.routes, t.workloads[id]) {
        if WorkloadRef(id) != r { OtherWorkloads(s, op, t, id); }
      }
      forall id | id in t.policies ensures PolicyOk(t, t.policies[id]) {
        if PolicyRef(id) != r { OtherPolicies(s, op, t, id); }
      }
      forall k | k in t.configs ensures ConfigOk(t.devices, k, t.configs[k]) { OtherConfigs(s, t, r, k); }
    }
  }

  lemma OtherDevices(s: Snapshot, t: Snapshot, r: Ref, id: Id)
    requires Valid(s) && SameExcept(s, t, r) && WrittenOk(t, r) && id in t.devices
    ensures DeviceOk(t.devices[id])
  {
    hide DeviceOk, LinkOk, RouteOk, WorkloadOk, PolicyOk, ConfigOk;
    if DeviceRef(id) != r { assert At(t.devices, id) == At(s.devices, id); }
  }

  lemma OtherLinks(s: Snapshot, t: Snapshot, r: Ref, id: Id)
    requires Valid(s) && SameExcept(s, t, r) && WrittenOk(t, r) && id in t.links && s.devices.Keys <= t.devices.Keys
    ensures LinkOk(t.devices, t.links[id])
  {
    hide DeviceOk, RouteOk, WorkloadOk, PolicyOk, ConfigOk;
    if LinkRef(id) != r {
      assert At(t.links, id) == At(s.links, id);
      assert LinkOk(s.devices, s.links[id]);
    }
  }

  lemma OtherConfigs(s: Snapshot, t: Snapshot, r: Ref, k: (Id, Id))
    requires Valid(s) && SameExcept(s, t, r) && WrittenOk(t, r) && k in t.configs && s.devices.Keys <= t.devices.Keys
    ensures ConfigOk(t.devices, k, t.configs[k])
  {
    hide DeviceOk, LinkOk, RouteOk, WorkloadOk, PolicyOk;
    assert k == (k.0, k.1);
    if ConfigRef(k.0, k.1) != r {
      assert At(t.configs, (k.0, k.1)) == At(s.configs, (k.0, k.1));
      assert ConfigOk(s.devices, k, s.configs[k]);
    }
  }

  /** A valid outcome means that nothing refers to what was taken away. */
  lemma NotReferred(s: Snapshot, op: Operation, t: Snapshot)
    requires Valid(t) && SameExcept(s, t, WriteRef(op))
    requires op.kind.RouteRemove? ==> op.route !in t.routes
    requires op.kind.WorkloadRemove? ==> op.workload !in t.workloads
    requires op.kind.PolicyUnbind? ==> op.policy !in t.policies
    ensures !StillReferred(s, op)
  {
    hide DeviceOk, LinkOk, ConfigOk;
    match op.kind
    case RouteRemove =>
      forall id | id in s.policies ensures s.policies[id].target != PolicyTarget(RouteScope, op.route) {
        assert At(t.policies, id) == At(s.policies, id);
        assert PolicyOk(t, t.policies[id]);
      }
      forall w | w in s.workloads ensures !BindsRoute(s.workloads[w].bindings, op.route) {
        assert At(t.workloads, w) == At(s.workloads, w);
        assert WorkloadOk(t.routes, t.workloads[w]);
      }
    case WorkloadRemove =>
      forall id | id in s.policies ensures s.policies[id].target != PolicyTarget(WorkloadScope, op.workload) {
        assert At(t.policies, id) == At(s.policies, id);
        assert PolicyOk(t, t.policies[id]);
      }
    case PolicyUnbind =>
      forall id | id in s.routes ensures !(s.routes[id].spec.policy == op.policy != 0) {
        assert At(t.routes, id) == At(s.routes, id);
        assert RouteOk(t, t.routes[id]);
      }
    case _ =>
  }

  /** An operation is accepted exactly when the gates are open, it is admissible, the entity it writes
      comes out in order, and nothing refers to what it takes away. */
  lemma AcceptedExactly(ctx: Context, s: Snapshot, op: Operation)
    requires Valid(s) && Canonical(s) == s
    ensures Apply(ctx, s, op).Ok? <==>
      && ExclusionGate(ctx, s, op) && WindowGate(ctx, s, op) && Admissible(ctx, s, op)
      && WrittenOk(Effect(s, op), WriteRef(op)) && !StillReferred(s, op)
  {
    hide ExclusionGate, WindowGate, Admissible, KindObjection, Effect, Valid, Canonical, WrittenOk, StillReferred;
    AdmissibleExactly(ctx, s, op);
    if Admissible(ctx, s, op) { ValidExactly(ctx, s, op); }
  }

  // ----- the same operation again -----

  /** Operations whose effect, once had, is their own obstacle. */
  predicate OnlyOnce(kind: Kind) {
    kind in {DeviceAdd, DeviceRemove, DrainResource, EnterMaintenance, ExitMaintenance, LinkAdd, LinkRemove, RouteAdd,
             RouteRemove, WorkloadAdd, WorkloadRemove, PolicyUnbind, ConfigClear}
  }

  lemma MutateTwice(s: Snapshot, op: Operation)
    requires !OnlyOnce(op.kind) && !op.kind.ConfigSet?
    ensures Mutate(Mutate(s, op), op) == Mutate(s, op)
  {
  }

  lemma EffectTwice(s: Snapshot, op: Operation)
    requires !OnlyOnce(op.kind) && !op.kind.ConfigSet?
    ensures Effect(Effect(s, op), op) == Effect(s, op)
  {
    hide Mutate, Canonical, OnlyOnce;
    EffectAbsorbs(Mutate(s, op), op);
    MutateTwice(s, op);
  }

  lemma DeviceAfter(ctx: Context, s: Snapshot, op: Operation)
    requires AreaOf(op.kind) == Devices && Admissible(ctx, s, op)
    ensures var t := Effect(s, op); OnlyOnce(op.kind) <==> !Admissible(ctx, t, op)
  {
    hide SortWindows;
    assert Effect(s, op).devices == CanonicalDevices(StepDevices(s.devices, op));
  }

  lemma LinkAfter(ctx: Context, s: Snapshot, op: Operation)
    requires AreaOf(op.kind) == Links && Admissible(ctx, s, op)
    ensures var t := Effect(s, op); OnlyOnce(op.kind) <==> !Admissible(ctx, t, op)
  {
    hide SortUnique;
    assert Effect(s, op).links == CanonicalLinks(StepLinks(s.links, op));
    assert Effect(s, op).devices == CanonicalDevices(s.devices);
  }

  lemma {:induction false} WalkCanonical(links: map<Id, Link>, at: Id, path: seq<Id>)
    ensures Walk(CanonicalLinks(links), at, path) == Walk(links, at, path)
    decreases |path|
  {
    hide SortUnique;
    if path != [] && path[0] in links {
      var spec := links[path[0]].spec;
      WalkCanonical(links, spec.endpointB, path[1..]);
      WalkCanonical(links, spec.endpointA, path[1..]);
    }
  }

  lemma RouteAfter(ctx: Context, s: Snapshot, op: Operation)
    requires AreaOf(op.kind) == Routes && Admissible(ctx, s, op)
    ensures var t := Effect(s, op); OnlyOnce(op.kind) <==> !Admissible(ctx, t, op)
  {
    hide Walk, Bound, CanonicalLinks, CanonicalDevices, CanonicalWorkloads;
    WalkCanonical(s.links, op.routeSpec.source, op.routeSpec.path);
    if op.route in s.routes { WalkCanonical(s.links, s.routes[op.route].spec.source, s.routes[op.route].spec.path); }
    assert Effect(s, op).routes == StepRoutes(s.routes, op) && Effect(s, op).links == CanonicalLinks(s.links);
  }

  lemma OthersAfter(ctx: Context, s: Snapshot, op: Operation)
    requires AreaOf(op.kind) in {Workloads, Policies} || op.kind.ConfigClear?
    requires Admissible(ctx, s, op)
    ensures var t := Effect(s, op); OnlyOnce(op.kind) <==> !Admissible(ctx, t, op)
  {
    hide CanonicalWorkload, CanonicalDevices, CanonicalLinks;
  }

  lemma AdmissibleAfter(ctx: Context, s: Snapshot, op: Operation)
    requires !op.kind.ConfigSet? && Admissible(ctx, s, op)
    ensures OnlyOnce(op.kind) <==> !Admissible(ctx, Effect(s, op), op)
  {
    hide Admissible, Effect, OnlyOnce;
    match AreaOf(op.kind) {
    case Devices => DeviceAfter(ctx, s, op);
    case Links => LinkAfter(ctx, s, op);
    case Routes => RouteAfter(ctx, s, op);
    case _ => OthersAfter(ctx, s, op);
    }
  }

  lemma PermittedAfter(s: Snapshot, op: Operation, id: Id, instant: int)
    requires id in s.devices && id in Effect(s, op).devices && ChangePermitted(s.devices[id], instant)
    requires op.kind !in {DeviceAdd, DeviceSetWindows}
    ensures ChangePermitted(Effect(s, op).devices[id], instant)
  {
    hide SortWindows, ChangePermitted;
    assert Effect(s, op).devices == CanonicalDevices(StepDevices(s.devices, op));
    var d := StepDevices(s.devices, op)[id];
    CanonicalPermits(d, instant);
    CanonicalPermits(s.devices[id], instant);
    SameWindowsPermit(d, s.devices[id], instant);
  }

  lemma SameWindowsPermit(a: Device, b: Device, instant: int)
    requires a.exclusions == b.exclusions
    ensures ChangePermitted(a, instant) == ChangePermitted(b, instant)
  {
  }

  lemma SubjectsAfter(s: Snapshot, op: Operation)
    requires !OnlyOnce(op.kind)
    ensures Subjects(op, Effect(s, op)) <= Subjects(op, s)
  {
    hide CanonicalDevice, SortUnique, SortBindings;
    var t := Effect(s, op);
    assert t.routes == StepRoutes(s.routes, op) && t.links == CanonicalLinks(StepLinks(s.links, op));
    if AreaOf(op.kind) == Workloads { WorkloadSubjects(s, op); }
  }

  lemma WorkloadSubjects(s: Snapshot, op: Operation)
    requires AreaOf(op.kind) == Workloads && !OnlyOnce(op.kind)
    ensures Subjects(op, Effect(s, op)) <= Subjects(op, s)
  {
    hide SortUnique, RouteEnds, CanonicalDevices, CanonicalLinks, SortBindings;
    var t := Effect(s, op);
    SameRouteEnds(s, t);
    if op.workload in t.workloads {
      var bs := if op.kind.WorkloadSetBindings? then op.bindings else s.workloads[op.workload].bindings;
      assert t.workloads[op.workload].bindings == SortBindings(bs);
      SortedEnds(t, bs);
    }
  }

  lemma SameRouteEnds(s: Snapshot, t: Snapshot)
    requires t.routes == s.routes
    ensures forall route :: RouteEnds(t, route) == RouteEnds(s, route)
    ensures forall bs :: BindingEnds(t, bs) == BindingEnds(s, bs)
  {
  }

  lemma SortedEnds(t: Snapshot, bs: seq<Binding>)
    ensures BindingEnds(t, SortBindings(bs)) == BindingEnds(t, bs)
  {
    hide RouteEnds;
    var sorted := SortBindings(bs);
    forall b ensures b in sorted <==> b in bs { SortMembers(bs, ByKey(BindingRoute), b); }
    forall d ensures d in BindingEnds(t, sorted) <==> d in BindingEnds(t, bs) {
      if d in BindingEnds(t, sorted) {
        var i :| 0 <= i < |sorted| && d in RouteEnds(t, sorted[i].route);
        assert sorted[i] in bs;
      }
      if d in BindingEnds(t, bs) {
        var i :| 0 <= i < |bs| && d in RouteEnds(t, bs[i].route);
        assert bs[i] in sorted;
      }
    }
  }

  /** The gates that let an operation through let it through again, unless it sets the windows. */
  lemma GatesStayOpen(ctx: Context, s: Snapshot, op: Operation)
    requires !OnlyOnce(op.kind) && !op.kind.DeviceSetWindows? && ExclusionGate(ctx, s, op)
    ensures ExclusionGate(ctx, Effect(s, op), op)
  {
    hide Effect, Subjects, ChangePermitted;
    var t := Effect(s, op);
    SubjectsAfter(s, op);
    if ctx.exclusion {
      forall id | id in Subjects(op, t) && id in t.devices ensures ChangePermitted(t.devices[id], ctx.instant) {
        NoNewDevice(s, op, id);
        PermittedAfter(s, op, id, ctx.instant);
      }
    }
  }

  lemma NoNewDevice(s: Snapshot, op: Operation, id: Id)
    requires !op.kind.DeviceAdd? && id in Effect(s, op).devices
    ensures id in s.devices
  {
    hide CanonicalDevice;
    assert Effect(s, op).devices == CanonicalDevices(StepDevices(s.devices, op));
  }

  lemma Repeatable(ctx: Context, s: Snapshot, op: Operation)
    ensures !OnlyOnce(op.kind) ==> WindowGate(ctx, s, op)
  {
  }

  /** What doing an accepted operation a second time does.  Additions, removals and the steps of
      maintenance are refused; writing a configuration value counts the revision up until that
      overflows; everything else changes nothing more, and is accepted again, except that new windows
      may exclude the change that set them. */
  lemma AppliedTwice(ctx: Context, s: Snapshot, op: Operation, t: Snapshot)
    requires Apply(ctx, s, op) == Ok(t)
    ensures OnlyOnce(op.kind) ==> Apply(ctx, t, op).Err?
    ensures !OnlyOnce(op.kind) && !op.kind.ConfigSet? ==>
      Apply(ctx, t, op) == if ExclusionGate(ctx, t, op) then Ok(t) else Err(UnsafeTransition)
    ensures !OnlyOnce(op.kind) && !op.kind.DeviceSetWindows? ==> ExclusionGate(ctx, t, op)
    ensures op.kind.ConfigSet? ==>
      var key := (op.device, op.configKey);
      key in t.configs &&
      Apply(ctx, t, op) == if t.configs[key].revision >= MAX_U64 then Err(Overflow)
                           else Ok(t.(configs := t.configs[key := Config(op.value, t.configs[key].revision + 1)]))
  {
    hide Admissible, ExclusionGate, WindowGate, KindObjection, Effect, Valid, OnlyOnce;
    assert t == Effect(s, op);
    AdmissibleExactly(ctx, s, op);
    AdmissibleExactly(ctx, t, op);
    Repeatable(ctx, t, op);
    ConfigRepeats(op.kind);
    if !OnlyOnce(op.kind) && !op.kind.DeviceSetWindows? { GatesStayOpen(ctx, s, op); }
    if op.kind.ConfigSet? {
      ConfigAgain(ctx, s, op, t);
    } else {
      AdmissibleAfter(ctx, s, op);
      if !OnlyOnce(op.kind) { EffectTwice(s, op); }
    }
  }

  lemma ConfigRepeats(kind: Kind)
    ensures kind.ConfigSet? ==> !OnlyOnce(kind)
  {
  }

  lemma ConfigsAfter(s: Snapshot, op: Operation)
    ensures Effect(s, op).configs == StepConfigs(s.configs, op)
  {
    hide CanonicalDevices, CanonicalLinks, CanonicalWorkloads;
  }

  lemma ConfigAgain(ctx: Context, s: Snapshot, op: Operation, t: Snapshot)
    requires Apply(ctx, s, op) == Ok(t) && op.kind.ConfigSet? && ExclusionGate(ctx, t, op)
    ensures var key := (op.device, op.configKey);
      key in t.configs &&
      Apply(ctx, t, op) == if t.configs[key].revision >= MAX_U64 then Err(Overflow)
                           else Ok(t.(configs := t.configs[key := Config(op.value, t.configs[key].revision + 1)]))
  {
    hide ExclusionGate, WindowGate, Canonical, Valid;
    OnlyTheWritten(ctx, s, op, t);
    var key := (op.device, op.configKey);
    Repeatable(ctx, t, op);
    ConfigsAfter(s, op);
    DeviceStays(s, op);
    if t.configs[key].revision >= MAX_U64 { return; }
    var u := t.(configs := t.configs[key := Config(op.value, t.configs[key].revision + 1)]);
    assert Mutate(t, op) == u;
    StillCanonical(t, u);
    StillValid(t, u, key);
  }

  lemma DeviceStays(s: Snapshot, op: Operation)
    requires op.kind.ConfigSet? && op.device in s.devices
    ensures op.device in Effect(s, op).devices
  {
    hide CanonicalDevice;
  }

  lemma StillCanonical(t: Snapshot, u: Snapshot)
    requires Canonical(t) == t && u == t.(configs := u.configs)
    ensures Canonical(u) == u
  {
    hide CanonicalDevices, CanonicalLinks, CanonicalWorkloads;
  }

  lemma StillValid(t: Snapshot, u: Snapshot, key: (Id, Id))
    requires Valid(t) && key in t.configs && key in u.configs && u == t.(configs := t.configs[key := u.configs[key]])
    requires u.configs[key].value == t.configs[key].value
    ensures Valid(u)
  {
    hide DeviceOk, LinkOk, WorkloadOk;
    forall id | id in u.routes ensures RouteOk(u, u.routes[id]) { assert RouteOk(t, t.routes[id]); }
    forall id | id in u.policies ensures PolicyOk(u, u.policies[id]) { assert PolicyOk(t, t.policies[id]); }
    assert ConfigOk(t.devices, key, t.configs[key]);
  }

  // ----- the states of a device -----

  /** The moves between states that the evaluator allows. */
  predicate MayMove(drainFirst: bool, from: EntityState, to: EntityState) {
    match to
    case Absent => false
    case Present => true
    case Draining => true
    case InMaintenance => !(drainFirst && from == Present)
    case Removed => if drainFirst then from in {Draining, InMaintenance} else from != Removed
  }

  /** An accepted operation moves a device only as allowed. */
  lemma MovesAreAllowed(ctx: Context, s: Snapshot, op: Operation, t: Snapshot, device: Id)
    requires Apply(ctx, s, op) == Ok(t) && device in s.devices
    ensures device in t.devices
    ensures var a, b := s.devices[device].spec.state, t.devices[device].spec.state;
      a == b || MayMove(ctx.drainFirst, a, b)
  {
    hide ExclusionGate, WindowGate, Valid, SortWindows, Admissible;
    AdmissibleExactly(ctx, s, op);
    assert t.devices == CanonicalDevices(StepDevices(s.devices, op));
    if AreaOf(op.kind) == Devices { OneOfFive(op.entityState); }
  }

  /** Where draining first is the policy, a device in use is in maintenance or removed at the end of a
      run only if it was draining somewhere on the way. */
  lemma {:induction false} DrainedOnTheWay(ctx: Context, s: Snapshot, xs: seq<Operation>, device: Id)
    requires ctx.drainFirst && Applied(ctx, s, xs).Some?
    requires device in s.devices && s.devices[device].spec.state == Present
    ensures var u := Applied(ctx, s, xs).value;
      device in u.devices && (u.devices[device].spec.state != Present ==> exists k :: DrainingAt(ctx, s, xs, k, device))
  {
    hide Apply;
    if xs != [] {
      var n := |xs| - 1;
      DrainedOnTheWay(ctx, s, xs[..n], device);
      var m := Applied(ctx, s, xs[..n]).value;
      MovesAreAllowed(ctx, m, xs[n], Applied(ctx, s, xs).value, device);
      if m.devices[device].spec.state == Present {
        assert xs[..|xs|] == xs;
        if Applied(ctx, s, xs).value.devices[device].spec.state == Draining {
          assert DrainingAt(ctx, s, xs, |xs|, device);
        }
      } else {
        var k: nat :| DrainingAt(ctx, s, xs[..n], k, device);
        assert xs[..n][..k] == xs[..k];
        assert DrainingAt(ctx, s, xs, k, device);
      }
    }
  }

  ghost predicate DrainingAt(ctx: Context, s: Snapshot, xs: seq<Operation>, k: nat, device: Id) {
    && k <= |xs| && Applied(ctx, s, xs[..k]).Some?
    && DeviceIn(Applied(ctx, s, xs[..k]).value, device, {Draining})
  }
}
