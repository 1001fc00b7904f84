/** The conditions attached to a step, how they are evaluated, and how they relate to what applying
    the operation does. */
module Conditions {
  import opened Wrappers
  import opened Sorting
  import opened Snapshots
  import opened Operations
  import opened Evaluate

  datatype Condition =
    | EntityAbsent(subject: Ref)
    | EntityPresent(subject: Ref)
    | StateIs(subject: Ref, state: EntityState)
    | RouteWalkable(route: Id)
    | RouteStateIs(route: Id, routeState: RouteState)
    | ConfigEquals(device: Id, key: Id, value: Code)
    | PolicyBound(policy: Id)
    | BindingActive(workload: Id, bound: Id)
    | CapacityAtLeast(subject: Ref, quantity: nat)
    | WindowOpen(device: Id)
    | ExclusionInactive(device: Id)
    | DeviceDrained(device: Id)

  // ----- evaluation; None is an evaluation error, caused by an identity that is not valid -----

  function Exists(s: Snapshot, subject: Ref): Option<bool> {
    match subject
    case GlobalRef => Some(true)
    case DeviceRef(id) => if id == 0 then None else Some(DeviceInService(s, id))
    case LinkRef(id) => if id == 0 then None else Some(id in s.links && s.links[id].state != Removed)
    case RouteRef(id) => if id == 0 then None else Some(id in s.routes)
    case WorkloadRef(id) => if id == 0 then None else Some(id in s.workloads)
    case DomainRef(id) =>
      if id == 0 then None
      else Some(exists d :: d in s.devices && s.devices[d].spec.domain == id && s.devices[d].spec.state != Removed)
    case PolicyRef(id) => if id == 0 then None else Some(id in s.policies)
    case ConfigRef(owner, key) => if owner == 0 || key == 0 then None else Some((owner, key) in s.configs)
  }

  predicate DeviceInService(s: Snapshot, id: Id) { id in s.devices && s.devices[id].spec.state != Removed }

  /** The route's links are all present and join its endpoints, which are in service. */
  predicate Serviceable(s: Snapshot, spec: RouteSpec) {
    && Walkable(s.links, spec)
    && (forall i :: 0 <= i < |spec.path| ==> spec.path[i] in s.links && s.links[spec.path[i]].state == Present)
    && DeviceInService(s, spec.source) && DeviceInService(s, spec.sink)
  }

  /** Whether the first binding of the route is active. */
  predicate ActivelyBinds(bs: seq<Binding>, route: Id) {
    bs != [] && (if bs[0].route == route then bs[0].active else ActivelyBinds(bs[1..], route))
  }

  function Holds(ctx: Context, s: Snapshot, c: Condition): Option<bool> {
    match c
    case EntityPresent(r) => Exists(s, r)
    case EntityAbsent(r) => (match Exists(s, r) case None => None case Some(b) => Some(!b))
    case StateIs(DeviceRef(id), state) =>
      if id == 0 then None else Some(id in s.devices && s.devices[id].spec.state == state)
    case StateIs(LinkRef(id), state) =>
      if id == 0 then None else Some(id in s.links && s.links[id].state == state)
    case StateIs(_, _) => None
    case RouteWalkable(id) =>
      if id == 0 then None else Some(id in s.routes && Serviceable(s, s.routes[id].spec))
    case RouteStateIs(id, state) =>
      if id == 0 then None else Some(id in s.routes && s.routes[id].state == state)
    case ConfigEquals(device, key, value) =>
      if device == 0 || key == 0 then None
      else Some((device, key) in s.configs && s.configs[(device, key)].value == value)
    case PolicyBound(id) => if id == 0 then None else Some(id in s.policies)
    case BindingActive(w, route) =>
      if w == 0 then None else Some(w in s.workloads && ActivelyBinds(s.workloads[w].bindings, route))
    case CapacityAtLeast(DeviceRef(id), q) =>
      if id == 0 then None else Some(id in s.devices && s.devices[id].spec.capacity >= q)
    case CapacityAtLeast(LinkRef(id), q) =>
      if id == 0 then None else Some(id in s.links && s.links[id].spec.capacity >= q)
    case CapacityAtLeast(_, _) => None
    case WindowOpen(id) =>
      if id == 0 then None else Some(id in s.devices && MaintenancePermitted(s.devices[id], ctx.instant))
    case ExclusionInactive(id) =>
      if id == 0 then None else Some(id in s.devices && ChangePermitted(s.devices[id], ctx.instant))
    case DeviceDrained(id) =>
      if id == 0 then None else Some(id in s.devices && s.devices[id].spec.state in {Draining, InMaintenance})
  }

  // ----- derivation -----

  function LinksPresent(path: seq<Id>): seq<Condition> {
    seq(|path|, i requires 0 <= i < |path| => EntityPresent(LinkRef(path[i])))
  }

  function RoutesPresent(bs: seq<Binding>): seq<Condition> {
    seq(|bs|, i requires 0 <= i < |bs| => EntityPresent(RouteRef(bs[i].route)))
  }

  function Preconditions(s: Snapshot, op: Operation): seq<Condition> {
    match op.kind
    case DeviceAdd => [EntityAbsent(DeviceRef(op.device))]
    case DeviceRemove | DeviceSetCapacity | DeviceSetState | DeviceSetWindows
      | DrainResource | EnterMaintenance | ExitMaintenance =>
      [EntityPresent(DeviceRef(op.device))]
      + (if op.device in s.devices then [StateIs(DeviceRef(op.device), s.devices[op.device].spec.state)] else [])
      + [ExclusionInactive(op.device)]
      + (if RequiresWindow(op.kind) then [WindowOpen(op.device)] else [])
      + (if op.kind.EnterMaintenance? || op.kind.DeviceRemove? then [DeviceDrained(op.device)] else [])
    case LinkAdd =>
      [EntityAbsent(LinkRef(op.link)), EntityPresent(DeviceRef(op.linkSpec.endpointA)),
       EntityPresent(DeviceRef(op.linkSpec.endpointB))]
    case LinkRemove | LinkSetCapacity =>
      var spec := if op.link in s.links then s.links[op.link].spec else op.linkSpec;
      [EntityPresent(LinkRef(op.link)), EntityPresent(DeviceRef(spec.endpointA)),
       EntityPresent(DeviceRef(spec.endpointB)),
       ExclusionInactive(spec.endpointA), ExclusionInactive(spec.endpointB)]
    case RouteAdd =>
      [EntityAbsent(RouteRef(op.route)), EntityPresent(DeviceRef(op.routeSpec.source)),
       EntityPresent(DeviceRef(op.routeSpec.sink))]
      + LinksPresent(op.routeSpec.path) + [RouteWalkable(op.route)]
    case RouteRemove | RouteSetState | RouteSetPath =>
      [EntityPresent(RouteRef(op.route))]
      + (if op.route in s.routes then
           [EntityPresent(DeviceRef(s.routes[op.route].spec.source)),
            EntityPresent(DeviceRef(s.routes[op.route].spec.sink))]
         else [])
      + (if op.kind.RouteSetPath? then LinksPresent(op.routeSpec.path) + [RouteWalkable(op.route)] else [])
    case WorkloadAdd => [EntityAbsent(WorkloadRef(op.workload))] + RoutesPresent(op.bindings)
    case WorkloadRemove => [EntityPresent(WorkloadRef(op.workload))]
    case WorkloadSetBindings => [EntityPresent(WorkloadRef(op.workload))] + RoutesPresent(op.bindings)
    case WorkloadSetRequirements =>
      [EntityPresent(WorkloadRef(op.workload))]
      + RoutesPresent(if op.workload in s.workloads then s.workloads[op.workload].bindings else op.bindings)
    case PolicyBind =>
      (if op.policy in s.policies then [PolicyBound(op.policy)] else [EntityAbsent(PolicyRef(op.policy))])
      + (if op.policyTarget.scope != GlobalScope then [EntityPresent(ScopeRef(op.policyTarget))] else [])
    case PolicyUnbind => [PolicyBound(op.policy)]
    case ConfigSet | ConfigClear => [EntityPresent(DeviceRef(op.device)), ExclusionInactive(op.device)]
  }

  function ActiveBindings(workload: Id, bs: seq<Binding>): seq<Condition> {
    if bs == [] then []
    else (if bs[0].active then [BindingActive(workload, bs[0].route)] else []) + ActiveBindings(workload, bs[1..])
  }

  function Postconditions(op: Operation): seq<Condition> {
    match op.kind
    case DeviceAdd =>
      [EntityPresent(DeviceRef(op.device)), CapacityAtLeast(DeviceRef(op.device), op.deviceSpec.capacity)]
    case DeviceRemove => [EntityAbsent(DeviceRef(op.device))]
    case DeviceSetCapacity => [CapacityAtLeast(DeviceRef(op.device), op.capacity)]
    case DeviceSetState => [StateIs(DeviceRef(op.device), op.entityState)]
    case DrainResource => [StateIs(DeviceRef(op.device), Draining)]
    case EnterMaintenance => [StateIs(DeviceRef(op.device), InMaintenance)]
    case ExitMaintenance => [StateIs(DeviceRef(op.device), Present)]
    case DeviceSetWindows => [EntityPresent(DeviceRef(op.device))]
    case LinkAdd => [EntityPresent(LinkRef(op.link))]
    case LinkRemove => [EntityAbsent(LinkRef(op.link))]
    case LinkSetCapacity => [CapacityAtLeast(LinkRef(op.link), op.capacity)]
    case RouteAdd => [EntityPresent(RouteRef(op.route)), RouteStateIs(op.route, op.routeState), RouteWalkable(op.route)]
    case RouteRemove => [EntityAbsent(RouteRef(op.route))]
    case RouteSetPath => [RouteWalkable(op.route)]
    case RouteSetState => [RouteStateIs(op.route, op.routeState)]
    case WorkloadAdd | WorkloadSetBindings | WorkloadSetRequirements =>
      [EntityPresent(WorkloadRef(op.workload))] + ActiveBindings(op.workload, op.bindings)
    case WorkloadRemove => [EntityAbsent(WorkloadRef(op.workload))]
    case PolicyBind => [PolicyBound(op.policy)]
    case PolicyUnbind => [EntityAbsent(PolicyRef(op.policy))]
    case ConfigSet => [ConfigEquals(op.device, op.configKey, op.value)]
    case ConfigClear => [EntityAbsent(ConfigRef(op.device, op.configKey))]
  }

  predicate AllTrue(ctx: Context, s: Snapshot, cs: seq<Condition>) {
    forall i :: 0 <= i < |cs| ==> Holds(ctx, s, cs[i]) == Some(true)
  }

  // ----- what the derived preconditions rule out -----

  /** The conditions derived for adding a route ask for the route to be absent and, at the same
      moment, for that same route to be walkable.  No snapshot satisfies both, so a step that adds
      a route is never ready, whatever the target asks for. */
  lemma RouteAddIsNeverReady(ctx: Context, derivedAt: Snapshot, s: Snapshot, op: Operation)
    requires op.kind.RouteAdd?
    ensures !AllTrue(ctx, s, Preconditions(derivedAt, op))
  {
    var cs := Preconditions(derivedAt, op);
    assert cs[0] == EntityAbsent(RouteRef(op.route));
    assert cs[|cs| - 1] == RouteWalkable(op.route);
    if op.route != 0 && op.route !in s.routes { assert Holds(ctx, s, cs[|cs| - 1]) == Some(false); }
  }

  /** Removing a device is ready only once the device is out of service, whether or not draining
      first is the policy. */
  lemma RemovalNeedsDrain(ctx: Context, derivedAt: Snapshot, s: Snapshot, op: Operation)
    requires op.kind.DeviceRemove? && AllTrue(ctx, s, Preconditions(derivedAt, op))
    ensures op.device in s.devices && s.devices[op.device].spec.state in {Draining, InMaintenance}
  {
    var cs := Preconditions(derivedAt, op);
    assert cs[|cs| - 1] == DeviceDrained(op.device);
  }

  // ----- what the derived postconditions add -----

  /** Every active binding of `bs` is active in `has`. */
  predicate AllActive(has: seq<Binding>, bs: seq<Binding>) {
    forall i :: 0 <= i < |bs| && bs[i].active ==> ActivelyBinds(has, bs[i].route)
  }

  lemma AllActiveStep(has: seq<Binding>, bs: seq<Binding>)
    requires bs != []
    ensures AllActive(has, bs) <==> (bs[0].active ==> ActivelyBinds(has, bs[0].route)) && AllActive(has, bs[1..])
  {
    hide ActivelyBinds;
    if (bs[0].active ==> ActivelyBinds(has, bs[0].route)) && AllActive(has, bs[1..]) {
      forall i | 0 <= i < |bs| && bs[i].active ensures ActivelyBinds(has, bs[i].route) {
        if i > 0 { assert bs[i] == bs[1..][i - 1]; }
      }
    }
    if AllActive(has, bs) {
      forall i | 0 <= i < |bs[1..]| && bs[1..][i].active ensures ActivelyBinds(has, bs[1..][i].route) {
        assert bs[1..][i] == bs[i + 1];
      }
    }
  }

  /** What an accepted, ready operation does not by itself guarantee about its postconditions. */
  predicate Residue(t: Snapshot, op: Operation) {
    match op.kind
    case RouteSetPath => Serviceable(t, op.routeSpec)
    case WorkloadSetRequirements =>
      op.workload in t.workloads && AllActive(t.workloads[op.workload].bindings, op.bindings)
    case ConfigSet | ConfigClear => op.configKey != 0
    case _ => true
  }

  lemma {:induction false} ActiveBindingsTrue(ctx: Context, t: Snapshot, workload: Id, bs: seq<Binding>)
    requires workload != 0 && workload in t.workloads
    ensures AllTrue(ctx, t, ActiveBindings(workload, bs)) <==> AllActive(t.workloads[workload].bindings, bs)
  {
    hide AllTrue, AllActive, ActivelyBinds;
    if bs == [] {
      NothingToShow(ctx, t, t.workloads[workload].bindings);
    } else {
      var rest := ActiveBindings(workload, bs[1..]);
      ActiveBindingsTrue(ctx, t, workload, bs[1..]);
      AllActiveStep(t.workloads[workload].bindings, bs);
      if bs[0].active {
        BothTrue(ctx, t, [BindingActive(workload, bs[0].route)], rest);
        OneTrue(ctx, t, BindingActive(workload, bs[0].route));
      } else {
        assert [] + rest == rest;
      }
    }
  }

  lemma NothingToShow(ctx: Context, t: Snapshot, has: seq<Binding>)
    ensures AllTrue(ctx, t, []) && AllActive(has, [])
  {
  }

  lemma BothTrue(ctx: Context, s: Snapshot, a: seq<Condition>, b: seq<Condition>)
    ensures AllTrue(ctx, s, a + b) <==> AllTrue(ctx, s, a) && AllTrue(ctx, s, b)
  {
    hide Holds;
    if AllTrue(ctx, s, a + b) {
      forall i | 0 <= i < |a| ensures Holds(ctx, s, a[i]) == Some(true) { assert (a + b)[i] == a[i]; }
      forall i | 0 <= i < |b| ensures Holds(ctx, s, b[i]) == Some(true) { assert (a + b)[|a| + i] == b[i]; }
    }
  }

  lemma OneTrue(ctx: Context, s: Snapshot, c: Condition)
    ensures AllTrue(ctx, s, [c]) <==> Holds(ctx, s, c) == Some(true)
  {
    hide Holds;
    assert [c][0] == c;
  }

  /** Among bindings of different routes, an active one is found active. */
  lemma {:induction false} FindsActive(bs: seq<Binding>, b: Binding)
    requires b in bs && b.active
    requires forall i, j :: 0 <= i < j < |bs| ==> bs[i].route != bs[j].route
    ensures ActivelyBinds(bs, b.route)
  {
    if bs[0] != b {
      assert bs == [bs[0]] + bs[1..];
      var j :| 0 <= j < |bs| && bs[j] == b;
      assert bs[0].route != bs[j].route;
      FindsActive(bs[1..], b);
    }
  }

  lemma BoundBindingsActive(ctx: Context, t: Snapshot, workload: Id, bs: seq<Binding>)
    requires Valid(t) && workload != 0 && workload in t.workloads && t.workloads[workload].bindings == SortBindings(bs)
    ensures AllTrue(ctx, t, ActiveBindings(workload, bs))
  {
    hide Valid;
    ActiveBindingsTrue(ctx, t, workload, bs);
    WorkloadIsOk(t, workload);
    hide ActivelyBinds;
    forall i | 0 <= i < |bs| && bs[i].active ensures ActivelyBinds(SortBindings(bs), bs[i].route) {
      SortMembers(bs, ByKey(BindingRoute), bs[i]);
      FindsActive(SortBindings(bs), bs[i]);
    }
  }

  lemma WorkloadIsOk(t: Snapshot, workload: Id)
    requires Valid(t) && workload in t.workloads
    ensures WorkloadOk(t.routes, t.workloads[workload])
  {
  }

  /** The operation was ready and accepted in `s` and led to `t`. */
  ghost predicate Stepped(ctx: Context, s: Snapshot, op: Operation, t: Snapshot) {
    AllTrue(ctx, s, Preconditions(s, op)) && Apply(ctx, s, op) == Ok(t)
  }

  lemma FirstHolds(ctx: Context, s: Snapshot, cs: seq<Condition>)
    requires cs != [] && AllTrue(ctx, s, cs)
    ensures Holds(ctx, s, cs[0]) == Some(true)
  {
  }

  lemma DevicePosts(ctx: Context, s: Snapshot, op: Operation, t: Snapshot)
    requires Stepped(ctx, s, op, t) && AreaOf(op.kind) == Devices
    ensures AllTrue(ctx, t, Postconditions(op))
  {
    hide Valid, SortWindows, ExclusionGate, WindowGate;
    FirstHolds(ctx, s, Preconditions(s, op));
    assert t.devices == CanonicalDevices(StepDevices(s.devices, op));
    assert op.device != 0 && op.device in t.devices;
  }

  lemma LinkPosts(ctx: Context, s: Snapshot, op: Operation, t: Snapshot)
    requires Stepped(ctx, s, op, t) && AreaOf(op.kind) == Links
    ensures AllTrue(ctx, t, Postconditions(op))
  {
    hide Valid, SortUnique, ExclusionGate, WindowGate;
    FirstHolds(ctx, s, Preconditions(s, op));
    assert t.links == CanonicalLinks(StepLinks(s.links, op));
    assert op.link != 0 && op.link in t.links;
  }

  lemma RoutePosts(ctx: Context, s: Snapshot, op: Operation, t: Snapshot)
    requires Stepped(ctx, s, op, t) && AreaOf(op.kind) == Routes
    ensures AllTrue(ctx, t, Postconditions(op)) <==> Residue(t, op)
  {
    hide Valid, ExclusionGate, WindowGate, Serviceable;
    if op.kind.RouteAdd? { RouteAddIsNeverReady(ctx, s, s, op); }
    FirstHolds(ctx, s, Preconditions(s, op));
    assert t.routes == StepRoutes(s.routes, op);
    if op.kind.RouteSetPath? { OneTrue(ctx, t, RouteWalkable(op.route)); }
  }

  lemma WorkloadPosts(ctx: Context, s: Snapshot, op: Operation, t: Snapshot)
    requires Stepped(ctx, s, op, t) && AreaOf(op.kind) == Workloads
    ensures AllTrue(ctx, t, Postconditions(op)) <==> Residue(t, op)
  {
    hide Valid, ExclusionGate, WindowGate, SortBindings, SortUnique, AllTrue, AllActive;
    FirstHolds(ctx, s, Preconditions(s, op));
    var w := op.workload;
    assert t.workloads == CanonicalWorkloads(StepWorkloads(s.workloads, op));
    if op.kind.WorkloadRemove? {
      OneTrue(ctx, t, EntityAbsent(WorkloadRef(w)));
    } else {
      assert w != 0 && w in t.workloads;
      BothTrue(ctx, t, [EntityPresent(WorkloadRef(w))], ActiveBindings(w, op.bindings));
      OneTrue(ctx, t, EntityPresent(WorkloadRef(w)));
      ActiveBindingsTrue(ctx, t, w, op.bindings);
      if !op.kind.WorkloadSetRequirements? { BoundBindingsActive(ctx, t, w, op.bindings); }
    }
  }

  lemma PolicyPosts(ctx: Context, s: Snapshot, op: Operation, t: Snapshot)
    requires Stepped(ctx, s, op, t) && AreaOf(op.kind) == Policies
    ensures AllTrue(ctx, t, Postconditions(op))
  {
    hide Valid, ExclusionGate, WindowGate;
    FirstHolds(ctx, s, Preconditions(s, op));
    assert t.policies == StepPolicies(s.policies, op);
  }

  lemma ConfigPosts(ctx: Context, s: Snapshot, op: Operation, t: Snapshot)
    requires Stepped(ctx, s, op, t) && AreaOf(op.kind) == Configs
    ensures AllTrue(ctx, t, Postconditions(op)) <==> Residue(t, op)
  {
    hide Valid, ExclusionGate, WindowGate;
    FirstHolds(ctx, s, Preconditions(s, op));
    assert t.configs == StepConfigs(s.configs, op);
    assert AllTrue(ctx, t, Postconditions(op)) <==> Holds(ctx, t, Postconditions(op)[0]) == Some(true);
  }

  /** Once a ready operation has been accepted, its postconditions hold, with three exceptions
      that are exactly these: a changed path must be in service, requirements must not come with
      bindings the workload does not have, and a configuration key must not be empty. */
  lemma PostconditionsFollow(ctx: Context, s: Snapshot, op: Operation, t: Snapshot)
    requires Stepped(ctx, s, op, t)
    ensures AllTrue(ctx, t, Postconditions(op)) <==> Residue(t, op)
  {
    hide Stepped, AllTrue, Postconditions;
    match AreaOf(op.kind) {
      case Devices => DevicePosts(ctx, s, op, t);
      case Links => LinkPosts(ctx, s, op, t);
      case Routes => RoutePosts(ctx, s, op, t);
      case Workloads => WorkloadPosts(ctx, s, op, t);
      case Policies => PolicyPosts(ctx, s, op, t);
      case Configs => ConfigPosts(ctx, s, op, t);
    }
  }
}
