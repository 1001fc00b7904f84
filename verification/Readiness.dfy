/** What it takes for an operation to be ready, and what counts as its having been carried out, field by
    field and without the conditions that record it. */
module Readiness {
  import opened Wrappers
  import opened Snapshots
  import opened Operations
  import opened Evaluate
  import opened Conditions
  import opened Gates

  // ----- what is there -----

  predicate Stands(s: Snapshot, id: Id) { id in s.devices && !s.devices[id].spec.state.Removed? }

  predicate DeviceUp(s: Snapshot, id: Id) { id != 0 && Stands(s, id) }

  predicate LinkUp(s: Snapshot, id: Id) { id != 0 && id in s.links && !s.links[id].state.Removed? }

  /** Either end is in service and, where `still` asks for it, outside its exclusions. */
  ghost predicate EndsUp(s: Snapshot, instant: int, spec: LinkSpec, still: bool) {
    && DeviceUp(s, spec.endpointA) && DeviceUp(s, spec.endpointB)
    && (still ==> !Excluded(s, instant, spec.endpointA) && !Excluded(s, instant, spec.endpointB))
  }

  /** The route is known, and in service from end to end: its path is walkable, over links that are all
      present. */
  ghost predicate InUse(s: Snapshot, route: Id) {
    route != 0 && route in s.routes &&
      var spec := s.routes[route].spec;
      && Walkable(s.links, spec) && Stands(s, spec.source) && Stands(s, spec.sink)
      && (forall link :: link in spec.path ==> link in s.links && s.links[link].state.Present?)
  }

  ghost predicate AllKnown(s: Snapshot, bs: seq<Binding>) {
    forall b :: b in bs ==> b.route != 0 && b.route in s.routes
  }

  /** The binding a workload has of the route, its first one, is active. */
  ghost predicate Carries(bs: seq<Binding>, route: Id) {
    exists i :: 0 <= i < |bs| && bs[i].route == route && bs[i].active && forall j :: 0 <= j < i ==> bs[j].route != route
  }

  ghost predicate TargetUp(s: Snapshot, t: PolicyTarget) {
    match t.scope
    case GlobalScope => true
    case DeviceScope => DeviceUp(s, t.identity)
    case LinkScope => LinkUp(s, t.identity)
    case RouteScope => t.identity != 0 && t.identity in s.routes
    case WorkloadScope => t.identity != 0 && t.identity in s.workloads
  }

  // ----- ready, and done -----

  /** The device is in service, has not changed state since the plan was made, and is outside its
      exclusions; maintenance takes a maintenance window besides, and leaving service a device already
      draining or in maintenance. */
  ghost predicate DeviceReady(at: Snapshot, s: Snapshot, instant: int, op: Operation) {
    && DeviceUp(s, op.device) && !Excluded(s, instant, op.device)
    && (op.device in at.devices ==> s.devices[op.device].spec.state == at.devices[op.device].spec.state)
    && (op.kind in {DrainResource, EnterMaintenance, ExitMaintenance, DeviceRemove} ==> !Closed(s, instant, op.device))
    && (op.kind in {EnterMaintenance, DeviceRemove} ==> s.devices[op.device].spec.state in {Draining, InMaintenance})
  }

  /** Conditions derived where the snapshot is `at` ask for exactly this where it is `s`. */
  ghost predicate Ready(at: Snapshot, s: Snapshot, instant: int, op: Operation) {
    match op.kind
    case DeviceAdd => op.device != 0 && !DeviceUp(s, op.device)
    case DeviceRemove | DeviceSetCapacity | DeviceSetState | DeviceSetWindows => DeviceReady(at, s, instant, op)
    case DrainResource | EnterMaintenance | ExitMaintenance => DeviceReady(at, s, instant, op)
    case LinkAdd => op.link != 0 && !LinkUp(s, op.link) && EndsUp(s, instant, op.linkSpec, false)
    case LinkRemove | LinkSetCapacity =>
      && LinkUp(s, op.link)
      && EndsUp(s, instant, if op.link in at.links then at.links[op.link].spec else op.linkSpec, true)
    case RouteAdd => false
    case RouteRemove | RouteSetState | RouteSetPath =>
      && op.route != 0 && op.route in s.routes
      && (op.route in at.routes ==>
          DeviceUp(s, at.routes[op.route].spec.source) && DeviceUp(s, at.routes[op.route].spec.sink))
      && (op.kind.RouteSetPath? ==> InUse(s, op.route) && forall link :: link in op.routeSpec.path ==> LinkUp(s, link))
    case WorkloadAdd => op.workload != 0 && op.workload !in s.workloads && AllKnown(s, op.bindings)
    case WorkloadRemove => op.workload != 0 && op.workload in s.workloads
    case WorkloadSetBindings => op.workload != 0 && op.workload in s.workloads && AllKnown(s, op.bindings)
    case WorkloadSetRequirements =>
      && op.workload != 0 && op.workload in s.workloads
      && AllKnown(s, if op.workload in at.workloads then at.workloads[op.workload].bindings else op.bindings)
    case PolicyBind =>
      op.policy != 0 && (op.policy in s.policies <==> op.policy in at.policies) && TargetUp(s, op.policyTarget)
    case PolicyUnbind => op.policy != 0 && op.policy in s.policies
    case ConfigSet | ConfigClear => DeviceUp(s, op.device) && !Excluded(s, instant, op.device)
  }

  /** The operation has been carried out as far as its postconditions can tell. */
  ghost predicate Done(t: Snapshot, op: Operation) {
    match op.kind
    case DeviceAdd => DeviceUp(t, op.device) && t.devices[op.device].spec.capacity >= op.deviceSpec.capacity
    case DeviceRemove => op.device != 0 && !DeviceUp(t, op.device)
    case DeviceSetCapacity =>
      op.device != 0 && op.device in t.devices && t.devices[op.device].spec.capacity >= op.capacity
    case DeviceSetState | DrainResource | EnterMaintenance | ExitMaintenance =>
      op.device != 0 && op.device in t.devices &&
        var state := t.devices[op.device].spec.state;
        && (op.kind.DeviceSetState? ==> state == op.entityState) && (op.kind.DrainResource? ==> state == Draining)
        && (op.kind.EnterMaintenance? ==> state == InMaintenance) && (op.kind.ExitMaintenance? ==> state == Present)
    case DeviceSetWindows => DeviceUp(t, op.device)
    case LinkAdd => LinkUp(t, op.link)
    case LinkRemove => op.link != 0 && !LinkUp(t, op.link)
    case LinkSetCapacity => op.link != 0 && op.link in t.links && t.links[op.link].spec.capacity >= op.capacity
    case RouteAdd => InUse(t, op.route) && t.routes[op.route].state == op.routeState
    case RouteRemove => op.route != 0 && op.route !in t.routes
    case RouteSetPath => InUse(t, op.route)
    case RouteSetState => op.route != 0 && op.route in t.routes && t.routes[op.route].state == op.routeState
    case WorkloadAdd | WorkloadSetBindings | WorkloadSetRequirements =>
      && op.workload != 0 && op.workload in t.workloads
      && (forall b :: b in op.bindings && b.active ==> Carries(t.workloads[op.workload].bindings, b.route))
    case WorkloadRemove => op.workload != 0 && op.workload !in t.workloads
    case PolicyBind => op.policy != 0 && op.policy in t.policies
    case PolicyUnbind => op.policy != 0 && op.policy !in t.policies
    case ConfigSet =>
      && op.device != 0 && op.configKey != 0 && (op.device, op.configKey) in t.configs
      && t.configs[(op.device, op.configKey)].value == op.value
    case ConfigClear => op.device != 0 && op.configKey != 0 && (op.device, op.configKey) !in t.configs
  }

  // ----- lists of conditions -----

  lemma LinksUp(ctx: Context, s: Snapshot, path: seq<Id>)
    ensures AllTrue(ctx, s, LinksPresent(path)) <==> forall link :: link in path ==> LinkUp(s, link)
  {
    var cs := LinksPresent(path);
    forall i | 0 <= i < |path| ensures Holds(ctx, s, cs[i]) == Some(true) <==> LinkUp(s, path[i]) {
      assert cs[i] == EntityPresent(LinkRef(path[i]));
    }
    if forall link :: link in path ==> LinkUp(s, link) {
      forall i | 0 <= i < |cs| ensures Holds(ctx, s, cs[i]) == Some(true) { assert path[i] in path; }
    }
    if AllTrue(ctx, s, cs) {
      forall link | link in path ensures LinkUp(s, link) { var i :| 0 <= i < |path| && path[i] == link; }
    }
  }

  lemma RoutesKnown(ctx: Context, s: Snapshot, bs: seq<Binding>)
    ensures AllTrue(ctx, s, RoutesPresent(bs)) <==> AllKnown(s, bs)
  {
    var cs := RoutesPresent(bs);
    forall i | 0 <= i < |bs|
      ensures Holds(ctx, s, cs[i]) == Some(true) <==> bs[i].route != 0 && bs[i].route in s.routes
    {
      assert cs[i] == EntityPresent(RouteRef(bs[i].route));
    }
    if AllKnown(s, bs) {
      forall i | 0 <= i < |cs| ensures Holds(ctx, s, cs[i]) == Some(true) { assert bs[i] in bs; }
    }
    if AllTrue(ctx, s, cs) {
      forall b | b in bs ensures b.route != 0 && b.route in s.routes { var i :| 0 <= i < |bs| && bs[i] == b; }
    }
  }

  lemma {:induction false} CarriesMeans(bs: seq<Binding>, route: Id)
    ensures ActivelyBinds(bs, route) <==> Carries(bs, route)
  {
    if bs != [] {
      var rest := bs[1..];
      CarriesMeans(rest, route);
      if bs[0].route == route {
        if Carries(bs, route) {
          var i :| 0 <= i < |bs| && bs[i].route == route && bs[i].active
            && forall j :: 0 <= j < i ==> bs[j].route != route;
          assert i == 0;
        }
      } else {
        if Carries(rest, route) {
          var i :| 0 <= i < |rest| && rest[i].route == route && rest[i].active
            && forall j :: 0 <= j < i ==> rest[j].route != route;
          forall j | 0 <= j < i + 1 ensures bs[j].route != route { if j > 0 { assert bs[j] == rest[j - 1]; } }
          assert bs[i + 1] == rest[i];
        }
        if Carries(bs, route) {
          var i :| 0 <= i < |bs| && bs[i].route == route && bs[i].active
            && forall j :: 0 <= j < i ==> bs[j].route != route;
          forall j | 0 <= j < i - 1 ensures rest[j].route != route { assert rest[j] == bs[j + 1]; }
          assert rest[i - 1] == bs[i];
        }
      }
    }
  }

  lemma AllCarried(has: seq<Binding>, bs: seq<Binding>)
    ensures AllActive(has, bs) <==> forall b :: b in bs && b.active ==> Carries(has, b.route)
  {
    hide ActivelyBinds, Carries;
    forall route { CarriesMeans(has, route); }
    if AllActive(has, bs) {
      forall b | b in bs && b.active ensures Carries(has, b.route) { var i :| 0 <= i < |bs| && bs[i] == b; }
    }
  }

  // ----- single conditions -----

  /** What a condition on windows asks for. */
  lemma WindowConditions(ctx: Context, s: Snapshot, id: Id)
    requires DeviceUp(s, id)
    ensures Holds(ctx, s, ExclusionInactive(id)) == Some(true) <==> !Excluded(s, ctx.instant, id)
    ensures Holds(ctx, s, WindowOpen(id)) == Some(true) <==> !Closed(s, ctx.instant, id)
  {
    OpenWindow(s.devices[id].exclusions, ctx.instant);
    OpenWindow(s.devices[id].maintenance, ctx.instant);
  }

  lemma InUseMeans(ctx: Context, s: Snapshot, route: Id)
    ensures Holds(ctx, s, RouteWalkable(route)) == Some(true) <==> InUse(s, route)
  {
    hide Walkable;
    if route != 0 && route in s.routes {
      var path := s.routes[route].spec.path;
      if forall link :: link in path ==> link in s.links && s.links[link].state.Present? {
        forall i | 0 <= i < |path| ensures path[i] in s.links && s.links[path[i]].state == Present {
          assert path[i] in path;
        }
      }
      if forall i :: 0 <= i < |path| ==> path[i] in s.links && s.links[path[i]].state == Present {
        forall link | link in path ensures link in s.links && s.links[link].state.Present? {
          var i :| 0 <= i < |path| && path[i] == link;
        }
      }
    }
  }

  lemma ScopeUp(ctx: Context, s: Snapshot, t: PolicyTarget)
    requires t.scope != GlobalScope
    ensures Holds(ctx, s, EntityPresent(ScopeRef(t))) == Some(true) <==> TargetUp(s, t)
  {
  }

  // ----- kind by kind -----

  lemma DeviceReadyMeans(ctx: Context, at: Snapshot, s: Snapshot, op: Operation)
    requires AreaOf(op.kind) == Devices
    ensures AllTrue(ctx, s, Preconditions(at, op)) <==> Ready(at, s, ctx.instant, op)
  {
    hide Excluded, Closed, MaintenancePermitted, ChangePermitted;
    if op.kind.DeviceAdd? {
      OneTrue(ctx, s, EntityAbsent(DeviceRef(op.device)));
    } else {
      var up := EntityPresent(DeviceRef(op.device));
      if !DeviceUp(s, op.device) {
        assert Preconditions(at, op)[0] == up && Holds(ctx, s, up) != Some(true);
      } else {
        WindowConditions(ctx, s, op.device);
        DeviceConditions(ctx, at, s, op);
      }
    }
  }

  /** The conditions of a change to a device, one after the other. */
  lemma DeviceConditions(ctx: Context, at: Snapshot, s: Snapshot, op: Operation)
    requires AreaOf(op.kind) == Devices && !op.kind.DeviceAdd?
    ensures AllTrue(ctx, s, Preconditions(at, op)) <==>
      && Holds(ctx, s, EntityPresent(DeviceRef(op.device))) == Some(true)
      && (op.device in at.devices ==>
          Holds(ctx, s, StateIs(DeviceRef(op.device), at.devices[op.device].spec.state)) == Some(true))
      && Holds(ctx, s, ExclusionInactive(op.device)) == Some(true)
      && (RequiresWindow(op.kind) ==> Holds(ctx, s, WindowOpen(op.device)) == Some(true))
      && (op.kind.EnterMaintenance? || op.kind.DeviceRemove? ==> Holds(ctx, s, DeviceDrained(op.device)) == Some(true))
  {
    hide Holds, AllTrue;
    var d := op.device;
    var c0 := [EntityPresent(DeviceRef(d))];
    var c1 := if d in at.devices then [StateIs(DeviceRef(d), at.devices[d].spec.state)] else [];
    var c2 := [ExclusionInactive(d)];
    var c3 := if RequiresWindow(op.kind) then [WindowOpen(d)] else [];
    var c4 := if op.kind.EnterMaintenance? || op.kind.DeviceRemove? then [DeviceDrained(d)] else [];
    assert Preconditions(at, op) == c0 + c1 + c2 + c3 + c4;
    BothTrue(ctx, s, c0 + c1 + c2 + c3, c4);
    BothTrue(ctx, s, c0 + c1 + c2, c3);
    BothTrue(ctx, s, c0 + c1, c2);
    BothTrue(ctx, s, c0, c1);
    NothingToShow(ctx, s, []);
    OneTrue(ctx, s, c0[0]);
    OneTrue(ctx, s, c2[0]);
    if d in at.devices { OneTrue(ctx, s, c1[0]); }
    OneTrue(ctx, s, WindowOpen(d));
    OneTrue(ctx, s, DeviceDrained(d));
  }

  lemma LinkReadyMeans(ctx: Context, at: Snapshot, s: Snapshot, op: Operation)
    requires AreaOf(op.kind) == Links
    ensures AllTrue(ctx, s, Preconditions(at, op)) <==> Ready(at, s, ctx.instant, op)
  {
    hide Excluded, MaintenancePermitted, ChangePermitted;
    var cs := Preconditions(at, op);
    var spec := if op.kind.LinkAdd? || op.link !in at.links then op.linkSpec else at.links[op.link].spec;
    var a, b := EntityPresent(DeviceRef(spec.endpointA)), EntityPresent(DeviceRef(spec.endpointB));
    assert cs[1] == a && cs[2] == b;
    assert Holds(ctx, s, a) == Some(true) <==> DeviceUp(s, spec.endpointA);
    assert Holds(ctx, s, b) == Some(true) <==> DeviceUp(s, spec.endpointB);
    if DeviceUp(s, spec.endpointA) && DeviceUp(s, spec.endpointB) {
      WindowConditions(ctx, s, spec.endpointA);
      WindowConditions(ctx, s, spec.endpointB);
    }
    assert AllTrue(ctx, s, cs) <==>
      && Holds(ctx, s, cs[0]) == Some(true) && Holds(ctx, s, cs[1]) == Some(true) && Holds(ctx, s, cs[2]) == Some(true)
      && (|cs| > 3 ==> Holds(ctx, s, cs[3]) == Some(true) && Holds(ctx, s, cs[4]) == Some(true));
  }

  lemma RouteReadyMeans(ctx: Context, at: Snapshot, s: Snapshot, op: Operation)
    requires AreaOf(op.kind) == Routes
    ensures AllTrue(ctx, s, Preconditions(at, op)) <==> Ready(at, s, ctx.instant, op)
  {
    hide AllTrue, InUse, LinksPresent, Serviceable;
    if op.kind.RouteAdd? {
      RouteAddIsNeverReady(ctx, at, s, op);
    } else {
      var here := [EntityPresent(RouteRef(op.route))];
      OneTrue(ctx, s, here[0]);
      NothingToShow(ctx, s, []);
      var ends := [];
      if op.route in at.routes {
        var spec := at.routes[op.route].spec;
        var a, b := EntityPresent(DeviceRef(spec.source)), EntityPresent(DeviceRef(spec.sink));
        ends := [a, b];
        assert ends == [a] + [b];
        BothTrue(ctx, s, [a], [b]);
        OneTrue(ctx, s, a);
        OneTrue(ctx, s, b);
      }
      BothTrue(ctx, s, here, ends);
      if op.kind.RouteSetPath? {
        var links, walk := LinksPresent(op.routeSpec.path), [RouteWalkable(op.route)];
        LinksUp(ctx, s, op.routeSpec.path);
        OneTrue(ctx, s, walk[0]);
        InUseMeans(ctx, s, op.route);
        BothTrue(ctx, s, links, walk);
        BothTrue(ctx, s, here + ends, links + walk);
        assert Preconditions(at, op) == (here + ends) + (links + walk);
      } else {
        assert Preconditions(at, op) == here + ends;
      }
    }
  }

  lemma WorkloadReadyMeans(ctx: Context, at: Snapshot, s: Snapshot, op: Operation)
    requires AreaOf(op.kind) == Workloads
    ensures AllTrue(ctx, s, Preconditions(at, op)) <==> Ready(at, s, ctx.instant, op)
  {
    hide AllTrue, AllKnown, RoutesPresent;
    var here, gone := EntityPresent(WorkloadRef(op.workload)), EntityAbsent(WorkloadRef(op.workload));
    OneTrue(ctx, s, here);
    OneTrue(ctx, s, gone);
    var stored := if op.workload in at.workloads then at.workloads[op.workload].bindings else op.bindings;
    RoutesKnown(ctx, s, op.bindings);
    RoutesKnown(ctx, s, stored);
    BothTrue(ctx, s, [gone], RoutesPresent(op.bindings));
    BothTrue(ctx, s, [here], RoutesPresent(op.bindings));
    BothTrue(ctx, s, [here], RoutesPresent(stored));
  }

  lemma OtherReadyMeans(ctx: Context, at: Snapshot, s: Snapshot, op: Operation)
    requires AreaOf(op.kind) in {Policies, Configs}
    ensures AllTrue(ctx, s, Preconditions(at, op)) <==> Ready(at, s, ctx.instant, op)
  {
    hide AllTrue, Excluded, ChangePermitted;
    if op.kind in {ConfigSet, ConfigClear} {
      var up, still := EntityPresent(DeviceRef(op.device)), ExclusionInactive(op.device);
      assert Preconditions(at, op) == [up] + [still];
      BothTrue(ctx, s, [up], [still]);
      OneTrue(ctx, s, up);
      OneTrue(ctx, s, still);
      if DeviceUp(s, op.device) { WindowConditions(ctx, s, op.device); }
    } else {
      var bound, free := PolicyBound(op.policy), EntityAbsent(PolicyRef(op.policy));
      var there := EntityPresent(ScopeRef(op.policyTarget));
      OneTrue(ctx, s, bound);
      OneTrue(ctx, s, free);
      OneTrue(ctx, s, there);
      NothingToShow(ctx, s, []);
      BothTrue(ctx, s, [bound], [there]);
      BothTrue(ctx, s, [free], [there]);
      BothTrue(ctx, s, [bound], []);
      BothTrue(ctx, s, [free], []);
      if op.policyTarget.scope != GlobalScope { ScopeUp(ctx, s, op.policyTarget); }
    }
  }

  /** The conditions derived for an operation hold exactly where it is ready: the entity is there, or not
      there yet, everything it names is in service, no device it has to do with is excluded, and a device
      on its way out has been drained inside a maintenance window. */
  lemma ReadyExactly(ctx: Context, at: Snapshot, s: Snapshot, op: Operation)
    ensures AllTrue(ctx, s, Preconditions(at, op)) <==> Ready(at, s, ctx.instant, op)
  {
    hide AllTrue, Preconditions, Ready;
    match AreaOf(op.kind) {
      case Devices => DeviceReadyMeans(ctx, at, s, op);
      case Links => LinkReadyMeans(ctx, at, s, op);
      case Routes => RouteReadyMeans(ctx, at, s, op);
      case Workloads => WorkloadReadyMeans(ctx, at, s, op);
      case Policies | Configs => OtherReadyMeans(ctx, at, s, op);
    }
  }

  // ----- done -----

  lemma InUseIsKnown(s: Snapshot, route: Id)
    ensures InUse(s, route) ==> route != 0 && route in s.routes
  {
  }

  lemma RouteDoneMeans(ctx: Context, t: Snapshot, op: Operation)
    requires AreaOf(op.kind) == Routes
    ensures AllTrue(ctx, t, Postconditions(op)) <==> Done(t, op)
  {
    hide InUse, Serviceable;
    InUseMeans(ctx, t, op.route);
    var cs := Postconditions(op);
    assert AllTrue(ctx, t, cs) <==>
      && Holds(ctx, t, cs[0]) == Some(true)
      && (|cs| > 1 ==> Holds(ctx, t, cs[1]) == Some(true) && Holds(ctx, t, cs[2]) == Some(true));
    InUseIsKnown(t, op.route);
  }

  lemma WorkloadDoneMeans(ctx: Context, t: Snapshot, op: Operation)
    requires AreaOf(op.kind) == Workloads
    ensures AllTrue(ctx, t, Postconditions(op)) <==> Done(t, op)
  {
    hide AllTrue, AllActive, Carries;
    var w := op.workload;
    var here, gone := EntityPresent(WorkloadRef(w)), EntityAbsent(WorkloadRef(w));
    OneTrue(ctx, t, here);
    OneTrue(ctx, t, gone);
    BothTrue(ctx, t, [here], ActiveBindings(w, op.bindings));
    if w != 0 && w in t.workloads {
      ActiveBindingsTrue(ctx, t, w, op.bindings);
      AllCarried(t.workloads[w].bindings, op.bindings);
    }
  }

  lemma DeviceDoneMeans(ctx: Context, t: Snapshot, op: Operation)
    requires AreaOf(op.kind) == Devices
    ensures AllTrue(ctx, t, Postconditions(op)) <==> Done(t, op)
  {
    hide AllTrue, Holds;
    var cs := Postconditions(op);
    OneTrue(ctx, t, cs[0]);
    if op.kind.DeviceAdd? {
      assert cs == [cs[0]] + [cs[1]];
      BothTrue(ctx, t, [cs[0]], [cs[1]]);
      OneTrue(ctx, t, cs[1]);
    }
    DeviceConditionsMean(ctx, t, op);
  }

  lemma DeviceConditionsMean(ctx: Context, t: Snapshot, op: Operation)
    ensures var id := op.device;
      && (Holds(ctx, t, EntityPresent(DeviceRef(id))) == Some(true) <==> DeviceUp(t, id))
      && (Holds(ctx, t, EntityAbsent(DeviceRef(id))) == Some(true) <==> id != 0 && !DeviceUp(t, id))
      && (forall q :: Holds(ctx, t, CapacityAtLeast(DeviceRef(id), q)) == Some(true) <==>
            id != 0 && id in t.devices && t.devices[id].spec.capacity >= q)
      && (forall state :: Holds(ctx, t, StateIs(DeviceRef(id), state)) == Some(true) <==>
            id != 0 && id in t.devices && t.devices[id].spec.state == state)
  {
  }

  lemma OtherDoneMeans(ctx: Context, t: Snapshot, op: Operation)
    requires AreaOf(op.kind) in {Links, Policies, Configs}
    ensures AllTrue(ctx, t, Postconditions(op)) <==> Done(t, op)
  {
    hide AllTrue;
    OneTrue(ctx, t, Postconditions(op)[0]);
  }

  /** The postconditions of an operation hold exactly where it has been carried out: what is new is there
      with at least the capacity asked for, what is gone is gone, and states, values, paths and active
      bindings are the ones asked for. */
  lemma DoneExactly(ctx: Context, t: Snapshot, op: Operation)
    ensures AllTrue(ctx, t, Postconditions(op)) <==> Done(t, op)
  {
    hide AllTrue, Postconditions, Done;
    match AreaOf(op.kind) {
      case Devices => DeviceDoneMeans(ctx, t, op);
      case Routes => RouteDoneMeans(ctx, t, op);
      case Workloads => WorkloadDoneMeans(ctx, t, op);
      case Links | Policies | Configs => OtherDoneMeans(ctx, t, op);
    }
  }
}
