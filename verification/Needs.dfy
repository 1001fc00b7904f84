/** Which operations a target calls for, kind by kind: derivation lists these, with what the target asks for
    in them, and no others. */
module Needs {
  import opened Wrappers
  import opened Sorting
  import opened Snapshots
  import opened Operations
  import opened Evaluate
  import opened Derivation
  import opened Goals

  // ----- what is left of a list of bindings -----

  /** `left` is `bs` without the bindings of the route, in the same order. */
  ghost predicate Leaves(bs: seq<Binding>, route: Id, left: seq<Binding>) {
    exists kept: seq<nat> :: Keeps(bs, route, left, kept)
  }

  /** `kept` lists the places in `bs`, in ascending order, of the bindings of other routes. */
  ghost predicate Keeps(bs: seq<Binding>, route: Id, left: seq<Binding>, kept: seq<nat>) {
    && Rising(kept) && |kept| == |left|
    && (forall k :: 0 <= k < |kept| ==> kept[k] < |bs| && left[k] == bs[kept[k]])
    && (forall i: nat :: i < |bs| ==> (i in kept <==> bs[i].route != route))
  }

  lemma {:induction false} UnbindingEnds(bs: seq<Binding>, last: Binding, route: Id)
    ensures Unbinding(bs + [last], route) == Unbinding(bs, route) + (if last.route == route then [] else [last])
  {
    var all := bs + [last];
    if bs == [] {
      assert all == [last] && all[1..] == [];
    } else {
      UnbindingEnds(bs[1..], last, route);
      assert all[0] == bs[0] && all[1..] == bs[1..] + [last];
    }
  }

  lemma {:induction false} UnbindingLeaves(bs: seq<Binding>, route: Id) returns (kept: seq<nat>)
    ensures Keeps(bs, route, Unbinding(bs, route), kept)
  {
    hide Unbinding;
    if bs == [] {
      kept := [];
      NothingLeft(route);
    } else {
      var n := |bs| - 1;
      kept := UnbindingLeaves(bs[..n], route);
      UnbindingEnds(bs[..n], bs[n], route);
      assert bs == bs[..n] + [bs[n]];
      if bs[n].route != route { kept := kept + [n]; }
    }
  }

  lemma NothingLeft(route: Id)
    ensures Unbinding([], route) == []
  {
  }

  lemma {:induction false} LeavesUnbinding(bs: seq<Binding>, route: Id, left: seq<Binding>, kept: seq<nat>)
    requires Keeps(bs, route, left, kept)
    ensures left == Unbinding(bs, route)
  {
    hide Unbinding;
    if bs == [] {
      NothingLeft(route);
    } else {
      var n := |bs| - 1;
      UnbindingEnds(bs[..n], bs[n], route);
      assert bs == bs[..n] + [bs[n]];
      if bs[n].route == route {
        assert n !in kept;
        LeavesUnbinding(bs[..n], route, left, kept);
      } else {
        var m := |kept| - 1;
        LastKept(kept, n);
        LeavesUnbinding(bs[..n], route, left[..m], kept[..m]);
        assert left == left[..m] + [left[m]];
      }
    }
  }

  lemma LastKept(kept: seq<nat>, n: nat)
    requires Rising(kept) && n in kept && forall k :: 0 <= k < |kept| ==> kept[k] <= n
    ensures var m := |kept| - 1; kept[m] == n && forall i :: i in kept[..m] <==> i in kept && i != n
  {
    var m := |kept| - 1;
    var k :| 0 <= k < |kept| && kept[k] == n;
    LastIsMost(kept, k);
    assert kept == kept[..m] + [n];
  }

  lemma LastIsMost(kept: seq<nat>, k: nat)
    requires Rising(kept) && k < |kept|
    ensures var m := |kept| - 1; kept[k] <= kept[m] && (kept[k] == kept[m] ==> k == m)
  {
  }

  // ----- what a target calls for -----

  /** The maintenance steps between the state a device is in and the one it is to be in.  A device that is
      to leave service is drained on the way where that is the policy. */
  predicate StateStep(drainFirst: bool, now: EntityState, want: Desired<Device>, kind: Kind) {
    var leaves :=
      want.Remove? || want.value.spec.state == Removed || (want.value.spec.state == Absent && now != Absent);
    match kind
    case DeviceRemove => leaves
    case DrainResource =>
      || (leaves && drainFirst && now == Present)
      || (want.Ensure? && want.value.spec.state == Draining && now != Draining)
      || (want.Ensure? && want.value.spec.state == InMaintenance && now == Present)
    case EnterMaintenance => want.Ensure? && want.value.spec.state == InMaintenance && now != InMaintenance
    case ExitMaintenance =>
      want.Ensure? &&
        ((want.value.spec.state == Present && now in {Draining, InMaintenance})
         || (want.value.spec.state == Draining && now == InMaintenance))
    case _ => false
  }

  predicate Wanted<K, V>(m: map<K, Desired<V>>, k: K) { k in m && m[k].Ensure? }

  predicate Unwanted<K, V>(m: map<K, Desired<V>>, k: K) { k in m && m[k].Remove? }

  /** A route that is to go is first taken out of every workload bound to it. */
  ghost predicate Releases(s: Snapshot, t: Target, op: Operation, route: Id) {
    && Unwanted(t.routes, route) && route in s.routes && op.workload in s.workloads
    && (exists b :: b in s.workloads[op.workload].bindings && b.route == route)
    && Leaves(s.workloads[op.workload].bindings, route, op.bindings)
  }

  ghost predicate DeviceNeeded(ctx: Context, s: Snapshot, t: Target, op: Operation) {
    match op.kind
    case DeviceAdd =>
      && Wanted(t.devices, op.device) && op.device !in s.devices
      && t.devices[op.device].value == Device(op.deviceSpec, op.exclusions, op.maintenance)
    case DeviceSetCapacity =>
      Wanted(t.devices, op.device) && DeviceThere(s, op.device) &&
        var want, has := t.devices[op.device].value.spec, s.devices[op.device].spec;
        && (has.capacity != want.capacity || has.reserved != want.reserved)
        && op.capacity == want.capacity && op.deviceSpec.reserved == want.reserved
    case DeviceSetWindows =>
      Wanted(t.devices, op.device) && DeviceThere(s, op.device) &&
        var want, has := t.devices[op.device].value, s.devices[op.device];
        && (has.exclusions != want.exclusions || has.maintenance != want.maintenance)
        && op.exclusions == want.exclusions && op.maintenance == want.maintenance
    case DeviceRemove | DrainResource | EnterMaintenance | ExitMaintenance =>
      && op.device in t.devices && DeviceThere(s, op.device)
      && StateStep(ctx.drainFirst, s.devices[op.device].spec.state, t.devices[op.device], op.kind)
    case _ => false
  }

  // In each of the following the last case is the one kind of operation that is left, a removal.

  ghost predicate LinkNeeded(s: Snapshot, t: Target, op: Operation) {
    match op.kind
    case LinkAdd => Wanted(t.links, op.link) && op.link !in s.links && op.linkSpec == t.links[op.link].value
    case LinkSetCapacity =>
      Wanted(t.links, op.link) && LinkThere(s, op.link) &&
        var want, has := t.links[op.link].value, s.links[op.link].spec;
        && (has.capacity != want.capacity || has.reserved != want.reserved)
        && op.capacity == want.capacity && op.linkSpec == want
    case _ =>
      Unwanted(t.links, op.link) && LinkThere(s, op.link) && op.linkSpec.endpointA == op.linkSpec.endpointB == 0
  }

  ghost predicate RouteNeeded(s: Snapshot, t: Target, op: Operation) {
    match op.kind
    case RouteAdd =>
      && Wanted(t.routes, op.route) && op.route !in s.routes
      && t.routes[op.route].value == Route(op.routeSpec, op.routeState)
    case RouteSetPath =>
      Wanted(t.routes, op.route) && op.route in s.routes &&
        var want, has := t.routes[op.route].value.spec, s.routes[op.route].spec;
        (has.path != want.path || has.policy != want.policy) && op.routeSpec == want
    case RouteSetState =>
      Wanted(t.routes, op.route) && op.route in s.routes &&
        var want, has := t.routes[op.route].value.state, s.routes[op.route].state;
        has != want && op.routeState == want && op.routeSpec.source == op.routeSpec.sink == 0
    case _ =>
      Unwanted(t.routes, op.route) && op.route in s.routes && op.routeSpec.source == op.routeSpec.sink == 0
  }

  ghost predicate WorkloadNeeded(s: Snapshot, t: Target, op: Operation) {
    match op.kind
    case WorkloadAdd =>
      && Wanted(t.workloads, op.workload) && op.workload !in s.workloads
      && t.workloads[op.workload].value == Workload(op.bindings, op.requirements, op.contract)
    case WorkloadSetBindings =>
      || (exists route :: Releases(s, t, op, route))
      || (Wanted(t.workloads, op.workload) && op.workload in s.workloads &&
            var want, has := t.workloads[op.workload].value.bindings, s.workloads[op.workload].bindings;
            has != want && op.bindings == want)
    case WorkloadSetRequirements =>
      Wanted(t.workloads, op.workload) && op.workload in s.workloads &&
        var want, has := t.workloads[op.workload].value, s.workloads[op.workload];
        && (has.requirements != want.requirements || has.contract != want.contract)
        && op.requirements == want.requirements && op.contract == want.contract && op.bindings == []
    case _ => Unwanted(t.workloads, op.workload) && op.workload in s.workloads && op.bindings == []
  }

  ghost predicate SettingNeeded(s: Snapshot, t: Target, op: Operation) {
    match op.kind
    case PolicyBind =>
      && Wanted(t.policies, op.policy) && !PolicyMet(s, op.policy, t.policies[op.policy])
      && t.policies[op.policy].value == Policy(op.policyTarget, op.value, op.enforced)
    case PolicyUnbind =>
      Unwanted(t.policies, op.policy) && op.policy in s.policies && op.policyTarget.scope == GlobalScope
    case ConfigSet =>
      var key := (op.device, op.configKey);
      && Wanted(t.configs, key) && (key in s.configs ==> s.configs[key].value != t.configs[key].value)
      && op.value == t.configs[key].value
    case _ => Unwanted(t.configs, (op.device, op.configKey)) && (op.device, op.configKey) in s.configs
  }

  /** The target calls for the operation: what it is to change is not as asked for, and it asks for that. */
  ghost predicate Needed(ctx: Context, s: Snapshot, t: Target, op: Operation) {
    match AreaOf(op.kind)
    case Devices => DeviceNeeded(ctx, s, t, op)
    case Links => LinkNeeded(s, t, op)
    case Routes => RouteNeeded(s, t, op)
    case Workloads => WorkloadNeeded(s, t, op)
    case Policies | Configs => SettingNeeded(s, t, op)
  }

  /** The same change to the same entity.  Only bindings can be changed to more than one thing. */
  predicate Alike(a: Operation, b: Operation) {
    a.kind == b.kind && WriteRef(a) == WriteRef(b) && (a.kind.WorkloadSetBindings? ==> a.bindings == b.bindings)
  }

  // ----- entry by entry -----

  /** Every operation the entry yields is called for, and rated no riskier than its kind. */
  ghost predicate Sound(ctx: Context, s: Snapshot, t: Target, r: Ref) {
    var entry := EntryOps(ctx, s, t, r);
    entry.Some? ==> forall op :: op in entry.value ==> Needed(ctx, s, t, op) && op.metadata.risk == 0
  }

  /** Every operation called for is among those of the entry, or one alike is. */
  ghost predicate Found(ctx: Context, s: Snapshot, t: Target, r: Ref, op: Operation) {
    var entry := EntryOps(ctx, s, t, r);
    entry.Some? ==> exists d :: d in entry.value && Alike(d, op)
  }

  lemma StepsAre(drainFirst: bool, now: EntityState, want: Desired<Device>, kind: Kind)
    requires now != Removed
    ensures StateStep(drainFirst, now, want, kind) <==>
      kind in (if want.Remove? then RemovalKinds(drainFirst, now)
               else StateKinds(drainFirst, now, want.value.spec.state))
    ensures StateStep(drainFirst, now, want, kind) ==> RequiresWindow(kind)
  {
  }

  lemma DeviceOpsCarry(kind: Kind, id: Id, d: Device)
    ensures DeviceOp(kind, id).metadata.risk == DeviceAddOp(id, d).metadata.risk == 0
    ensures DeviceCapacityOp(id, d.spec).metadata.risk == DeviceWindowsOp(id, d).metadata.risk == 0
    ensures DeviceCapacityOp(id, d.spec).deviceSpec.reserved == d.spec.reserved
  {
  }

  lemma DeviceSound(ctx: Context, s: Snapshot, t: Target, id: Id)
    ensures Sound(ctx, s, t, DeviceRef(id))
  {
    hide LinkNeeded, RouteNeeded, WorkloadNeeded, SettingNeeded;
    hide DeviceOp, DeviceAddOp, DeviceCapacityOp, DeviceWindowsOp, StateKinds, RemovalKinds, SameFixedFields, StateStep;
    var entry := EntryOps(ctx, s, t, DeviceRef(id));
    if entry.Some? && id in t.devices {
      var want := t.devices[id];
      forall op | op in entry.value ensures Needed(ctx, s, t, op) && op.metadata.risk == 0 {
        if want.Ensure? { DeviceOpsCarry(op.kind, id, want.value); }
        if DeviceThere(s, id) {
          var now := s.devices[id].spec.state;
          var kinds := if want.Remove? then RemovalKinds(ctx.drainFirst, now)
                       else StateKinds(ctx.drainFirst, now, want.value.spec.state);
          if op in ForKinds(id, kinds) {
            var kind :| kind in kinds && op == DeviceOp(kind, id);
            StepsAre(ctx.drainFirst, now, want, kind);
            PlainDeviceOp(kind, id);
          }
        }
      }
    }
  }

  lemma PlainDeviceOp(kind: Kind, id: Id)
    ensures DeviceOp(kind, id).metadata.risk == 0
  {
  }

  lemma DeviceFound(ctx: Context, s: Snapshot, t: Target, op: Operation)
    requires AreaOf(op.kind) == Devices && Needed(ctx, s, t, op)
    ensures Found(ctx, s, t, WriteRef(op), op)
  {
    hide DeviceOp, DeviceAddOp, DeviceCapacityOp, DeviceWindowsOp, StateKinds, RemovalKinds, SameFixedFields, StateStep;
    var id := op.device;
    var entry := EntryOps(ctx, s, t, DeviceRef(id));
    if entry.Some? {
      var want := t.devices[id];
      if op.kind.DeviceAdd? {
        assert DeviceAddOp(id, want.value) in entry.value;
      } else if op.kind.DeviceSetCapacity? {
        assert DeviceCapacityOp(id, want.value.spec) in entry.value;
      } else if op.kind.DeviceSetWindows? {
        assert DeviceWindowsOp(id, want.value) in entry.value;
      } else {
        StepsAre(ctx.drainFirst, s.devices[id].spec.state, want, op.kind);
        assert DeviceOp(op.kind, id) in entry.value;
      }
    }
  }

  // ----- links and routes -----

  lemma RemovalsCarry(id: Id, key: (Id, Id))
    ensures LinkRemoveOp(id).metadata.risk == RouteRemoveOp(id).metadata.risk == 0
    ensures WorkloadRemoveOp(id).metadata.risk == PolicyUnbindOp(id).metadata.risk == 0
    ensures ConfigClearOp(key).metadata.risk == 0
    ensures LinkRemoveOp(id).linkSpec.endpointA == LinkRemoveOp(id).linkSpec.endpointB == 0
    ensures RouteRemoveOp(id).routeSpec.source == RouteRemoveOp(id).routeSpec.sink == 0
    ensures WorkloadRemoveOp(id).bindings == [] && PolicyUnbindOp(id).policyTarget.scope == GlobalScope
  {
  }

  lemma LinkOpsCarry(id: Id, spec: LinkSpec)
    ensures LinkAddOp(id, spec).metadata.risk == LinkCapacityOp(id, spec).metadata.risk == 0
    ensures LinkCapacityOp(id, spec).linkSpec == spec
  {
  }

  lemma LinkOpSound(ctx: Context, s: Snapshot, t: Target, id: Id, op: Operation)
    requires id in t.links && LinkEntry(s, t, id, t.links[id]).Some? && op in LinkEntry(s, t, id, t.links[id]).value
    ensures Needed(ctx, s, t, op) && op.metadata.risk == 0
  {
    hide LinkRemoveOp, LinkAddOp, LinkCapacityOp, HasDevice, DeviceNeeded, RouteNeeded, WorkloadNeeded, SettingNeeded;
    match t.links[id]
    case Remove => RemovalsCarry(id, (0, 0));
    case Ensure(spec) => LinkOpsCarry(id, spec);
  }

  lemma LinkSound(ctx: Context, s: Snapshot, t: Target, id: Id)
    ensures Sound(ctx, s, t, LinkRef(id))
  {
    hide Needed, LinkEntry;
    if id in t.links && LinkEntry(s, t, id, t.links[id]).Some? {
      forall op | op in LinkEntry(s, t, id, t.links[id]).value ensures Needed(ctx, s, t, op) && op.metadata.risk == 0 {
        LinkOpSound(ctx, s, t, id, op);
      }
    }
  }

  lemma LinkFound(ctx: Context, s: Snapshot, t: Target, op: Operation)
    requires AreaOf(op.kind) == Links && Needed(ctx, s, t, op)
    ensures Found(ctx, s, t, WriteRef(op), op)
  {
    hide LinkRemoveOp, LinkAddOp, LinkCapacityOp, HasDevice;
    var entry := EntryOps(ctx, s, t, LinkRef(op.link));
    if entry.Some? {
      if op.kind.LinkRemove? {
        assert LinkRemoveOp(op.link) in entry.value;
      } else if op.kind.LinkAdd? {
        assert LinkAddOp(op.link, op.linkSpec) in entry.value;
      } else {
        assert LinkCapacityOp(op.link, op.linkSpec) in entry.value;
      }
    }
  }

  lemma RouteOpsCarry(id: Id, r: Route)
    ensures RouteAddOp(id, r).metadata.risk == 0
    ensures RoutePathOp(id, r).metadata.risk == RouteStateOp(id, r).metadata.risk == 0
    ensures RouteStateOp(id, r).routeSpec.source == RouteStateOp(id, r).routeSpec.sink == 0
  {
  }

  lemma Unbinds(bs: seq<Binding>, route: Id)
    ensures BindsRoute(bs, route) <==> exists b :: b in bs && b.route == route
    ensures forall left :: left == Unbinding(bs, route) <==> Leaves(bs, route, left)
  {
    hide Unbinding;
    if b :| b in bs && b.route == route { var i :| 0 <= i < |bs| && bs[i] == b; }
    var kept := UnbindingLeaves(bs, route);
    forall left | Leaves(bs, route, left) ensures left == Unbinding(bs, route) {
      var k :| Keeps(bs, route, left, k);
      LeavesUnbinding(bs, route, left, k);
    }
  }

  lemma BindingsCarry(workload: Id, bs: seq<Binding>)
    ensures BindingsOp(workload, bs).metadata.risk == 0
  {
  }

  lemma ReleaseNeeded(ctx: Context, s: Snapshot, t: Target, route: Id, op: Operation)
    requires Unwanted(t.routes, route) && route in s.routes && op in ReleaseOps(s, route)
    ensures Needed(ctx, s, t, op) && op.metadata.risk == 0
  {
    hide Unbinding, BindsRoute, BindingsOp, Leaves;
    var w :| w in s.workloads && BindsRoute(s.workloads[w].bindings, route)
      && op == BindingsOp(w, Unbinding(s.workloads[w].bindings, route));
    Unbinds(s.workloads[w].bindings, route);
    BindingsCarry(w, op.bindings);
    assert Releases(s, t, op, route);
  }

  lemma RouteOpSound(ctx: Context, s: Snapshot, t: Target, id: Id, op: Operation)
    requires id in t.routes && RouteEntry(s, t, id, t.routes[id]).Some?
    requires op in RouteEntry(s, t, id, t.routes[id]).value
    ensures Needed(ctx, s, t, op) && op.metadata.risk == 0
  {
    hide RouteRemoveOp, RouteAddOp, RoutePathOp, RouteStateOp, ReleaseOps, HasDevice, HasPath;
    hide DeviceNeeded, LinkNeeded, WorkloadNeeded, SettingNeeded;
    match t.routes[id]
    case Remove =>
      RemovalsCarry(id, (0, 0));
      if op in ReleaseOps(s, id) {
        ReleaseNeeded(ctx, s, t, id, op);
      } else {
        assert op == RouteRemoveOp(id);
      }
    case Ensure(r) =>
      RouteOpsCarry(id, r);
      assert op in {RouteAddOp(id, r), RoutePathOp(id, r), RouteStateOp(id, r)};
  }

  lemma RouteSound(ctx: Context, s: Snapshot, t: Target, id: Id)
    ensures Sound(ctx, s, t, RouteRef(id))
  {
    hide Needed, RouteEntry;
    if id in t.routes && RouteEntry(s, t, id, t.routes[id]).Some? {
      forall op | op in RouteEntry(s, t, id, t.routes[id]).value
        ensures Needed(ctx, s, t, op) && op.metadata.risk == 0
      {
        RouteOpSound(ctx, s, t, id, op);
      }
    }
  }

  lemma RouteFound(ctx: Context, s: Snapshot, t: Target, op: Operation)
    requires AreaOf(op.kind) == Routes && Needed(ctx, s, t, op)
    ensures Found(ctx, s, t, WriteRef(op), op)
  {
    hide RouteRemoveOp, RouteAddOp, RoutePathOp, RouteStateOp, ReleaseOps, HasDevice, HasPath;
    var entry := EntryOps(ctx, s, t, RouteRef(op.route));
    if entry.Some? {
      if op.kind.RouteRemove? {
        assert RouteRemoveOp(op.route) in entry.value;
      } else if op.kind.RouteAdd? {
        assert RouteAddOp(op.route, t.routes[op.route].value) in entry.value;
      } else if op.kind.RouteSetPath? {
        assert RoutePathOp(op.route, t.routes[op.route].value) in entry.value;
      } else {
        assert RouteStateOp(op.route, t.routes[op.route].value) in entry.value;
      }
    }
  }

  lemma ReleaseFound(ctx: Context, s: Snapshot, t: Target, op: Operation, route: Id)
    requires op.kind.WorkloadSetBindings? && Releases(s, t, op, route)
    ensures Found(ctx, s, t, RouteRef(route), op)
  {
    hide Unbinding, BindsRoute, BindingsOp, RouteRemoveOp, Leaves;
    var bs := s.workloads[op.workload].bindings;
    Unbinds(bs, route);
    var d := BindingsOp(op.workload, Unbinding(bs, route));
    assert d in ReleaseOps(s, route);
    assert d in EntryOps(ctx, s, t, RouteRef(route)).value;
  }

  // ----- workloads, policies and configuration -----

  lemma WorkloadOpsCarry(id: Id, w: Workload)
    ensures WorkloadAddOp(id, w).metadata.risk == 0
    ensures BindingsOp(id, w.bindings).metadata.risk == RequirementsOp(id, w).metadata.risk == 0
    ensures RequirementsOp(id, w).bindings == []
  {
  }

  lemma WorkloadOpSound(ctx: Context, s: Snapshot, t: Target, id: Id, op: Operation)
    requires id in t.workloads && WorkloadEntry(s, t, id, t.workloads[id]).Some?
    requires op in WorkloadEntry(s, t, id, t.workloads[id]).value
    ensures Needed(ctx, s, t, op) && op.metadata.risk == 0
  {
    hide WorkloadRemoveOp, WorkloadAddOp, BindingsOp, RequirementsOp, HasBindings, Releases;
    hide DeviceNeeded, LinkNeeded, RouteNeeded, SettingNeeded;
    match t.workloads[id]
    case Remove => RemovalsCarry(id, (0, 0));
    case Ensure(w) =>
      WorkloadOpsCarry(id, w);
      assert op in {WorkloadAddOp(id, w), BindingsOp(id, w.bindings), RequirementsOp(id, w)};
  }

  lemma WorkloadSound(ctx: Context, s: Snapshot, t: Target, id: Id)
    ensures Sound(ctx, s, t, WorkloadRef(id))
  {
    hide Needed, WorkloadEntry;
    if id in t.workloads && WorkloadEntry(s, t, id, t.workloads[id]).Some? {
      forall op | op in WorkloadEntry(s, t, id, t.workloads[id]).value
        ensures Needed(ctx, s, t, op) && op.metadata.risk == 0
      {
        WorkloadOpSound(ctx, s, t, id, op);
      }
    }
  }

  lemma WorkloadFound(ctx: Context, s: Snapshot, t: Target, op: Operation)
    requires AreaOf(op.kind) == Workloads && Needed(ctx, s, t, op)
    requires op.kind.WorkloadSetBindings? ==> forall route :: !Releases(s, t, op, route)
    ensures Found(ctx, s, t, WriteRef(op), op)
  {
    hide WorkloadRemoveOp, WorkloadAddOp, BindingsOp, RequirementsOp, HasBindings, Releases;
    var entry := EntryOps(ctx, s, t, WorkloadRef(op.workload));
    if entry.Some? {
      if op.kind.WorkloadRemove? {
        assert WorkloadRemoveOp(op.workload) in entry.value;
      } else if op.kind.WorkloadAdd? {
        assert WorkloadAddOp(op.workload, t.workloads[op.workload].value) in entry.value;
      } else if op.kind.WorkloadSetBindings? {
        assert BindingsOp(op.workload, op.bindings) in entry.value;
      } else {
        assert RequirementsOp(op.workload, t.workloads[op.workload].value) in entry.value;
      }
    }
  }

  lemma ConfigOpsCarry(key: (Id, Id), value: Code)
    ensures ConfigSetOp(key, value).metadata.risk == 0
  {
  }

  lemma PolicySound(ctx: Context, s: Snapshot, t: Target, id: Id)
    ensures Sound(ctx, s, t, PolicyRef(id))
  {
    hide Needed;
    if id in t.policies {
      forall op | op in PolicyEntry(s, id, t.policies[id]).value
        ensures Needed(ctx, s, t, op) && op.metadata.risk == 0
      {
        PolicyOpSound(ctx, s, t, id, op);
      }
    }
  }

  lemma PolicyOpSound(ctx: Context, s: Snapshot, t: Target, id: Id, op: Operation)
    requires id in t.policies && op in PolicyEntry(s, id, t.policies[id]).value
    ensures Needed(ctx, s, t, op) && op.metadata.risk == 0
  {
    hide PolicyUnbindOp, PolicyBindOp, SettingNeeded, Blank, Because;
    match t.policies[id]
    case Remove =>
      assert id in s.policies && op == PolicyUnbindOp(id);
      UnbindSound(s, t, id);
    case Ensure(p) =>
      assert op == PolicyBindOp(id, p) && At(s.policies, id) != Some(p);
      BindSound(s, t, id, p);
  }

  lemma UnbindSound(s: Snapshot, t: Target, id: Id)
    requires Unwanted(t.policies, id) && id in s.policies
    ensures var op := PolicyUnbindOp(id); SettingNeeded(s, t, op) && op.metadata.risk == 0
  {
  }

  lemma BindSound(s: Snapshot, t: Target, id: Id, p: Policy)
    requires id in t.policies && t.policies[id] == Ensure(p) && At(s.policies, id) != Some(p)
    ensures var op := PolicyBindOp(id, p); SettingNeeded(s, t, op) && op.metadata.risk == 0
  {
  }

  lemma ConfigSound(ctx: Context, s: Snapshot, t: Target, key: (Id, Id))
    ensures Sound(ctx, s, t, ConfigRef(key.0, key.1))
  {
    hide Needed, ConfigEntry;
    if key in t.configs && ConfigEntry(s, t, key, t.configs[key]).Some? {
      forall op | op in ConfigEntry(s, t, key, t.configs[key]).value
        ensures Needed(ctx, s, t, op) && op.metadata.risk == 0
      {
        ConfigOpSound(ctx, s, t, key, op);
      }
    }
  }

  lemma ConfigOpSound(ctx: Context, s: Snapshot, t: Target, key: (Id, Id), op: Operation)
    requires key in t.configs && ConfigEntry(s, t, key, t.configs[key]).Some?
    requires op in ConfigEntry(s, t, key, t.configs[key]).value
    ensures Needed(ctx, s, t, op) && op.metadata.risk == 0
  {
    hide ConfigClearOp, ConfigSetOp, HasDevice, DeviceNeeded, LinkNeeded, RouteNeeded, WorkloadNeeded;
    match t.configs[key]
    case Remove => RemovalsCarry(0, key);
    case Ensure(value) => ConfigOpsCarry(key, value);
  }

  lemma SettingFound(ctx: Context, s: Snapshot, t: Target, op: Operation)
    requires AreaOf(op.kind) in {Policies, Configs} && Needed(ctx, s, t, op)
    ensures Found(ctx, s, t, WriteRef(op), op)
  {
    hide PolicyUnbindOp, PolicyBindOp, ConfigClearOp, ConfigSetOp, HasDevice;
    var entry := EntryOps(ctx, s, t, WriteRef(op));
    if entry.Some? {
      var key := (op.device, op.configKey);
      if op.kind.PolicyBind? {
        assert PolicyBindOp(op.policy, t.policies[op.policy].value) in entry.value;
      } else if op.kind.PolicyUnbind? {
        assert PolicyUnbindOp(op.policy) in entry.value;
      } else if op.kind.ConfigSet? {
        assert ConfigSetOp(key, op.value) in entry.value;
      } else {
        assert ConfigClearOp(key) in entry.value;
      }
    }
  }

  // ----- the whole target -----

  lemma EntrySound(ctx: Context, s: Snapshot, t: Target, r: Ref)
    ensures Sound(ctx, s, t, r)
  {
    hide Sound;
    match r
    case DeviceRef(id) => DeviceSound(ctx, s, t, id);
    case LinkRef(id) => LinkSound(ctx, s, t, id);
    case RouteRef(id) => RouteSound(ctx, s, t, id);
    case WorkloadRef(id) => WorkloadSound(ctx, s, t, id);
    case PolicyRef(id) => PolicySound(ctx, s, t, id);
    case ConfigRef(owner, key) => ConfigSound(ctx, s, t, (owner, key));
    case GlobalRef | DomainRef(_) => NothingUnsound(ctx, s, t, r);
  }

  lemma NothingUnsound(ctx: Context, s: Snapshot, t: Target, r: Ref)
    requires r.GlobalRef? || r.DomainRef?
    ensures Sound(ctx, s, t, r)
  {
  }

  /** Where an operation called for is found: with the entry of what it writes, or with that of the route it
      gives up. */
  lemma NeededFound(ctx: Context, s: Snapshot, t: Target, op: Operation) returns (r: Ref)
    requires Needed(ctx, s, t, op)
    ensures IsEntry(t, r) && Found(ctx, s, t, r, op)
  {
    hide Found, Leaves, StateStep;
    r := WriteRef(op);
    match AreaOf(op.kind) {
      case Devices => DeviceFound(ctx, s, t, op);
      case Links => LinkFound(ctx, s, t, op);
      case Routes => RouteFound(ctx, s, t, op);
      case Workloads =>
        if route :| op.kind.WorkloadSetBindings? && Releases(s, t, op, route) {
          r := RouteRef(route);
          ReleaseFound(ctx, s, t, op, route);
        } else {
          WorkloadFound(ctx, s, t, op);
        }
      case Policies | Configs => SettingFound(ctx, s, t, op);
    }
  }

  /** What is derived is exactly what the target calls for: every operation derived is called for and carries
      what the target asks for, and for everything called for the like is derived. */
  lemma DerivedExactly(ctx: Context, s: Snapshot, t: Target, naming: Naming, ops: seq<Operation>)
    requires Derives(ctx, s, t, naming, ops)
    ensures forall op :: op in ops ==> Needed(ctx, s, t, op) && op.metadata.risk == 0
    ensures forall op :: Needed(ctx, s, t, op) ==> exists d :: d in ops && Alike(d, op)
  {
    hide EntryOps, Needed, Entries, SortedBy, Alike;
    EntriesAre(t);
    forall op | op in ops ensures Needed(ctx, s, t, op) && op.metadata.risk == 0 {
      var r :| r in Entries(t) && op in EntryOps(ctx, s, t, r).value;
      EntrySound(ctx, s, t, r);
    }
    forall op | Needed(ctx, s, t, op) ensures exists d :: d in ops && Alike(d, op) {
      var r := NeededFound(ctx, s, t, op);
      var d :| d in EntryOps(ctx, s, t, r).value && Alike(d, op);
      assert d in DerivedOps(ctx, s, t);
    }
  }
}
