/** What a target asks for, field by field, and what derivation has to do with it: nothing is derived
    exactly where the snapshot is as asked for, and derivation fails exactly where it can not be. */
module Goals {
  import opened Wrappers
  import opened Snapshots
  import opened Operations
  import opened Evaluate
  import opened Derivation

  // ----- as asked for -----

  /** The fields of a device that no operation changes. */
  predicate SameKind(a: DeviceSpec, b: DeviceSpec) {
    && a.domain == b.domain && a.profile == b.profile && a.capabilities == b.capabilities
    && a.maxConcurrent == b.maxConcurrent
  }

  /** A device that is neither unknown nor a tombstone. */
  predicate DeviceThere(s: Snapshot, id: Id) { id in s.devices && s.devices[id].spec.state != Removed }

  predicate LinkThere(s: Snapshot, id: Id) { id in s.links && s.links[id].state != Removed }

  /** A state wanted counts as reached in one case in which it is not: a device in state absent is taken
      as present. */
  predicate StateMet(now: EntityState, want: EntityState) { now == want || (now == Absent && want == Present) }

  predicate DeviceMet(s: Snapshot, id: Id, want: Desired<Device>) {
    match want
    case Remove => !DeviceThere(s, id)
    case Ensure(d) =>
      DeviceThere(s, id) &&
        var c := s.devices[id];
        && SameKind(c.spec, d.spec) && c.spec.capacity == d.spec.capacity && c.spec.reserved == d.spec.reserved
        && c.exclusions == d.exclusions && c.maintenance == d.maintenance && StateMet(c.spec.state, d.spec.state)
  }

  predicate LinkMet(s: Snapshot, id: Id, want: Desired<LinkSpec>) {
    match want
    case Remove => !LinkThere(s, id)
    case Ensure(spec) =>
      LinkThere(s, id) &&
        var c := s.links[id].spec;
        && c.endpointA == spec.endpointA && c.endpointB == spec.endpointB && c.latencyClass == spec.latencyClass
        && c.transit == spec.transit && c.capacity == spec.capacity && c.reserved == spec.reserved
  }

  predicate RouteMet(s: Snapshot, id: Id, want: Desired<Route>) {
    match want
    case Remove => id !in s.routes
    case Ensure(r) =>
      id in s.routes &&
        var c := s.routes[id];
        && c.spec.source == r.spec.source && c.spec.sink == r.spec.sink && c.spec.path == r.spec.path
        && c.spec.policy == r.spec.policy && c.state == r.state
  }

  predicate WorkloadMet(s: Snapshot, id: Id, want: Desired<Workload>) {
    match want
    case Remove => id !in s.workloads
    case Ensure(w) =>
      id in s.workloads &&
        var c := s.workloads[id];
        c.bindings == w.bindings && c.requirements == w.requirements && c.contract == w.contract
  }

  predicate PolicyMet(s: Snapshot, id: Id, want: Desired<Policy>) {
    match want
    case Remove => id !in s.policies
    case Ensure(p) =>
      id in s.policies &&
        var c := s.policies[id];
        c.target == p.target && c.value == p.value && c.enforced == p.enforced
  }

  predicate ConfigMet(s: Snapshot, key: (Id, Id), want: Desired<Code>) {
    match want
    case Remove => key !in s.configs
    case Ensure(value) => DeviceThere(s, key.0) && key in s.configs && s.configs[key].value == value
  }

  /** Everything is as the target asks for. */
  ghost predicate Meets(s: Snapshot, t: Target) {
    && (forall id :: id in t.devices ==> DeviceMet(s, id, t.devices[id]))
    && (forall id :: id in t.links ==> LinkMet(s, id, t.links[id]))
    && (forall id :: id in t.routes ==> RouteMet(s, id, t.routes[id]))
    && (forall id :: id in t.workloads ==> WorkloadMet(s, id, t.workloads[id]))
    && (forall id :: id in t.policies ==> PolicyMet(s, id, t.policies[id]))
    && (forall key :: key in t.configs ==> ConfigMet(s, key, t.configs[key]))
  }

  // ----- in conflict -----

  predicate DeviceDue(s: Snapshot, t: Target, id: Id) {
    DeviceThere(s, id) || (id in t.devices && t.devices[id].Ensure?)
  }

  predicate LinkDue(s: Snapshot, t: Target, id: Id) { LinkThere(s, id) || (id in t.links && t.links[id].Ensure?) }

  predicate RouteDue(s: Snapshot, t: Target, id: Id) { id in s.routes || (id in t.routes && t.routes[id].Ensure?) }

  /** A device was removed for good, or is there with a field that can not be changed. */
  predicate DeviceConflict(s: Snapshot, id: Id, d: Device) {
    id in s.devices && (s.devices[id].spec.state == Removed || !SameKind(s.devices[id].spec, d.spec))
  }

  /** A link was removed for good, is there with a field that can not be changed, or is new and ends at a
      device that neither is there nor is asked for. */
  predicate LinkConflict(s: Snapshot, t: Target, id: Id, spec: LinkSpec) {
    if id in s.links then
      var c := s.links[id];
      || c.state == Removed || c.spec.endpointA != spec.endpointA || c.spec.endpointB != spec.endpointB
      || c.spec.latencyClass != spec.latencyClass || c.spec.transit != spec.transit
    else !DeviceDue(s, t, spec.endpointA) || !DeviceDue(s, t, spec.endpointB)
  }

  /** A route is there with another end, or a new route or path runs over something that neither is there
      nor is asked for. */
  ghost predicate RouteConflict(s: Snapshot, t: Target, id: Id, r: Route) {
    var lost := exists link :: link in r.spec.path && !LinkDue(s, t, link);
    if id in s.routes then
      var c := s.routes[id].spec;
      || c.source != r.spec.source || c.sink != r.spec.sink
      || ((c.path != r.spec.path || c.policy != r.spec.policy) && lost)
    else lost || !DeviceDue(s, t, r.spec.source) || !DeviceDue(s, t, r.spec.sink)
  }

  ghost predicate WorkloadConflict(s: Snapshot, t: Target, id: Id, w: Workload) {
    id !in s.workloads && exists b :: b in w.bindings && !RouteDue(s, t, b.route)
  }

  /** Some entry ensured can not be had. */
  ghost predicate Conflicts(s: Snapshot, t: Target) {
    || (exists id :: id in t.devices && t.devices[id].Ensure? && DeviceConflict(s, id, t.devices[id].value))
    || (exists id :: id in t.links && t.links[id].Ensure? && LinkConflict(s, t, id, t.links[id].value))
    || (exists id :: id in t.routes && t.routes[id].Ensure? && RouteConflict(s, t, id, t.routes[id].value))
    || (exists id :: id in t.workloads && t.workloads[id].Ensure? && WorkloadConflict(s, t, id, t.workloads[id].value))
    || (exists key :: key in t.configs && t.configs[key].Ensure? && !DeviceDue(s, t, key.0))
  }

  // ----- entry by entry -----

  ghost predicate EntryConflict(s: Snapshot, t: Target, r: Ref) {
    match r
    case DeviceRef(id) => id in t.devices && t.devices[id].Ensure? && DeviceConflict(s, id, t.devices[id].value)
    case LinkRef(id) => id in t.links && t.links[id].Ensure? && LinkConflict(s, t, id, t.links[id].value)
    case RouteRef(id) => id in t.routes && t.routes[id].Ensure? && RouteConflict(s, t, id, t.routes[id].value)
    case WorkloadRef(id) =>
      id in t.workloads && t.workloads[id].Ensure? && WorkloadConflict(s, t, id, t.workloads[id].value)
    case ConfigRef(owner, key) =>
      (owner, key) in t.configs && t.configs[(owner, key)].Ensure? && !DeviceDue(s, t, owner)
    case _ => false
  }

  ghost predicate EntryMet(s: Snapshot, t: Target, r: Ref) {
    match r
    case DeviceRef(id) => id in t.devices ==> DeviceMet(s, id, t.devices[id])
    case LinkRef(id) => id in t.links ==> LinkMet(s, id, t.links[id])
    case RouteRef(id) => id in t.routes ==> RouteMet(s, id, t.routes[id])
    case WorkloadRef(id) => id in t.workloads ==> WorkloadMet(s, id, t.workloads[id])
    case PolicyRef(id) => id in t.policies ==> PolicyMet(s, id, t.policies[id])
    case ConfigRef(owner, key) =>
      (owner, key) in t.configs ==>
        if t.configs[(owner, key)].Remove? then (owner, key) !in s.configs
        else
          && DeviceDue(s, t, owner) && (owner, key) in s.configs
          && s.configs[(owner, key)].value == t.configs[(owner, key)].value
    case _ => true
  }

  lemma DeviceEntryMeans(ctx: Context, s: Snapshot, t: Target, id: Id)
    ensures var r := DeviceRef(id);
      && (EntryOps(ctx, s, t, r) == None <==> EntryConflict(s, t, r))
      && (EntryOps(ctx, s, t, r) == Some({}) <==> EntryMet(s, t, r))
  {
    hide DeviceOp, DeviceAddOp, DeviceCapacityOp, DeviceWindowsOp;
    if id in t.devices && id in s.devices {
      var now := s.devices[id].spec.state;
      NoKinds(id, RemovalKinds(ctx.drainFirst, now));
      if t.devices[id].Ensure? { NoKinds(id, StateKinds(ctx.drainFirst, now, t.devices[id].value.spec.state)); }
    }
  }

  lemma NoKinds(id: Id, kinds: set<Kind>)
    ensures ForKinds(id, kinds) == {} <==> kinds == {}
  {
    if k :| k in kinds { assert DeviceOp(k, id) in ForKinds(id, kinds); }
  }

  lemma PathDue(s: Snapshot, t: Target, path: seq<Id>)
    ensures !HasPath(s, t, path) <==> exists link :: link in path && !LinkDue(s, t, link)
  {
    if !HasPath(s, t, path) {
      var i :| 0 <= i < |path| && !HasLink(s, t, path[i]);
      assert path[i] in path && !LinkDue(s, t, path[i]);
    }
    if link :| link in path && !LinkDue(s, t, link) { var i :| 0 <= i < |path| && path[i] == link; }
  }

  lemma BindingsDue(s: Snapshot, t: Target, bs: seq<Binding>)
    ensures !HasBindings(s, t, bs) <==> exists b :: b in bs && !RouteDue(s, t, b.route)
  {
    if b :| b in bs && !RouteDue(s, t, b.route) { var i :| 0 <= i < |bs| && bs[i] == b; }
  }

  lemma NeitherOf<T>(a: bool, x: T, b: bool, y: T)
    ensures (if a then {x} else {}) + (if b then {y} else {}) == {} <==> !a && !b
  {
    if a { assert x in (if a then {x} else {}) + (if b then {y} else {}); }
    if b { assert y in (if a then {x} else {}) + (if b then {y} else {}); }
  }

  lemma LinkEntryMeans(ctx: Context, s: Snapshot, t: Target, id: Id)
    ensures var r := LinkRef(id);
      && (EntryOps(ctx, s, t, r) == None <==> EntryConflict(s, t, r))
      && (EntryOps(ctx, s, t, r) == Some({}) <==> EntryMet(s, t, r))
  {
    hide LinkRemoveOp, LinkAddOp, LinkCapacityOp;
  }

  lemma RouteEntryMeans(ctx: Context, s: Snapshot, t: Target, id: Id)
    ensures var r := RouteRef(id);
      && (EntryOps(ctx, s, t, r) == None <==> EntryConflict(s, t, r))
      && (EntryOps(ctx, s, t, r) == Some({}) <==> EntryMet(s, t, r))
  {
    hide RouteRemoveOp, RouteAddOp, RoutePathOp, RouteStateOp, ReleaseOps, HasPath, LinkDue;
    if id in t.routes && t.routes[id].Ensure? {
      var path := t.routes[id].value.spec.path;
      PathDue(s, t, path);
      var r := t.routes[id].value;
      if id in s.routes {
        var c := s.routes[id];
        NeitherOf(c.spec.path != r.spec.path || c.spec.policy != r.spec.policy, RoutePathOp(id, r),
                  c.state != r.state, RouteStateOp(id, r));
      }
    }
  }

  lemma WorkloadEntryMeans(ctx: Context, s: Snapshot, t: Target, id: Id)
    ensures var r := WorkloadRef(id);
      && (EntryOps(ctx, s, t, r) == None <==> EntryConflict(s, t, r))
      && (EntryOps(ctx, s, t, r) == Some({}) <==> EntryMet(s, t, r))
  {
    hide WorkloadRemoveOp, WorkloadAddOp, BindingsOp, RequirementsOp, HasBindings, RouteDue;
    if id in t.workloads && t.workloads[id].Ensure? {
      var bs := t.workloads[id].value.bindings;
      BindingsDue(s, t, bs);
      var w := t.workloads[id].value;
      if id in s.workloads {
        var c := s.workloads[id];
        NeitherOf(c.bindings != bs, BindingsOp(id, bs), c.requirements != w.requirements || c.contract != w.contract,
                  RequirementsOp(id, w));
      }
    }
  }

  lemma SettingEntryMeans(ctx: Context, s: Snapshot, t: Target, r: Ref)
    requires r.PolicyRef? || r.ConfigRef?
    ensures EntryOps(ctx, s, t, r) == None <==> EntryConflict(s, t, r)
    ensures EntryOps(ctx, s, t, r) == Some({}) <==> EntryMet(s, t, r)
  {
    hide PolicyUnbindOp, PolicyBindOp, ConfigClearOp, ConfigSetOp;
  }

  lemma EntryMeans(ctx: Context, s: Snapshot, t: Target, r: Ref)
    ensures EntryOps(ctx, s, t, r) == None <==> EntryConflict(s, t, r)
    ensures EntryOps(ctx, s, t, r) == Some({}) <==> EntryMet(s, t, r)
  {
    hide EntryConflict, EntryMet, EntryOps;
    match r
    case DeviceRef(id) => DeviceEntryMeans(ctx, s, t, id);
    case LinkRef(id) => LinkEntryMeans(ctx, s, t, id);
    case RouteRef(id) => RouteEntryMeans(ctx, s, t, id);
    case WorkloadRef(id) => WorkloadEntryMeans(ctx, s, t, id);
    case PolicyRef(_) | ConfigRef(_, _) => SettingEntryMeans(ctx, s, t, r);
    case GlobalRef | DomainRef(_) => NoEntry(ctx, s, t, r);
  }

  lemma NoEntry(ctx: Context, s: Snapshot, t: Target, r: Ref)
    requires r.GlobalRef? || r.DomainRef?
    ensures EntryOps(ctx, s, t, r) == Some({}) && !EntryConflict(s, t, r) && EntryMet(s, t, r)
  {
  }

  predicate IsEntry(t: Target, r: Ref) {
    match r
    case DeviceRef(id) => id in t.devices
    case LinkRef(id) => id in t.links
    case RouteRef(id) => id in t.routes
    case WorkloadRef(id) => id in t.workloads
    case PolicyRef(id) => id in t.policies
    case ConfigRef(owner, key) => (owner, key) in t.configs
    case GlobalRef | DomainRef(_) => false
  }

  lemma EntriesAre(t: Target)
    ensures forall r :: r in Entries(t) <==> IsEntry(t, r)
  {
  }

  // ----- the whole target -----

  /** Derivation fails exactly where an entry ensured is in conflict with the snapshot or refers to
      something that neither is there nor is asked for. */
  lemma FailsIffConflict(ctx: Context, s: Snapshot, t: Target)
    ensures !Derivable(ctx, s, t) <==> Conflicts(s, t)
  {
    hide EntryOps, DeviceConflict, LinkConflict, RouteConflict, WorkloadConflict, DeviceDue, Entries;
    EntriesAre(t);
    forall r ensures EntryOps(ctx, s, t, r) == None <==> EntryConflict(s, t, r) { EntryMeans(ctx, s, t, r); }
    if id :| id in t.devices && t.devices[id].Ensure? && DeviceConflict(s, id, t.devices[id].value) {
      assert EntryConflict(s, t, DeviceRef(id));
    }
    if id :| id in t.links && t.links[id].Ensure? && LinkConflict(s, t, id, t.links[id].value) {
      assert EntryConflict(s, t, LinkRef(id));
    }
    if id :| id in t.routes && t.routes[id].Ensure? && RouteConflict(s, t, id, t.routes[id].value) {
      assert EntryConflict(s, t, RouteRef(id));
    }
    if id :| id in t.workloads && t.workloads[id].Ensure? && WorkloadConflict(s, t, id, t.workloads[id].value) {
      assert EntryConflict(s, t, WorkloadRef(id));
    }
    if key :| key in t.configs && t.configs[key].Ensure? && !DeviceDue(s, t, key.0) {
      assert key == (key.0, key.1);
      assert EntryConflict(s, t, ConfigRef(key.0, key.1));
    }
  }

  /** A device ensured that is as asked for is there, so the owners of configuration need not be asked
      for as well. */
  lemma MetEntries(s: Snapshot, t: Target)
    ensures Meets(s, t) <==> forall r :: r in Entries(t) ==> EntryMet(s, t, r)
  {
    hide DeviceMet, LinkMet, RouteMet, WorkloadMet, PolicyMet, Entries;
    EntriesAre(t);
    if forall r :: r in Entries(t) ==> EntryMet(s, t, r) {
      forall id | id in t.devices ensures DeviceMet(s, id, t.devices[id]) { assert EntryMet(s, t, DeviceRef(id)); }
      forall id | id in t.links ensures LinkMet(s, id, t.links[id]) { assert EntryMet(s, t, LinkRef(id)); }
      forall id | id in t.routes ensures RouteMet(s, id, t.routes[id]) { assert EntryMet(s, t, RouteRef(id)); }
      forall id | id in t.workloads ensures WorkloadMet(s, id, t.workloads[id]) {
        assert EntryMet(s, t, WorkloadRef(id));
      }
      forall id | id in t.policies ensures PolicyMet(s, id, t.policies[id]) { assert EntryMet(s, t, PolicyRef(id)); }
      forall key | key in t.configs ensures ConfigMet(s, key, t.configs[key]) {
        assert key == (key.0, key.1);
        assert EntryMet(s, t, ConfigRef(key.0, key.1));
        OwnerThere(s, t, key.0);
      }
    }
  }

  lemma OwnerThere(s: Snapshot, t: Target, id: Id)
    requires id in t.devices ==> DeviceMet(s, id, t.devices[id])
    ensures DeviceDue(s, t, id) <==> DeviceThere(s, id)
  {
  }

  lemma EntryWithin(ctx: Context, s: Snapshot, t: Target, r: Ref)
    requires Derivable(ctx, s, t) && r in Entries(t)
    ensures EntryOps(ctx, s, t, r).value <= DerivedOps(ctx, s, t)
  {
    hide EntryOps, Entries;
  }

  /** Nothing is left to derive exactly where everything is as the target asks for. */
  lemma NothingLeftIffMet(ctx: Context, s: Snapshot, t: Target)
    ensures Derivable(ctx, s, t) && DerivedOps(ctx, s, t) == {} <==> Meets(s, t)
  {
    hide EntryOps, EntryMet, Meets, Entries, EntryConflict;
    MetEntries(s, t);
    forall r ensures EntryOps(ctx, s, t, r) == Some({}) <==> EntryMet(s, t, r) { EntryMeans(ctx, s, t, r); }
    if Derivable(ctx, s, t) && DerivedOps(ctx, s, t) == {} {
      forall r | r in Entries(t) ensures EntryMet(s, t, r) {
        EntryWithin(ctx, s, t, r);
        assert EntryOps(ctx, s, t, r).value == {};
      }
    }
  }

  /** So derivation lists nothing exactly where everything is as the target asks for. */
  lemma NothingDerivedIffMet(ctx: Context, s: Snapshot, t: Target, naming: Naming)
    ensures Derives(ctx, s, t, naming, []) <==> Meets(s, t)
  {
    hide Derivable, DerivedOps, Meets;
    NothingLeftIffMet(ctx, s, t);
    assert Derivable(ctx, s, t) && DerivedOps(ctx, s, t) != {} ==> exists op :: op in DerivedOps(ctx, s, t);
  }
}
