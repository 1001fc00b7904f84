/** Derivation converges: once every derived operation has been applied, in whatever order was
    accepted, deriving again from the snapshot reached yields nothing more to do. */
module Convergence {
  import opened Wrappers
  import opened Sorting
  import opened Snapshots
  import opened Operations
  import opened Evaluate
  import opened Derivation
  import opened Goals

  /** Applying a list of operations, every one accepted. */
  ghost function Applied(ctx: Context, s: Snapshot, xs: seq<Operation>): Option<Snapshot> {
    if xs == [] then Some(s)
    else
      match Applied(ctx, s, xs[..|xs| - 1])
      case None => None
      case Some(m) => match Apply(ctx, m, xs[|xs| - 1]) case Ok(u) => Some(u) case Err(_) => None
  }

  // ----- which targets converge -----

  predicate DevicePlain(want: Desired<Device>) { want.Ensure? ==> CanonicalDevice(want.value) == want.value }

  /** A state that only removal reaches is not asked for, unless the device is in it already. */
  predicate DeviceStateKept(cur: Option<Device>, want: Desired<Device>) {
    want.Ensure? && want.value.spec.state in {Removed, Absent} ==>
      InService(cur) && cur.value.spec.state == want.value.spec.state
  }

  predicate DeviceReservedKept(cur: Option<Device>, want: Desired<Device>) {
    want.Ensure? && InService(cur) ==> cur.value.spec.reserved == want.value.spec.reserved
  }

  predicate LinkPlain(want: Desired<LinkSpec>) {
    want.Ensure? ==> SortUnique(want.value.transit) == want.value.transit
  }

  predicate LinkReservedKept(cur: Option<Link>, want: Desired<LinkSpec>) {
    want.Ensure? && cur.Some? && cur.value.state != Removed ==> cur.value.spec.reserved == want.value.reserved
  }

  predicate DeviceModest(cur: Option<Device>, want: Desired<Device>) {
    DevicePlain(want) && DeviceStateKept(cur, want) && DeviceReservedKept(cur, want)
  }

  predicate LinkModest(cur: Option<Link>, want: Desired<LinkSpec>) {
    LinkPlain(want) && LinkReservedKept(cur, want)
  }

  /** The target is in canonical form. */
  ghost predicate Plain(t: Target) {
    && (forall id :: id in t.devices ==> DevicePlain(t.devices[id]))
    && (forall id :: id in t.links ==> LinkPlain(t.links[id]))
    && (forall id :: id in t.workloads && t.workloads[id].Ensure? ==>
          CanonicalWorkload(t.workloads[id].value) == t.workloads[id].value)
  }

  /** The target leaves reserved capacities alone, asks for no device state that only removal
      reaches, and for no configuration on a device it removes. */
  ghost predicate Reachable(s: Snapshot, t: Target) {
    && (forall id :: id in t.devices ==>
          DeviceReservedKept(At(s.devices, id), t.devices[id]) && DeviceStateKept(At(s.devices, id), t.devices[id]))
    && (forall id :: id in t.links ==> LinkReservedKept(At(s.links, id), t.links[id]))
    && (forall k :: k in t.configs && t.configs[k].Ensure? ==> KeepsDevice(t, k.0))
  }

  ghost predicate Modest(s: Snapshot, t: Target) { Plain(t) && Reachable(s, t) }

  lemma DeviceIsModest(s: Snapshot, t: Target, id: Id)
    requires Modest(s, t) && id in t.devices
    ensures DeviceModest(At(s.devices, id), t.devices[id])
  {
  }

  lemma LinkIsModest(s: Snapshot, t: Target, id: Id)
    requires Modest(s, t) && id in t.links
    ensures LinkModest(At(s.links, id), t.links[id])
  {
  }

  predicate KeepsDevice(t: Target, device: Id) { device in t.devices ==> t.devices[device].Ensure? }

  // ----- whose operations they are -----

  /** The operations of an entry write that entity, and differ in kind. */
  ghost predicate Shape(r: Ref, ops: set<Operation>) {
    && (forall op :: op in ops ==> WriteRef(op) == r)
    && (forall a, b :: a in ops && b in ops && a.kind == b.kind ==> a == b)
  }

  /** The device operation of a kind that an entry can emit. */
  function DeviceByKind(id: Id, want: Desired<Device>, k: Kind): Operation {
    if want.Ensure? && k == DeviceAdd then DeviceAddOp(id, want.value)
    else if want.Ensure? && k == DeviceSetCapacity then DeviceCapacityOp(id, want.value.spec)
    else if want.Ensure? && k == DeviceSetWindows then DeviceWindowsOp(id, want.value)
    else DeviceOp(k, id)
  }

  lemma DeviceEntryMeans(ctx: Context, id: Id, cur: Option<Device>, want: Desired<Device>, op: Operation)
    requires DeviceEntry(ctx, id, cur, want).Some? && op in DeviceEntry(ctx, id, cur, want).value
    ensures AreaOf(op.kind) == Devices && op.device == id && op == DeviceByKind(id, want, op.kind)
  {
    hide SameFixedFields, DeviceOp, DeviceAddOp, DeviceCapacityOp, DeviceWindowsOp, StateKinds, RemovalKinds;
    if InService(cur) {
      StateKindsOnly(ctx.drainFirst, cur.value.spec.state, if want.Ensure? then want.value.spec.state else Removed);
    }
  }

  lemma DeviceShape(ctx: Context, id: Id, cur: Option<Device>, want: Desired<Device>)
    requires DeviceEntry(ctx, id, cur, want).Some?
    ensures Shape(DeviceRef(id), DeviceEntry(ctx, id, cur, want).value)
  {
    hide DeviceEntry, DeviceByKind;
    var ops := DeviceEntry(ctx, id, cur, want).value;
    forall op | op in ops ensures WriteRef(op) == DeviceRef(id) && op == DeviceByKind(id, want, op.kind) {
      DeviceEntryMeans(ctx, id, cur, want, op);
    }
  }

  lemma LinkShape(s: Snapshot, t: Target, id: Id, want: Desired<LinkSpec>)
    requires LinkEntry(s, t, id, want).Some?
    ensures Shape(LinkRef(id), LinkEntry(s, t, id, want).value)
  {
    hide HasDevice, LinkAddOp, LinkRemoveOp, LinkCapacityOp;
  }

  lemma RouteShape(s: Snapshot, t: Target, id: Id, want: Desired<Route>)
    requires RouteEntry(s, t, id, want).Some? && want.Ensure?
    ensures Shape(RouteRef(id), RouteEntry(s, t, id, want).value)
  {
    hide HasDevice, HasPath, RouteAddOp, RoutePathOp, RouteStateOp;
  }

  lemma WorkloadShape(s: Snapshot, t: Target, id: Id, want: Desired<Workload>)
    requires WorkloadEntry(s, t, id, want).Some?
    ensures Shape(WorkloadRef(id), WorkloadEntry(s, t, id, want).value)
  {
    hide HasBindings, WorkloadAddOp, WorkloadRemoveOp, BindingsOp, RequirementsOp;
    var ops := WorkloadEntry(s, t, id, want).value;
    forall op | op in ops ensures WriteRef(op) == WorkloadRef(id) {
    }
  }

  lemma PolicyShape(s: Snapshot, id: Id, want: Desired<Policy>)
    requires PolicyEntry(s, id, want).Some?
    ensures Shape(PolicyRef(id), PolicyEntry(s, id, want).value)
  {
    hide PolicyBindOp, PolicyUnbindOp;
  }

  lemma ConfigShape(s: Snapshot, t: Target, key: (Id, Id), want: Desired<Code>)
    requires ConfigEntry(s, t, key, want).Some?
    ensures Shape(ConfigRef(key.0, key.1), ConfigEntry(s, t, key, want).value)
  {
    hide HasDevice, ConfigSetOp, ConfigClearOp;
  }

  /** The target removes a route there is. */
  predicate Withdrawn(s: Snapshot, t: Target, route: Id) {
    route in s.routes && route in t.routes && t.routes[route].Remove?
  }

  /** The operation takes a withdrawn route out of a workload. */
  ghost predicate Released(s: Snapshot, t: Target, op: Operation) {
    exists route :: Withdrawn(s, t, route) && op in ReleaseOps(s, route)
  }

  lemma ReleaseMeans(s: Snapshot, route: Id, op: Operation)
    requires op in ReleaseOps(s, route)
    ensures op.kind.WorkloadSetBindings? && op.workload in s.workloads
    ensures BindsRoute(s.workloads[op.workload].bindings, route)
    ensures op == BindingsOp(op.workload, Unbinding(s.workloads[op.workload].bindings, route))
  {
    hide Unbinding, BindsRoute;
  }

  /** The operations of an entry that write its own entity; the others release a route from
      workloads. */
  ghost function OwnOps(ctx: Context, s: Snapshot, t: Target, r: Ref): set<Operation> {
    match EntryOps(ctx, s, t, r)
    case None => {}
    case Some(ops) => set op | op in ops && WriteRef(op) == r
  }

  ghost function OwnKinds(ctx: Context, s: Snapshot, t: Target, r: Ref): set<Kind> {
    set op | op in OwnOps(ctx, s, t, r) :: op.kind
  }

  predicate IsRemoval(t: Target, r: Ref) { r.RouteRef? && r.route in t.routes && t.routes[r.route].Remove? }

  lemma RemovalShape(s: Snapshot, t: Target, id: Id, op: Operation)
    requires id in t.routes && t.routes[id].Remove?
    requires RouteEntry(s, t, id, t.routes[id]).Some? && op in RouteEntry(s, t, id, t.routes[id]).value
    ensures id in s.routes && (op == RouteRemoveOp(id) || (op in ReleaseOps(s, id) && Released(s, t, op)))
  {
    hide RouteRemoveOp, ReleaseOps;
  }

  lemma EntryShape(ctx: Context, s: Snapshot, t: Target, r: Ref)
    requires r in Entries(t) && EntryOps(ctx, s, t, r).Some? && !IsRemoval(t, r)
    ensures Shape(r, EntryOps(ctx, s, t, r).value)
  {
    hide Shape, DeviceEntry, LinkEntry, RouteEntry, WorkloadEntry, PolicyEntry, ConfigEntry;
    match r
    case DeviceRef(id) => DeviceShape(ctx, id, At(s.devices, id), t.devices[id]);
    case LinkRef(id) => LinkShape(s, t, id, t.links[id]);
    case RouteRef(id) => RouteShape(s, t, id, t.routes[id]);
    case WorkloadRef(id) => WorkloadShape(s, t, id, t.workloads[id]);
    case PolicyRef(id) => PolicyShape(s, id, t.policies[id]);
    case ConfigRef(owner, key) => ConfigShape(s, t, (owner, key), t.configs[(owner, key)]);
  }

  lemma OwnShape(ctx: Context, s: Snapshot, t: Target, r: Ref)
    requires r in Entries(t) && EntryOps(ctx, s, t, r).Some?
    ensures Shape(r, OwnOps(ctx, s, t, r))
    ensures forall op :: op in EntryOps(ctx, s, t, r).value ==> op in OwnOps(ctx, s, t, r) || Released(s, t, op)
    ensures !IsRemoval(t, r) ==> OwnOps(ctx, s, t, r) == EntryOps(ctx, s, t, r).value
    ensures IsRemoval(t, r) ==> OwnOps(ctx, s, t, r) == if r.route in s.routes then {RouteRemoveOp(r.route)} else {}
  {
    hide Entries, RouteRemoveOp, ReleaseOps, Released, DeviceEntry, LinkEntry, WorkloadEntry, PolicyEntry, ConfigEntry;
    if IsRemoval(t, r) {
      forall op | op in EntryOps(ctx, s, t, r).value
        ensures op == RouteRemoveOp(r.route)
          || (op in ReleaseOps(s, r.route) && Released(s, t, op) && WriteRef(op) != r)
      {
        RemovalShape(s, t, r.route, op);
        if op != RouteRemoveOp(r.route) { ReleaseMeans(s, r.route, op); }
      }
    } else {
      EntryShape(ctx, s, t, r);
    }
  }

  ghost predicate From(ctx: Context, s: Snapshot, t: Target, xs: seq<Operation>) {
    && Derivable(ctx, s, t) && NoRepeat(xs)
    && forall op :: op in xs ==> op in DerivedOps(ctx, s, t)
  }

  /** A derived operation comes from the entry of the entity it writes, or releases a route. */
  lemma Origin(ctx: Context, s: Snapshot, t: Target, op: Operation)
    requires Derivable(ctx, s, t) && op in DerivedOps(ctx, s, t)
    ensures op in OwnOps(ctx, s, t, WriteRef(op)) || Released(s, t, op)
    ensures op in OwnOps(ctx, s, t, WriteRef(op)) ==> WriteRef(op) in Entries(t)
  {
    hide EntryOps, Entries, Released;
    var r :| r in Entries(t) && op in EntryOps(ctx, s, t, r).value;
    OwnShape(ctx, s, t, r);
    if op in OwnOps(ctx, s, t, WriteRef(op)) { OwnListed(ctx, s, t, WriteRef(op)); }
  }

  lemma OwnListed(ctx: Context, s: Snapshot, t: Target, r: Ref)
    requires OwnOps(ctx, s, t, r) != {}
    ensures r in Entries(t)
  {
    hide DeviceEntry, LinkEntry, RouteEntry, WorkloadEntry, PolicyEntry, ConfigEntry;
  }

  lemma ReleasedWrites(s: Snapshot, t: Target, op: Operation)
    requires Released(s, t, op)
    ensures op.kind.WorkloadSetBindings? && op.workload in s.workloads && WriteRef(op) == WorkloadRef(op.workload)
  {
    hide ReleaseOps;
    var route :| Withdrawn(s, t, route) && op in ReleaseOps(s, route);
    ReleaseMeans(s, route, op);
  }

  lemma FromPrefix(ctx: Context, s: Snapshot, t: Target, xs: seq<Operation>)
    requires From(ctx, s, t, xs) && xs != []
    ensures From(ctx, s, t, xs[..|xs| - 1])
  {
  }

  /** The kinds already applied to one entity. */
  ghost function Done(xs: seq<Operation>, r: Ref): set<Kind> {
    set i | 0 <= i < |xs| && WriteRef(xs[i]) == r :: xs[i].kind
  }

  lemma DoneNext(xs: seq<Operation>, r: Ref)
    requires xs != []
    ensures var n := |xs| - 1;
      Done(xs, r) == Done(xs[..n], r) + (if WriteRef(xs[n]) == r then {xs[n].kind} else {})
  {
    var n := |xs| - 1;
    forall k ensures k in Done(xs, r) <==> k in Done(xs[..n], r) || (WriteRef(xs[n]) == r && k == xs[n].kind) {
      if k in Done(xs[..n], r) {
        var i :| 0 <= i < n && WriteRef(xs[..n][i]) == r && xs[..n][i].kind == k;
        assert xs[i] == xs[..n][i];
      }
      if k in Done(xs, r) {
        var i :| 0 <= i < |xs| && WriteRef(xs[i]) == r && xs[i].kind == k;
        if i < n { assert xs[..n][i] == xs[i]; }
      }
    }
  }

  /** The next operation is of a kind not yet applied to its entity; only bindings are changed more
      than once. */
  lemma DoneFresh(ctx: Context, s: Snapshot, t: Target, xs: seq<Operation>)
    requires From(ctx, s, t, xs) && xs != []
    ensures var op := xs[|xs| - 1]; op.kind in Done(xs[..|xs| - 1], WriteRef(op)) ==> op.kind.WorkloadSetBindings?
  {
    hide Released, OwnOps;
    var n := |xs| - 1;
    var op := xs[n];
    if op.kind in Done(xs[..n], WriteRef(op)) && !op.kind.WorkloadSetBindings? {
      var i :| 0 <= i < n && WriteRef(xs[..n][i]) == WriteRef(op) && xs[..n][i].kind == op.kind;
      assert xs[i] == xs[..n][i] && xs[i] in xs && op in xs;
      OwnUnlessBindings(ctx, s, t, op);
      OwnUnlessBindings(ctx, s, t, xs[i]);
      OwnIsEntry(ctx, s, t, WriteRef(op));
      OwnShape(ctx, s, t, WriteRef(op));
    }
  }

  lemma OwnIsEntry(ctx: Context, s: Snapshot, t: Target, r: Ref)
    requires OwnOps(ctx, s, t, r) != {}
    ensures r in Entries(t) && EntryOps(ctx, s, t, r).Some?
  {
    OwnListed(ctx, s, t, r);
  }

  lemma OwnUnlessBindings(ctx: Context, s: Snapshot, t: Target, op: Operation)
    requires Derivable(ctx, s, t) && op in DerivedOps(ctx, s, t) && !op.kind.WorkloadSetBindings?
    ensures op in OwnOps(ctx, s, t, WriteRef(op))
  {
    hide Released, OwnOps, DerivedOps, Derivable;
    Origin(ctx, s, t, op);
    if Released(s, t, op) { ReleasedWrites(s, t, op); }
  }

  /** When everything derived has been applied, every kind of the entry is done. */
  lemma DoneAll(ctx: Context, s: Snapshot, t: Target, xs: seq<Operation>, r: Ref)
    requires From(ctx, s, t, xs) && (forall op :: op in DerivedOps(ctx, s, t) ==> op in xs) && r in Entries(t)
    ensures OwnKinds(ctx, s, t, r) <= Done(xs, r) <= OwnKinds(ctx, s, t, r) + {WorkloadSetBindings}
    ensures !r.WorkloadRef? ==> Done(xs, r) == OwnKinds(ctx, s, t, r)
  {
    hide EntryOps, Entries;
    DoneWithin(ctx, s, t, xs, r);
    forall k | k in OwnKinds(ctx, s, t, r) ensures k in Done(xs, r) {
      var op :| op in OwnOps(ctx, s, t, r) && op.kind == k;
      assert op in DerivedOps(ctx, s, t) && op in xs;
      var i :| 0 <= i < |xs| && xs[i] == op;
    }
  }

  /** Only kinds of the entry are ever done, apart from changes of bindings, and nothing is done where
      there is no entry. */
  lemma DoneWithin(ctx: Context, s: Snapshot, t: Target, xs: seq<Operation>, r: Ref)
    requires From(ctx, s, t, xs)
    ensures Done(xs, r) <= OwnKinds(ctx, s, t, r) + {WorkloadSetBindings}
    ensures !r.WorkloadRef? ==> Done(xs, r) <= OwnKinds(ctx, s, t, r)
    ensures r !in Entries(t) ==> OwnKinds(ctx, s, t, r) == {}
  {
    hide OwnOps, Released, Entries;
    if OwnOps(ctx, s, t, r) != {} { OwnListed(ctx, s, t, r); }
    forall k | k in Done(xs, r)
      ensures k in OwnKinds(ctx, s, t, r) || (k.WorkloadSetBindings? && r.WorkloadRef?)
    {
      var i :| 0 <= i < |xs| && WriteRef(xs[i]) == r && xs[i].kind == k;
      if k.WorkloadSetBindings? {
        assert r == WorkloadRef(xs[i].workload);
      } else {
        OwnUnlessBindings(ctx, s, t, xs[i]);
      }
    }
  }

  // ----- one applied operation, seen from one entity -----

  lemma AcceptedMeans(ctx: Context, m: Snapshot, op: Operation, u: Snapshot)
    requires Apply(ctx, m, op) == Ok(u)
    ensures KindObjection(ctx, m, op) == None && u == Effect(m, op) && Canonical(u) == u
  {
    hide ExclusionGate, WindowGate, KindObjection, Mutate, Canonical, Valid;
    CanonicalTwice(Mutate(m, op));
  }

  function MapSome<T>(v: Option<T>, f: T -> T): Option<T> { match v case None => None case Some(x) => Some(f(x)) }

  lemma DeviceSeen(m: Snapshot, op: Operation, id: Id)
    requires Canonical(m) == m
    ensures At(Effect(m, op).devices, id) ==
      if AreaOf(op.kind) == Devices && op.device == id then MapSome(NextDevice(op, At(m.devices, id)), CanonicalDevice)
      else At(m.devices, id)
  {
    hide CanonicalDevice, NextDevice, CanonicalLinks, CanonicalWorkloads;
    assert CanonicalDevices(m.devices) == m.devices;
    if id in m.devices { assert CanonicalDevices(m.devices)[id] == CanonicalDevice(m.devices[id]); }
  }

  lemma LinkSeen(m: Snapshot, op: Operation, id: Id)
    requires Canonical(m) == m
    ensures At(Effect(m, op).links, id) ==
      if AreaOf(op.kind) == Links && op.link == id then MapSome(NextLink(op, At(m.links, id)), CanonicalLink)
      else At(m.links, id)
  {
    hide CanonicalLink, NextLink, CanonicalDevices, CanonicalWorkloads;
    assert CanonicalLinks(m.links) == m.links;
    if id in m.links { assert CanonicalLinks(m.links)[id] == CanonicalLink(m.links[id]); }
  }

  lemma WorkloadSeen(m: Snapshot, op: Operation, id: Id)
    requires Canonical(m) == m
    ensures At(Effect(m, op).workloads, id) ==
      if AreaOf(op.kind) == Workloads && op.workload == id then
        MapSome(NextWorkload(op, At(m.workloads, id)), CanonicalWorkload)
      else At(m.workloads, id)
  {
    hide CanonicalWorkload, NextWorkload, CanonicalDevices, CanonicalLinks;
    assert CanonicalWorkloads(m.workloads) == m.workloads;
    if id in m.workloads { assert CanonicalWorkloads(m.workloads)[id] == CanonicalWorkload(m.workloads[id]); }
  }

  lemma RouteSeen(m: Snapshot, op: Operation, id: Id)
    ensures At(Effect(m, op).routes, id) ==
      if AreaOf(op.kind) == Routes && op.route == id then NextRoute(op, At(m.routes, id)) else At(m.routes, id)
  {
    hide NextRoute, CanonicalDevices, CanonicalLinks, CanonicalWorkloads;
  }

  lemma PolicySeen(m: Snapshot, op: Operation, id: Id)
    ensures At(Effect(m, op).policies, id) ==
      if AreaOf(op.kind) == Policies && op.policy == id then NextPolicy(op) else At(m.policies, id)
  {
    hide NextPolicy, CanonicalDevices, CanonicalLinks, CanonicalWorkloads;
  }

  lemma ConfigSeen(m: Snapshot, op: Operation, key: (Id, Id))
    ensures At(Effect(m, op).configs, key) ==
      if AreaOf(op.kind) == Configs && (op.device, op.configKey) == key then NextConfig(op, At(m.configs, key))
      else At(m.configs, key)
  {
    hide NextConfig, CanonicalDevices, CanonicalLinks, CanonicalWorkloads;
  }

  // ----- devices -----

  function PhaseState(now: EntityState, ks: set<Kind>): EntityState {
    if DeviceRemove in ks then Removed
    else if EnterMaintenance in ks then InMaintenance
    else if DrainResource in ks then Draining
    else if ExitMaintenance in ks then Present
    else now
  }

  /** What an entity looks like when operations of these kinds have been applied for its entry. */
  function DevicePhase(cur: Option<Device>, want: Desired<Device>, ks: set<Kind>): Option<Device> {
    if want.Ensure? && DeviceAdd in ks then Some(want.value)
    else
      match cur
      case None => None
      case Some(c) =>
        var d := if want.Ensure? then want.value else c;
        Some(Device(
          c.spec.(capacity := if DeviceSetCapacity in ks then d.spec.capacity else c.spec.capacity,
                  state := PhaseState(c.spec.state, ks)),
          if DeviceSetWindows in ks then d.exclusions else c.exclusions,
          if DeviceSetWindows in ks then d.maintenance else c.maintenance))
  }

  predicate DeviceAt(cur: Option<Device>, want: Desired<Device>, ks: set<Kind>, v: Option<Device>) {
    && v == DevicePhase(cur, want, ks)
    // a device that has to leave maintenance to be drained cannot be drained first
    && (cur.Some? && cur.value.spec.state == InMaintenance && DrainResource in ks ==> ExitMaintenance in ks)
  }

  /** The kinds an entry emits. */
  function DeviceKinds(ctx: Context, cur: Option<Device>, want: Desired<Device>): set<Kind> {
    match want
    case Remove => if InService(cur) then RemovalKinds(ctx.drainFirst, cur.value.spec.state) else {}
    case Ensure(d) =>
      if !InService(cur) then {DeviceAdd}
      else
        var c := cur.value;
        (if c.spec.capacity != d.spec.capacity || c.spec.reserved != d.spec.reserved then {DeviceSetCapacity} else {})
        + (if c.exclusions != d.exclusions || c.maintenance != d.maintenance then {DeviceSetWindows} else {})
        + StateKinds(ctx.drainFirst, c.spec.state, d.spec.state)
  }

  lemma DeviceKindsMean(ctx: Context, id: Id, cur: Option<Device>, want: Desired<Device>)
    requires DeviceEntry(ctx, id, cur, want).Some?
    ensures DeviceKinds(ctx, cur, want) == set op | op in DeviceEntry(ctx, id, cur, want).value :: op.kind
  {
    hide SameFixedFields, DeviceOp, DeviceAddOp, DeviceCapacityOp, DeviceWindowsOp, StateKinds, RemovalKinds;
    var ops := DeviceEntry(ctx, id, cur, want).value;
    forall k | k in DeviceKinds(ctx, cur, want) ensures exists op :: op in ops && op.kind == k {
      if want.Remove? || k == DeviceAdd
        || k in StateKinds(ctx.drainFirst, cur.value.spec.state, want.value.spec.state) {
        if want.Ensure? && !InService(cur) {
          assert DeviceAddOp(id, want.value) in ops;
        } else {
          assert DeviceOp(k, id) in ops;
        }
      } else if k == DeviceSetCapacity {
        assert DeviceCapacityOp(id, want.value.spec) in ops;
      } else {
        assert DeviceWindowsOp(id, want.value) in ops;
      }
    }
  }

  /** States follow the phases, because any other order of the state changes is rejected. */
  lemma StateNext(ctx: Context, now: EntityState, want: Desired<Device>, all: set<Kind>, ks: set<Kind>, op: Operation)
    requires all ==
      if want.Ensure? then StateKinds(ctx.drainFirst, now, want.value.spec.state) else RemovalKinds(ctx.drainFirst, now)
    requires now != Removed
    requires want.Ensure? ==> want.value.spec.state != Removed && (want.value.spec.state != Absent || now == Absent)
    requires op.kind in all && ks <= all && op.kind !in ks
    requires now == InMaintenance && DrainResource in ks ==> ExitMaintenance in ks
    requires StateObjection(ctx, PhaseState(now, ks), op) == None
    ensures PhaseState(now, ks + {op.kind}) ==
      (match op.kind
       case DeviceRemove => Removed
       case DrainResource => Draining
       case EnterMaintenance => InMaintenance
       case _ => Present)
    ensures now == InMaintenance && DrainResource in ks + {op.kind} ==> ExitMaintenance in ks + {op.kind}
  {
  }

  function StateOnly(ks: set<Kind>): set<Kind> { ks - {DeviceAdd, DeviceSetCapacity, DeviceSetWindows} }

  lemma PhaseStateOnly(now: EntityState, ks: set<Kind>)
    ensures PhaseState(now, StateOnly(ks)) == PhaseState(now, ks)
  {
  }

  /** One more operation of the entry, accepted. */
  lemma DeviceNext(ctx: Context, cur: Option<Device>, want: Desired<Device>, ks: set<Kind>, v: Option<Device>, id: Id,
                   op: Operation)
    requires op.kind in DeviceKinds(ctx, cur, want) && op == DeviceByKind(id, want, op.kind)
    requires ks <= DeviceKinds(ctx, cur, want) && op.kind !in ks
    requires DeviceModest(cur, want) && (cur.Some? ==> CanonicalDevice(cur.value) == cur.value)
    requires (want.Ensure? && cur.Some? ==> InService(cur)) && DeviceAt(cur, want, ks, v)
    requires if op.kind.DeviceAdd? then v == None else v.Some? && StateObjection(ctx, v.value.spec.state, op) == None
    ensures DeviceAt(cur, want, ks + {op.kind}, MapSome(NextDevice(op, v), CanonicalDevice))
  {
    hide SortWindows, DeviceOp, DeviceAddOp, DeviceCapacityOp, DeviceWindowsOp, SameFixedFields, StateObjection,
      StateKinds, RemovalKinds, PhaseState;
    if InService(cur) {
      var now := cur.value.spec.state;
      var all :=
        if want.Ensure? then StateKinds(ctx.drainFirst, now, want.value.spec.state)
        else RemovalKinds(ctx.drainFirst, now);
      StateKindsOnly(ctx.drainFirst, now, if want.Ensure? then want.value.spec.state else now);
      PhaseStateOnly(now, ks);
      PhaseStateOnly(now, ks + {op.kind});
      if op.kind in all {
        StateNext(ctx, now, want, all, StateOnly(ks), op);
        assert StateOnly(ks + {op.kind}) == StateOnly(ks) + {op.kind};
      } else {
        assert StateOnly(ks + {op.kind}) == StateOnly(ks);
      }
    }
  }

  lemma StateKindsOnly(drainFirst: bool, now: EntityState, want: EntityState)
    ensures StateKinds(drainFirst, now, want) <= {DeviceRemove, DrainResource, EnterMaintenance, ExitMaintenance}
    ensures RemovalKinds(drainFirst, now) <= {DeviceRemove, DrainResource}
  {
  }

  /** Everything the entry asked for has been applied: the entry is satisfied. */
  lemma DeviceSettled(ctx: Context, id: Id, cur: Option<Device>, want: Desired<Device>, v: Option<Device>)
    requires DeviceEntry(ctx, id, cur, want).Some? && DeviceModest(cur, want)
    requires DeviceAt(cur, want, DeviceKinds(ctx, cur, want), v)
    ensures DeviceEntry(ctx, id, v, want) == Some({})
  {
    hide DeviceEntry, DeviceModest, DeviceAt, DeviceKinds;
    if want.Ensure? { EnsuredSettled(ctx, id, cur, want, v); } else { RemovedSettled(ctx, id, cur, want, v); }
  }

  lemma RemovedSettled(ctx: Context, id: Id, cur: Option<Device>, want: Desired<Device>, v: Option<Device>)
    requires want.Remove? && DeviceAt(cur, want, DeviceKinds(ctx, cur, want), v)
    ensures DeviceEntry(ctx, id, v, want) == Some({})
  {
    hide SortWindows, DeviceOp, CanonicalDevice;
    if InService(cur) { PhaseStateOnly(cur.value.spec.state, DeviceKinds(ctx, cur, want)); }
  }

  lemma EnsuredSettled(ctx: Context, id: Id, cur: Option<Device>, want: Desired<Device>, v: Option<Device>)
    requires want.Ensure? && DeviceEntry(ctx, id, cur, want).Some? && DeviceModest(cur, want)
    requires DeviceAt(cur, want, DeviceKinds(ctx, cur, want), v)
    ensures DeviceEntry(ctx, id, v, want) == Some({})
  {
    hide SortWindows, DeviceOp, DeviceAddOp, DeviceCapacityOp, DeviceWindowsOp, CanonicalDevice, StateKinds,
      RemovalKinds, PhaseState;
    var ks, goal := DeviceKinds(ctx, cur, want), want.value.spec.state;
    if InService(cur) {
      var now := cur.value.spec.state;
      StateSettled(ctx.drainFirst, now, want);
      StateKindsOnly(ctx.drainFirst, now, goal);
      PhaseStateOnly(now, ks);
      assert StateOnly(ks) == StateKinds(ctx.drainFirst, now, goal);
    }
    NoPhase(ctx.drainFirst, goal);
    assert ForKinds(id, {}) == {};
  }

  lemma NoPhase(drainFirst: bool, now: EntityState)
    ensures PhaseState(now, {}) == now && StateKinds(drainFirst, now, now) == {}
  {
  }

  lemma StateSettled(drainFirst: bool, now: EntityState, want: Desired<Device>)
    requires now != Removed
    requires want.Ensure? ==> want.value.spec.state != Removed && (want.value.spec.state != Absent || now == Absent)
    ensures want.Ensure? ==>
      var after := PhaseState(now, StateKinds(drainFirst, now, want.value.spec.state));
      after != Removed && StateKinds(drainFirst, after, want.value.spec.state) == {}
    ensures PhaseState(now, RemovalKinds(drainFirst, now)) == Removed
  {
  }

  ghost predicate DeviceHere(s: Snapshot, t: Target, xs: seq<Operation>, id: Id, v: Option<Device>) {
    if id in t.devices then DeviceAt(At(s.devices, id), t.devices[id], Done(xs, DeviceRef(id)), v)
    else v == At(s.devices, id)
  }

  // ----- links -----

  function LinkPhase(cur: Option<Link>, want: Desired<LinkSpec>, ks: set<Kind>): Option<Link> {
    if want.Ensure? && LinkAdd in ks then Some(Link(want.value, Present))
    else
      match cur
      case None => None
      case Some(c) => Some(Link(
        c.spec.(capacity := if LinkSetCapacity in ks && want.Ensure? then want.value.capacity else c.spec.capacity),
        if LinkRemove in ks then Removed else c.state))
  }

  ghost predicate LinkHere(s: Snapshot, t: Target, xs: seq<Operation>, id: Id, v: Option<Link>) {
    if id in t.links then v == LinkPhase(At(s.links, id), t.links[id], Done(xs, LinkRef(id))) else v == At(s.links, id)
  }

  lemma LinkNextPhase(s: Snapshot, t: Target, id: Id, want: Desired<LinkSpec>, ks: set<Kind>, v: Option<Link>,
                      op: Operation)
    requires LinkEntry(s, t, id, want).Some? && op in LinkEntry(s, t, id, want).value && op.kind !in ks
    requires ks <= set o | o in LinkEntry(s, t, id, want).value :: o.kind
    requires LinkModest(At(s.links, id), want) && (id in s.links ==> CanonicalLink(s.links[id]) == s.links[id])
    requires v == LinkPhase(At(s.links, id), want, ks)
    ensures MapSome(NextLink(op, v), CanonicalLink) == LinkPhase(At(s.links, id), want, ks + {op.kind})
  {
    hide SortUnique, HasDevice, LinkAddOp, LinkRemoveOp, LinkCapacityOp;
  }

  lemma LinkSettled(s: Snapshot, t: Target, id: Id, want: Desired<LinkSpec>, u: Snapshot)
    requires LinkEntry(s, t, id, want).Some? && LinkModest(At(s.links, id), want)
    requires var ks := set o | o in LinkEntry(s, t, id, want).value :: o.kind;
      At(u.links, id) == LinkPhase(At(s.links, id), want, ks)
    ensures LinkEntry(u, t, id, want) == Some({})
  {
    hide SortUnique, HasDevice, LinkAddOp, LinkRemoveOp, LinkCapacityOp;
    var entry := LinkEntry(s, t, id, want).value;
    var ks := set o | o in entry :: o.kind;
    if want.Ensure? && id !in s.links {
      assert LinkAddOp(id, want.value) in entry;
      assert LinkAdd in ks;
    }
  }

  // ----- routes -----

  function RoutePhase(cur: Option<Route>, want: Desired<Route>, ks: set<Kind>): Option<Route> {
    if want.Ensure? && RouteAdd in ks then Some(want.value)
    else if RouteRemove in ks then None
    else
      match cur
      case None => None
      case Some(c) =>
        var r := if want.Ensure? then want.value else c;
        Some(Route(if RouteSetPath in ks then r.spec else c.spec, if RouteSetState in ks then r.state else c.state))
  }

  ghost predicate RouteHere(s: Snapshot, t: Target, xs: seq<Operation>, id: Id, v: Option<Route>) {
    if id in t.routes then v == RoutePhase(At(s.routes, id), t.routes[id], Done(xs, RouteRef(id)))
    else v == At(s.routes, id)
  }

  lemma RouteNextPhase(s: Snapshot, t: Target, id: Id, want: Desired<Route>, ks: set<Kind>, v: Option<Route>,
                       op: Operation)
    requires RouteEntry(s, t, id, want).Some? && op in RouteEntry(s, t, id, want).value && WriteRef(op) == RouteRef(id)
    requires op.kind !in ks && ks <= set o | o in RouteEntry(s, t, id, want).value :: o.kind
    requires v == RoutePhase(At(s.routes, id), want, ks)
    ensures NextRoute(op, v) == RoutePhase(At(s.routes, id), want, ks + {op.kind})
  {
    hide HasDevice, HasPath, RouteAddOp, RoutePathOp, RouteStateOp, RouteRemoveOp, Unbinding, BindsRoute;
  }

  lemma RouteSettled(s: Snapshot, t: Target, id: Id, want: Desired<Route>, u: Snapshot)
    requires want.Ensure? && RouteEntry(s, t, id, want).Some?
    requires var ks := set o | o in RouteEntry(s, t, id, want).value :: o.kind;
      At(u.routes, id) == RoutePhase(At(s.routes, id), want, ks)
    ensures RouteEntry(u, t, id, want) == Some({})
  {
    hide HasDevice, HasPath, RouteAddOp, RoutePathOp, RouteStateOp;
    var entry, r := RouteEntry(s, t, id, want).value, want.value;
    var ks := set o | o in entry :: o.kind;
    if id !in s.routes {
      assert RouteAddOp(id, r) in entry;
      assert RouteAdd in ks;
    } else {
      var c := s.routes[id];
      if c.spec.path != r.spec.path || c.spec.policy != r.spec.policy {
        assert RoutePathOp(id, r) in entry;
        assert RouteSetPath in ks;
      }
      if c.state != r.state {
        assert RouteStateOp(id, r) in entry;
        assert RouteSetState in ks;
      }
    }
    assert RouteEntry(u, t, id, want).value == {};
  }

  // ----- workloads -----

  /** The bindings the last change of them in the run asks for. */
  ghost function LastBindings(xs: seq<Operation>, workload: Id): Option<seq<Binding>> {
    if xs == [] then None
    else
      var op := xs[|xs| - 1];
      if op.kind.WorkloadSetBindings? && op.workload == workload then Some(op.bindings)
      else LastBindings(xs[..|xs| - 1], workload)
  }

  /** The bindings a workload is left with. */
  ghost function FinalBindings(s: Snapshot, xs: seq<Operation>, workload: Id): seq<Binding>
    requires workload in s.workloads
  {
    match LastBindings(xs, workload) case None => s.workloads[workload].bindings case Some(bs) => SortBindings(bs)
  }

  function WorkloadPhase(cur: Option<Workload>, want: Option<Desired<Workload>>, ks: set<Kind>,
                         bound: Option<seq<Binding>>)
    : Option<Workload>
  {
    var wanted := if want.Some? && want.value.Ensure? then Some(want.value.value) else None;
    if wanted.Some? && WorkloadAdd in ks then wanted
    else if WorkloadRemove in ks then None
    else
      match cur
      case None => None
      case Some(c) =>
        var w := if wanted.Some? then wanted.value else c;
        Some(Workload(match bound case None => c.bindings case Some(bs) => SortBindings(bs),
                      if WorkloadSetRequirements in ks then w.requirements else c.requirements,
                      if WorkloadSetRequirements in ks then w.contract else c.contract))
  }

  ghost predicate WorkloadHere(s: Snapshot, t: Target, xs: seq<Operation>, id: Id, v: Option<Workload>) {
    v == WorkloadPhase(At(s.workloads, id), At(t.workloads, id), Done(xs, WorkloadRef(id)), LastBindings(xs, id))
  }

  /** One more change of the bindings, for whatever reason. */
  lemma BindingsNextPhase(cur: Option<Workload>, want: Option<Desired<Workload>>, ks: set<Kind>,
                          bound: Option<seq<Binding>>, v: Option<Workload>, op: Operation)
    requires op.kind.WorkloadSetBindings? && v.Some? && v == WorkloadPhase(cur, want, ks, bound)
    requires WorkloadAdd !in ks
    requires cur.Some? ==> CanonicalWorkload(cur.value) == cur.value
    requires want.Some? && want.value.Ensure? ==> CanonicalWorkload(want.value.value) == want.value.value
    ensures MapSome(NextWorkload(op, v), CanonicalWorkload) ==
      WorkloadPhase(cur, want, ks + {op.kind}, Some(op.bindings))
  {
    hide SortBindings, SortUnique;
  }

  /** One more operation of the entry that does not change the bindings. */
  lemma WorkloadNextPhase(s: Snapshot, t: Target, id: Id, want: Desired<Workload>, ks: set<Kind>,
                          bound: Option<seq<Binding>>, v: Option<Workload>, op: Operation)
    requires WorkloadEntry(s, t, id, want).Some? && op in WorkloadEntry(s, t, id, want).value && op.kind !in ks
    requires !op.kind.WorkloadSetBindings? && (op.kind.WorkloadSetRequirements? ==> v.Some?)
    requires ks <= (set o | o in WorkloadEntry(s, t, id, want).value :: o.kind) + {WorkloadSetBindings}
    requires want.Ensure? ==> CanonicalWorkload(want.value) == want.value
    requires id in s.workloads ==> CanonicalWorkload(s.workloads[id]) == s.workloads[id]
    requires v == WorkloadPhase(At(s.workloads, id), Some(want), ks, bound)
    ensures MapSome(NextWorkload(op, v), CanonicalWorkload) ==
      WorkloadPhase(At(s.workloads, id), Some(want), ks + {op.kind}, bound)
  {
    hide HasBindings, SortUnique, WorkloadAddOp, WorkloadRemoveOp, BindingsOp, RequirementsOp;
    if bound.Some? { SortBindingsTwice(bound.value); }
    hide SortBindings;
  }

  /** A workload entry is settled exactly when the bindings have come out as asked for. */
  lemma WorkloadSettled(s: Snapshot, t: Target, id: Id, want: Desired<Workload>, u: Snapshot, ks: set<Kind>,
                        bound: Option<seq<Binding>>)
    requires WorkloadEntry(s, t, id, want).Some?
    requires var own := set o | o in WorkloadEntry(s, t, id, want).value :: o.kind;
      own <= ks <= own + {WorkloadSetBindings}
    requires At(u.workloads, id) == WorkloadPhase(At(s.workloads, id), Some(want), ks, bound)
    ensures WorkloadEntry(u, t, id, want) == Some({}) <==>
      (id in s.workloads && want.Ensure? ==>
        (match bound case None => s.workloads[id].bindings case Some(bs) => SortBindings(bs)) == want.value.bindings)
  {
    hide HasBindings, WorkloadAddOp, WorkloadRemoveOp, BindingsOp, RequirementsOp, SortBindings;
    var entry := WorkloadEntry(s, t, id, want).value;
    if want == Remove {
      if id in s.workloads {
        assert WorkloadRemoveOp(id) in entry;
        assert WorkloadRemove in ks;
      }
    } else {
      var w := want.value;
      if id !in s.workloads {
        assert WorkloadAddOp(id, w) in entry;
        assert WorkloadAdd in ks;
        BindingsAgain(u, t, id, want);
      } else {
        var c := s.workloads[id];
        if c.requirements != w.requirements || c.contract != w.contract {
          assert RequirementsOp(id, w) in entry;
          assert WorkloadSetRequirements in ks;
        }
        assert WorkloadRemove !in ks && WorkloadAdd !in ks;
        BindingsAgain(u, t, id, want);
      }
    }
  }

  lemma BindingsAgain(u: Snapshot, t: Target, id: Id, want: Desired<Workload>)
    requires want.Ensure? && id in u.workloads && u.workloads[id].requirements == want.value.requirements
    requires u.workloads[id].contract == want.value.contract
    ensures WorkloadEntry(u, t, id, want) == Some({}) <==> u.workloads[id].bindings == want.value.bindings
  {
    hide BindingsOp, RequirementsOp;
    if u.workloads[id].bindings != want.value.bindings {
      assert BindingsOp(id, want.value.bindings) in WorkloadEntry(u, t, id, want).value;
    } else {
      assert WorkloadEntry(u, t, id, want).value == {};
    }
  }

  // ----- policies and configuration -----

  function PolicyPhase(cur: Option<Policy>, want: Desired<Policy>, ks: set<Kind>): Option<Policy> {
    if want.Ensure? && PolicyBind in ks then Some(want.value) else if PolicyUnbind in ks then None else cur
  }

  ghost predicate PolicyHere(s: Snapshot, t: Target, xs: seq<Operation>, id: Id, v: Option<Policy>) {
    if id in t.policies then v == PolicyPhase(At(s.policies, id), t.policies[id], Done(xs, PolicyRef(id)))
    else v == At(s.policies, id)
  }

  lemma PolicyNextPhase(s: Snapshot, id: Id, want: Desired<Policy>, ks: set<Kind>, op: Operation)
    requires PolicyEntry(s, id, want).Some? && op in PolicyEntry(s, id, want).value
    ensures NextPolicy(op) == PolicyPhase(At(s.policies, id), want, ks + {op.kind})
  {
    hide PolicyBindOp, PolicyUnbindOp;
  }

  lemma PolicySettled(s: Snapshot, id: Id, want: Desired<Policy>, u: Snapshot)
    requires PolicyEntry(s, id, want).Some?
    requires var ks := set o | o in PolicyEntry(s, id, want).value :: o.kind;
      At(u.policies, id) == PolicyPhase(At(s.policies, id), want, ks)
    ensures PolicyEntry(u, id, want) == Some({})
  {
    hide PolicyBindOp, PolicyUnbindOp;
    var entry := PolicyEntry(s, id, want).value;
    var ks := set o | o in entry :: o.kind;
    if want.Ensure? && At(s.policies, id) != Some(want.value) {
      assert PolicyBindOp(id, want.value) in entry;
      assert PolicyBind in ks;
    }
    if want == Remove && id in s.policies {
      assert PolicyUnbindOp(id) in entry;
      assert PolicyUnbind in ks;
    }
  }

  /** A configuration value, whatever its revision. */
  predicate ConfigAt(cur: Option<Config>, want: Desired<Code>, ks: set<Kind>, v: Option<Config>) {
    if want.Ensure? && ConfigSet in ks then v.Some? && v.value.value == want.value
    else if ConfigClear in ks then v == None
    else v == cur
  }

  ghost predicate ConfigHere(s: Snapshot, t: Target, xs: seq<Operation>, key: (Id, Id), v: Option<Config>) {
    if key in t.configs then ConfigAt(At(s.configs, key), t.configs[key], Done(xs, ConfigRef(key.0, key.1)), v)
    else v == At(s.configs, key)
  }

  lemma ConfigNextPhase(s: Snapshot, t: Target, key: (Id, Id), want: Desired<Code>, ks: set<Kind>, v: Option<Config>,
                        op: Operation)
    requires ConfigEntry(s, t, key, want).Some? && op in ConfigEntry(s, t, key, want).value
    ensures ConfigAt(At(s.configs, key), want, ks + {op.kind}, NextConfig(op, v))
  {
    hide HasDevice, ConfigSetOp, ConfigClearOp;
  }

  lemma ConfigSettled(s: Snapshot, t: Target, key: (Id, Id), want: Desired<Code>, u: Snapshot)
    requires ConfigEntry(s, t, key, want).Some? && (want.Ensure? ==> HasDevice(u, t, key.0))
    requires var ks := set o | o in ConfigEntry(s, t, key, want).value :: o.kind;
      ConfigAt(At(s.configs, key), want, ks, At(u.configs, key))
    ensures ConfigEntry(u, t, key, want) == Some({})
  {
    hide HasDevice, ConfigSetOp, ConfigClearOp;
    var entry := ConfigEntry(s, t, key, want).value;
    var ks := set o | o in entry :: o.kind;
    var cur := At(s.configs, key);
    if want.Ensure? && (cur == None || cur.value.value != want.value) {
      assert ConfigSetOp(key, want.value) in entry;
      assert ConfigSet in ks;
    }
    if want == Remove && cur.Some? {
      assert ConfigClearOp(key) in entry;
      assert ConfigClear in ks;
    }
  }

  // ----- one step of a run -----

  /** The run so far is `xs` without its last operation and led to `m`; the last one leads to `u`. */
  ghost predicate OneStep(ctx: Context, s: Snapshot, t: Target, xs: seq<Operation>, m: Snapshot, u: Snapshot) {
    && Modest(s, t) && Canonical(s) == s && Canonical(m) == m && From(ctx, s, t, xs)
    && xs != [] && Apply(ctx, m, xs[|xs| - 1]) == Ok(u)
  }

  lemma CanonicalParts(s: Snapshot)
    requires Canonical(s) == s
    ensures forall id :: id in s.devices ==> CanonicalDevice(s.devices[id]) == s.devices[id]
    ensures forall id :: id in s.links ==> CanonicalLink(s.links[id]) == s.links[id]
    ensures forall id :: id in s.workloads ==> CanonicalWorkload(s.workloads[id]) == s.workloads[id]
  {
    hide CanonicalDevice, CanonicalLink, CanonicalWorkload;
    assert s.devices == CanonicalDevices(s.devices);
    assert s.links == CanonicalLinks(s.links);
    assert s.workloads == CanonicalWorkloads(s.workloads);
    forall id | id in s.devices ensures CanonicalDevice(s.devices[id]) == s.devices[id] {
      assert CanonicalDevices(s.devices)[id] == CanonicalDevice(s.devices[id]);
    }
    forall id | id in s.links ensures CanonicalLink(s.links[id]) == s.links[id] {
      assert CanonicalLinks(s.links)[id] == CanonicalLink(s.links[id]);
    }
    forall id | id in s.workloads ensures CanonicalWorkload(s.workloads[id]) == s.workloads[id] {
      assert CanonicalWorkloads(s.workloads)[id] == CanonicalWorkload(s.workloads[id]);
    }
  }

  /** What a step that writes `r` brings along: where it comes from and what was done before. */
  lemma StepFacts(ctx: Context, s: Snapshot, t: Target, xs: seq<Operation>, m: Snapshot, u: Snapshot, r: Ref)
    requires OneStep(ctx, s, t, xs, m, u)
    ensures var n := |xs| - 1; var op := xs[n];
      && u == Effect(m, op) && KindObjection(ctx, m, op) == None
      && Done(xs, r) == (if WriteRef(op) == r then Done(xs[..n], r) + {op.kind} else Done(xs[..n], r))
      && Done(xs[..n], r) <= OwnKinds(ctx, s, t, r) + {WorkloadSetBindings}
      && (!r.WorkloadRef? ==> Done(xs[..n], r) <= OwnKinds(ctx, s, t, r))
      && (WriteRef(op) == r && !op.kind.WorkloadSetBindings? ==>
            r in Entries(t) && op in OwnOps(ctx, s, t, r) && op.kind !in Done(xs[..n], r))
  {
    hide Modest, OwnOps, Effect, KindObjection, Entries;
    var n := |xs| - 1;
    var op := xs[n];
    AcceptedMeans(ctx, m, op, u);
    DoneNext(xs, r);
    FromPrefix(ctx, s, t, xs);
    DoneWithin(ctx, s, t, xs[..n], r);
    if WriteRef(op) == r && !op.kind.WorkloadSetBindings? {
      assert op in xs;
      OwnUnlessBindings(ctx, s, t, op);
      OwnListed(ctx, s, t, r);
      DoneFresh(ctx, s, t, xs);
    }
  }

  lemma OwnIn(ctx: Context, s: Snapshot, t: Target, r: Ref)
    ensures EntryOps(ctx, s, t, r).Some? ==> OwnOps(ctx, s, t, r) <= EntryOps(ctx, s, t, r).value
    ensures EntryOps(ctx, s, t, r).Some? ==>
      OwnKinds(ctx, s, t, r) <= set o | o in EntryOps(ctx, s, t, r).value :: o.kind
    ensures OwnOps(ctx, s, t, r) != {} ==> EntryOps(ctx, s, t, r).Some?
  {
    hide EntryOps;
  }

  lemma DeviceStep(ctx: Context, s: Snapshot, t: Target, xs: seq<Operation>, m: Snapshot, u: Snapshot, id: Id)
    requires OneStep(ctx, s, t, xs, m, u) && DeviceHere(s, t, xs[..|xs| - 1], id, At(m.devices, id))
    ensures DeviceHere(s, t, xs, id, At(u.devices, id))
  {
    hide DeviceEntry, DeviceAt, DeviceModest, LinkModest, KeepsDevice, CanonicalDevice, NextDevice, StateObjection,
      From, Effect, Canonical, DeviceKinds, DeviceByKind, Done, Apply, OwnOps, OwnKinds;
    var op, r := xs[|xs| - 1], DeviceRef(id);
    StepFacts(ctx, s, t, xs, m, u, r);
    OwnIn(ctx, s, t, r);
    DeviceSeen(m, op, id);
    CanonicalParts(s);
    if WriteRef(op) == r {
      var cur, want := At(s.devices, id), t.devices[id];
      DeviceKindsMean(ctx, id, cur, want);
      DeviceEntryMeans(ctx, id, cur, want, op);
      EntryInService(ctx, id, cur, want);
      AddedNew(ctx, m, op);
      DeviceIsModest(s, t, id);
      DeviceNext(ctx, cur, want, Done(xs[..|xs| - 1], r), At(m.devices, id), id, op);
    }
  }

  lemma EntryInService(ctx: Context, id: Id, cur: Option<Device>, want: Desired<Device>)
    requires DeviceEntry(ctx, id, cur, want).Some?
    ensures want.Ensure? && cur.Some? ==> InService(cur)
  {
  }

  lemma AddedNew(ctx: Context, m: Snapshot, op: Operation)
    requires AreaOf(op.kind) == Devices && KindObjection(ctx, m, op) == None
    ensures var v := At(m.devices, op.device);
      if op.kind.DeviceAdd? then v == None else v.Some? && StateObjection(ctx, v.value.spec.state, op) == None
  {
    hide StateObjection;
  }

  lemma LinkStep(ctx: Context, s: Snapshot, t: Target, xs: seq<Operation>, m: Snapshot, u: Snapshot, id: Id)
    requires OneStep(ctx, s, t, xs, m, u) && LinkHere(s, t, xs[..|xs| - 1], id, At(m.links, id))
    ensures LinkHere(s, t, xs, id, At(u.links, id))
  {
    hide LinkEntry, DeviceModest, LinkModest, KeepsDevice, CanonicalLink, NextLink, KindObjection, From, Effect,
      Canonical, Done, Apply, OwnOps, OwnKinds;
    var op, r := xs[|xs| - 1], LinkRef(id);
    StepFacts(ctx, s, t, xs, m, u, r);
    OwnIn(ctx, s, t, r);
    LinkSeen(m, op, id);
    CanonicalParts(s);
    if WriteRef(op) == r {
      LinkIsModest(s, t, id);
      LinkNextPhase(s, t, id, t.links[id], Done(xs[..|xs| - 1], r), At(m.links, id), op);
    }
  }

  lemma RouteStep(ctx: Context, s: Snapshot, t: Target, xs: seq<Operation>, m: Snapshot, u: Snapshot, id: Id)
    requires OneStep(ctx, s, t, xs, m, u) && RouteHere(s, t, xs[..|xs| - 1], id, At(m.routes, id))
    ensures RouteHere(s, t, xs, id, At(u.routes, id))
  {
    hide RouteEntry, DeviceModest, LinkModest, KeepsDevice, NextRoute, KindObjection, From, Effect, Canonical, Done,
      Apply, OwnOps, OwnKinds;
    var op, r := xs[|xs| - 1], RouteRef(id);
    StepFacts(ctx, s, t, xs, m, u, r);
    OwnIn(ctx, s, t, r);
    RouteSeen(m, op, id);
    if WriteRef(op) == r {
      RouteNextPhase(s, t, id, t.routes[id], Done(xs[..|xs| - 1], r), At(m.routes, id), op);
    }
  }

  lemma WorkloadStep(ctx: Context, s: Snapshot, t: Target, xs: seq<Operation>, m: Snapshot, u: Snapshot, id: Id)
    requires OneStep(ctx, s, t, xs, m, u) && WorkloadHere(s, t, xs[..|xs| - 1], id, At(m.workloads, id))
    ensures WorkloadHere(s, t, xs, id, At(u.workloads, id))
  {
    hide WorkloadEntry, DeviceModest, LinkModest, KeepsDevice, CanonicalWorkload, NextWorkload, KindObjection, From,
      Effect, Canonical, Done, Apply, OwnOps, OwnKinds, WorkloadPhase;
    var op, r, n := xs[|xs| - 1], WorkloadRef(id), |xs| - 1;
    StepFacts(ctx, s, t, xs, m, u, r);
    OwnIn(ctx, s, t, r);
    WorkloadSeen(m, op, id);
    CanonicalParts(s);
    if WriteRef(op) == r {
      if op.kind in {WorkloadSetBindings, WorkloadSetRequirements} { ChangesWhatIsThere(ctx, m, op); }
      if op.kind.WorkloadSetBindings? {
        BoundIsNotAdded(ctx, s, t, xs, id);
        BindingsNextPhase(At(s.workloads, id), At(t.workloads, id), Done(xs[..n], r), LastBindings(xs[..n], id),
                          At(m.workloads, id), op);
      } else {
        WorkloadNextPhase(s, t, id, t.workloads[id], Done(xs[..n], r), LastBindings(xs[..n], id), At(m.workloads, id),
                          op);
      }
    }
  }

  lemma ChangesWhatIsThere(ctx: Context, m: Snapshot, op: Operation)
    requires KindObjection(ctx, m, op) == None && op.kind in {WorkloadSetBindings, WorkloadSetRequirements}
    ensures At(m.workloads, op.workload).Some?
  {
  }

  /** A workload whose bindings are changed is not one that is added. */
  lemma BoundIsNotAdded(ctx: Context, s: Snapshot, t: Target, xs: seq<Operation>, id: Id)
    requires From(ctx, s, t, xs) && xs != []
    requires xs[|xs| - 1].kind.WorkloadSetBindings? && xs[|xs| - 1].workload == id
    ensures WorkloadAdd !in Done(xs[..|xs| - 1], WorkloadRef(id))
  {
    hide OwnOps, Released, WorkloadEntry;
    var op, r := xs[|xs| - 1], WorkloadRef(id);
    assert op in xs;
    FromPrefix(ctx, s, t, xs);
    DoneWithin(ctx, s, t, xs[..|xs| - 1], r);
    Origin(ctx, s, t, op);
    if Released(s, t, op) { ReleasedWrites(s, t, op); }
    OnlyNewIsAdded(ctx, s, t, id, op);
  }

  lemma OnlyNewIsAdded(ctx: Context, s: Snapshot, t: Target, id: Id, op: Operation)
    requires op in OwnOps(ctx, s, t, WorkloadRef(id)) || id in s.workloads
    requires op.kind.WorkloadSetBindings?
    ensures WorkloadAdd !in OwnKinds(ctx, s, t, WorkloadRef(id))
  {
    hide HasBindings, WorkloadAddOp, WorkloadRemoveOp, BindingsOp, RequirementsOp;
  }

  lemma PolicyStep(ctx: Context, s: Snapshot, t: Target, xs: seq<Operation>, m: Snapshot, u: Snapshot, id: Id)
    requires OneStep(ctx, s, t, xs, m, u) && PolicyHere(s, t, xs[..|xs| - 1], id, At(m.policies, id))
    ensures PolicyHere(s, t, xs, id, At(u.policies, id))
  {
    hide PolicyEntry, DeviceModest, LinkModest, KeepsDevice, NextPolicy, KindObjection, From, Effect, Canonical, Done,
      Apply, OwnOps, OwnKinds;
    var op, r := xs[|xs| - 1], PolicyRef(id);
    StepFacts(ctx, s, t, xs, m, u, r);
    OwnIn(ctx, s, t, r);
    PolicySeen(m, op, id);
    if WriteRef(op) == r { PolicyNextPhase(s, id, t.policies[id], Done(xs[..|xs| - 1], r), op); }
  }

  lemma ConfigStep(ctx: Context, s: Snapshot, t: Target, xs: seq<Operation>, m: Snapshot, u: Snapshot, key: (Id, Id))
    requires OneStep(ctx, s, t, xs, m, u) && ConfigHere(s, t, xs[..|xs| - 1], key, At(m.configs, key))
    ensures ConfigHere(s, t, xs, key, At(u.configs, key))
  {
    hide ConfigEntry, DeviceModest, LinkModest, KeepsDevice, NextConfig, ConfigAt, KindObjection, From, Effect,
      Canonical, Done, Apply, OwnOps, OwnKinds;
    var op, r := xs[|xs| - 1], ConfigRef(key.0, key.1);
    StepFacts(ctx, s, t, xs, m, u, r);
    OwnIn(ctx, s, t, r);
    ConfigSeen(m, op, key);
    if WriteRef(op) == r {
      ConfigNextPhase(s, t, key, t.configs[key], Done(xs[..|xs| - 1], r), At(m.configs, key), op);
    }
  }

  // ----- the whole run -----

  ghost predicate AllHere(s: Snapshot, t: Target, xs: seq<Operation>, m: Snapshot) {
    && (forall id :: DeviceHere(s, t, xs, id, At(m.devices, id)))
    && (forall id :: LinkHere(s, t, xs, id, At(m.links, id)))
    && (forall id :: RouteHere(s, t, xs, id, At(m.routes, id)))
    && (forall id :: WorkloadHere(s, t, xs, id, At(m.workloads, id)))
    && (forall id :: PolicyHere(s, t, xs, id, At(m.policies, id)))
    && (forall key :: ConfigHere(s, t, xs, key, At(m.configs, key)))
  }

  lemma NothingDone(s: Snapshot, t: Target)
    ensures AllHere(s, t, [], s)
  {
    forall r ensures Done([], r) == {} {}
  }

  /** Throughout the run every entity is in the phase given by what has been applied to it. */
  lemma {:induction false} RunKeepsPhases(ctx: Context, s: Snapshot, t: Target, xs: seq<Operation>)
    requires Modest(s, t) && Canonical(s) == s && From(ctx, s, t, xs) && Applied(ctx, s, xs).Some?
    ensures AllHere(s, t, xs, Applied(ctx, s, xs).value)
    ensures Canonical(Applied(ctx, s, xs).value) == Applied(ctx, s, xs).value
  {
    hide Modest, Canonical, DeviceHere, LinkHere, RouteHere, WorkloadHere, PolicyHere, ConfigHere, From, Apply;
    if xs == [] {
      NothingDone(s, t);
    } else {
      var init := xs[..|xs| - 1];
      FromPrefix(ctx, s, t, xs);
      RunKeepsPhases(ctx, s, t, init);
      var m, u := Applied(ctx, s, init).value, Applied(ctx, s, xs).value;
      AcceptedMeans(ctx, m, xs[|xs| - 1], u);
      forall id ensures DeviceHere(s, t, xs, id, At(u.devices, id)) { DeviceStep(ctx, s, t, xs, m, u, id); }
      forall id ensures LinkHere(s, t, xs, id, At(u.links, id)) { LinkStep(ctx, s, t, xs, m, u, id); }
      forall id ensures RouteHere(s, t, xs, id, At(u.routes, id)) { RouteStep(ctx, s, t, xs, m, u, id); }
      forall id ensures WorkloadHere(s, t, xs, id, At(u.workloads, id)) { WorkloadStep(ctx, s, t, xs, m, u, id); }
      forall id ensures PolicyHere(s, t, xs, id, At(u.policies, id)) { PolicyStep(ctx, s, t, xs, m, u, id); }
      forall key ensures ConfigHere(s, t, xs, key, At(u.configs, key)) { ConfigStep(ctx, s, t, xs, m, u, key); }
    }
  }

  // ----- the main result -----

  /** A device configuration refers to is still there when everything has been applied. */
  lemma DeviceKept(s: Snapshot, t: Target, xs: seq<Operation>, u: Snapshot, device: Id)
    requires AllHere(s, t, xs, u) && KeepsDevice(t, device) && HasDevice(s, t, device)
    ensures HasDevice(u, t, device)
  {
    assert DeviceHere(s, t, xs, device, At(u.devices, device));
  }

  /** Every workload ensured that was there ends with the bindings asked for: those of the last change
      of them in the run, if there is one, and otherwise the ones it had. */
  ghost predicate BindingsSettle(s: Snapshot, t: Target, xs: seq<Operation>) {
    forall id :: BindingsSettleFor(s, t, xs, id)
  }

  ghost predicate BindingsSettleFor(s: Snapshot, t: Target, xs: seq<Operation>, id: Id) {
    id in t.workloads && t.workloads[id].Ensure? && id in s.workloads ==>
      FinalBindings(s, xs, id) == t.workloads[id].value.bindings
  }

  lemma RouteGone(s: Snapshot, t: Target, id: Id, u: Snapshot, ks: set<Kind>)
    requires id in t.routes && t.routes[id].Remove? && (id in s.routes ==> RouteRemove in ks)
    requires At(u.routes, id) == RoutePhase(At(s.routes, id), t.routes[id], ks)
    ensures RouteEntry(u, t, id, t.routes[id]) == Some({})
  {
  }

  /** The kinds done for an entry whose operations all write its entity. */
  lemma AllOwn(ctx: Context, s: Snapshot, t: Target, r: Ref)
    requires r in Entries(t) && EntryOps(ctx, s, t, r).Some? && !IsRemoval(t, r)
    ensures OwnKinds(ctx, s, t, r) == set o | o in EntryOps(ctx, s, t, r).value :: o.kind
  {
    hide EntryOps, Entries;
    OwnShape(ctx, s, t, r);
  }

  lemma RemovalDone(ctx: Context, s: Snapshot, t: Target, id: Id)
    requires id in t.routes && t.routes[id].Remove? && RouteRef(id) in Entries(t)
    requires EntryOps(ctx, s, t, RouteRef(id)).Some?
    ensures id in s.routes ==> RouteRemove in OwnKinds(ctx, s, t, RouteRef(id))
  {
    hide EntryOps, Entries, Shape, Released, OwnOps;
    OwnShape(ctx, s, t, RouteRef(id));
    if id in s.routes { assert RouteRemoveOp(id) in OwnOps(ctx, s, t, RouteRef(id)); }
  }

  lemma EntrySettled(ctx: Context, s: Snapshot, t: Target, xs: seq<Operation>, u: Snapshot, r: Ref)
    requires Modest(s, t) && Canonical(s) == s && From(ctx, s, t, xs)
    requires forall op :: op in DerivedOps(ctx, s, t) ==> op in xs
    requires AllHere(s, t, xs, u) && r in Entries(t)
    ensures EntryOps(ctx, u, t, r) == Some({}) <==> (r.WorkloadRef? ==> BindingsSettleFor(s, t, xs, r.workload))
  {
    hide Canonical, Done, DeviceAt, ConfigAt, DeviceEntry, LinkEntry, RouteEntry, WorkloadEntry, PolicyEntry,
      ConfigEntry, DeviceModest, LinkModest, KeepsDevice, DeviceKinds, LinkPhase, RoutePhase, WorkloadPhase,
      PolicyPhase, Derivable, OwnKinds, LastBindings;
    DoneAll(ctx, s, t, xs, r);
    DerivableAt(ctx, s, t, r);
    if !IsRemoval(t, r) { AllOwn(ctx, s, t, r); }
    match r
    case DeviceRef(id) =>
      assert DeviceHere(s, t, xs, id, At(u.devices, id));
      DeviceKindsMean(ctx, id, At(s.devices, id), t.devices[id]);
      DeviceIsModest(s, t, id);
      DeviceSettled(ctx, id, At(s.devices, id), t.devices[id], At(u.devices, id));
    case LinkRef(id) =>
      assert LinkHere(s, t, xs, id, At(u.links, id));
      LinkIsModest(s, t, id);
      LinkSettled(s, t, id, t.links[id], u);
    case RouteRef(id) =>
      assert RouteHere(s, t, xs, id, At(u.routes, id));
      if t.routes[id].Remove? {
        RemovalDone(ctx, s, t, id);
        RouteGone(s, t, id, u, Done(xs, r));
      } else {
        RouteSettled(s, t, id, t.routes[id], u);
      }
    case WorkloadRef(id) =>
      assert WorkloadHere(s, t, xs, id, At(u.workloads, id));
      WorkloadSettled(s, t, id, t.workloads[id], u, Done(xs, r), LastBindings(xs, id));
    case PolicyRef(id) =>
      assert PolicyHere(s, t, xs, id, At(u.policies, id));
      PolicySettled(s, id, t.policies[id], u);
    case ConfigRef(owner, key) =>
      assert ConfigHere(s, t, xs, (owner, key), At(u.configs, (owner, key)));
      ConfigStillDerivable(s, t, xs, u, (owner, key));
      ConfigSettled(s, t, (owner, key), t.configs[(owner, key)], u);
  }

  lemma DerivableAt(ctx: Context, s: Snapshot, t: Target, r: Ref)
    requires Derivable(ctx, s, t) && r in Entries(t)
    ensures EntryOps(ctx, s, t, r).Some?
  {
  }

  lemma ConfigStillDerivable(s: Snapshot, t: Target, xs: seq<Operation>, u: Snapshot, key: (Id, Id))
    requires key in t.configs && ConfigEntry(s, t, key, t.configs[key]).Some? && AllHere(s, t, xs, u)
    requires t.configs[key].Ensure? ==> KeepsDevice(t, key.0)
    ensures t.configs[key].Ensure? ==> HasDevice(u, t, key.0)
  {
    hide AllHere, KeepsDevice, HasDevice;
    if t.configs[key].Ensure? { DeviceKept(s, t, xs, u, key.0); }
  }

  /** Applying everything that was derived, once each and in any order that is accepted, leaves
      nothing to derive, so that the target has been reached, exactly if the bindings have settled. */
  lemma DerivationConverges(ctx: Context, s: Snapshot, t: Target, xs: seq<Operation>, u: Snapshot)
    requires Modest(s, t) && Canonical(s) == s
    requires Derivable(ctx, s, t) && NoRepeat(xs) && forall op :: op in xs <==> op in DerivedOps(ctx, s, t)
    requires Applied(ctx, s, xs) == Some(u)
    ensures Derivable(ctx, u, t) && DerivedOps(ctx, u, t) == {} <==> BindingsSettle(s, t, xs)
    ensures Meets(u, t) <==> BindingsSettle(s, t, xs)
  {
    hide Modest, Canonical, EntryOps, Entries, Apply, AllHere, FinalBindings, Meets;
    NothingLeftIffMet(ctx, u, t);
    RunKeepsPhases(ctx, s, t, xs);
    forall r | r in Entries(t)
      ensures EntryOps(ctx, u, t, r) == Some({}) <==> (r.WorkloadRef? ==> BindingsSettleFor(s, t, xs, r.workload))
    {
      EntrySettled(ctx, s, t, xs, u, r);
    }
    if !BindingsSettle(s, t, xs) {
      var id :| !BindingsSettleFor(s, t, xs, id);
      WorkloadListed(t, id);
      Unsettled(ctx, u, t, WorkloadRef(id));
    }
  }

  lemma WorkloadListed(t: Target, id: Id)
    requires id in t.workloads
    ensures WorkloadRef(id) in Entries(t)
  {
  }

  // ----- why reserved capacity has to be left alone -----

  ghost predicate SameReserved(m: Snapshot, u: Snapshot) {
    && (forall id :: id in m.devices ==> id in u.devices && u.devices[id].spec.reserved == m.devices[id].spec.reserved)
    && (forall id :: id in m.links ==> id in u.links && u.links[id].spec.reserved == m.links[id].spec.reserved)
  }

  /** No accepted operation changes a reserved capacity, or makes a device or link disappear. */
  lemma {:induction false} ReservedFixed(ctx: Context, s: Snapshot, xs: seq<Operation>)
    requires Applied(ctx, s, xs).Some?
    ensures SameReserved(s, Applied(ctx, s, xs).value)
  {
    hide Apply;
    if xs != [] {
      var init := xs[..|xs| - 1];
      ReservedFixed(ctx, s, init);
      ReservedStep(ctx, Applied(ctx, s, init).value, xs[|xs| - 1]);
    }
  }

  lemma ReservedStep(ctx: Context, m: Snapshot, op: Operation)
    requires Apply(ctx, m, op).Ok?
    ensures SameReserved(m, Apply(ctx, m, op).value)
  {
    hide Valid, SortWindows, SortUnique, ExclusionGate, WindowGate, KindObjection, Mutate, CanonicalDevices,
      CanonicalLinks;
    AcceptedMeans(ctx, m, op, Apply(ctx, m, op).value);
    DeviceReservedStep(ctx, m, op);
    LinkReservedStep(ctx, m, op);
  }

  lemma DeviceReservedStep(ctx: Context, m: Snapshot, op: Operation)
    requires KindObjection(ctx, m, op) == None
    ensures forall id :: id in m.devices ==>
      id in Effect(m, op).devices && Effect(m, op).devices[id].spec.reserved == m.devices[id].spec.reserved
  {
    hide SortWindows;
    assert Effect(m, op).devices == CanonicalDevices(StepDevices(m.devices, op));
  }

  lemma LinkReservedStep(ctx: Context, m: Snapshot, op: Operation)
    requires KindObjection(ctx, m, op) == None
    ensures forall id :: id in m.links ==>
      id in Effect(m, op).links && Effect(m, op).links[id].spec.reserved == m.links[id].spec.reserved
  {
    hide SortUnique;
    assert Effect(m, op).links == CanonicalLinks(StepLinks(m.links, op));
  }

  /** Where a device in service is to have another reserved capacity, deriving again from any
      snapshot that still has the old one is a conflict or asks for the capacity change again. */
  lemma DeviceNeverSettles(ctx: Context, s: Snapshot, t: Target, u: Snapshot, id: Id)
    requires SameReserved(s, u) && id in t.devices && !DeviceReservedKept(At(s.devices, id), t.devices[id])
    ensures EntryOps(ctx, u, t, DeviceRef(id)) != Some({})
  {
    hide StateKinds, DeviceCapacityOp, DeviceWindowsOp, DeviceOp, SameFixedFields;
    var again := EntryOps(ctx, u, t, DeviceRef(id));
    if again.Some? { assert DeviceCapacityOp(id, t.devices[id].value.spec) in again.value; }
  }

  lemma LinkNeverSettles(ctx: Context, s: Snapshot, t: Target, u: Snapshot, id: Id)
    requires SameReserved(s, u) && id in t.links && !LinkReservedKept(At(s.links, id), t.links[id])
    ensures EntryOps(ctx, u, t, LinkRef(id)) != Some({})
  {
    hide LinkCapacityOp;
    var again := EntryOps(ctx, u, t, LinkRef(id));
    if again.Some? { assert LinkCapacityOp(id, t.links[id].value) in again.value; }
  }

  // ----- what removal leaves behind -----

  lemma RemovalStep(ctx: Context, m: Snapshot, op: Operation, id: Id)
    requires Apply(ctx, m, op).Ok?
    ensures var u := Apply(ctx, m, op).value;
      (op.kind.DeviceRemove? && op.device == id) || (Tombstone(m, id) && !op.kind.DeviceSetState?) ==> Tombstone(u, id)
  {
    hide Valid, SortWindows, SortUnique, ExclusionGate, WindowGate;
    assert Apply(ctx, m, op).value.devices == CanonicalDevices(StepDevices(m.devices, op));
  }

  predicate Tombstone(m: Snapshot, id: Id) { id in m.devices && m.devices[id].spec.state == Removed }

  /** A device that was removed somewhere along the way is a tombstone at the end. */
  lemma {:induction false} RemovalLasts(ctx: Context, s: Snapshot, xs: seq<Operation>, id: Id)
    requires Applied(ctx, s, xs).Some? && forall op :: op in xs ==> !op.kind.DeviceSetState?
    requires exists op :: op in xs && op.kind.DeviceRemove? && op.device == id
    ensures Tombstone(Applied(ctx, s, xs).value, id)
  {
    hide Apply;
    var init, last := xs[..|xs| - 1], xs[|xs| - 1];
    assert xs == init + [last];
    if !(last.kind.DeviceRemove? && last.device == id) { RemovalLasts(ctx, s, init, id); }
    RemovalStep(ctx, Applied(ctx, s, init).value, last, id);
  }

  lemma RouteOpsElsewhere(s: Snapshot, t: Target, id: Id, want: Desired<Route>, op: Operation)
    requires RouteEntry(s, t, id, want).Some? && op in RouteEntry(s, t, id, want).value
    ensures AreaOf(op.kind) != Devices
  {
    hide HasDevice, HasPath, RouteAddOp, RouteRemoveOp, RoutePathOp, RouteStateOp, BindingsOp;
  }

  lemma NeverSetState(ctx: Context, s: Snapshot, t: Target, r: Ref, op: Operation)
    requires r in Entries(t) && EntryOps(ctx, s, t, r).Some? && op in EntryOps(ctx, s, t, r).value
    ensures !op.kind.DeviceSetState?
  {
    hide DeviceEntry, LinkEntry, RouteEntry, WorkloadEntry, PolicyEntry, ConfigEntry, StateKinds, RemovalKinds;
    match r
    case DeviceRef(id) =>
      var cur, want := At(s.devices, id), t.devices[id];
      DeviceKindsMean(ctx, id, cur, want);
      assert op.kind in DeviceKinds(ctx, cur, want);
      if InService(cur) {
        StateKindsOnly(ctx.drainFirst, cur.value.spec.state, if want.Ensure? then want.value.spec.state else Removed);
      }
    case LinkRef(id) => LinkShape(s, t, id, t.links[id]);
    case RouteRef(id) => RouteOpsElsewhere(s, t, id, t.routes[id], op);
    case WorkloadRef(id) => WorkloadShape(s, t, id, t.workloads[id]);
    case PolicyRef(id) => PolicyShape(s, id, t.policies[id]);
    case ConfigRef(owner, key) => ConfigShape(s, t, (owner, key), t.configs[(owner, key)]);
  }

  /** Everything derived has been applied, and the target has the device removed: it is gone. */
  lemma DerivedRemoval(ctx: Context, s: Snapshot, t: Target, xs: seq<Operation>, u: Snapshot, id: Id)
    requires Derivable(ctx, s, t) && Applied(ctx, s, xs) == Some(u)
    requires forall op :: op in xs <==> op in DerivedOps(ctx, s, t)
    requires id in t.devices && InService(At(s.devices, id))
    requires t.devices[id].Remove?
      || (t.devices[id].value.spec.state in {Removed, Absent} && !DeviceStateKept(At(s.devices, id), t.devices[id]))
    ensures Tombstone(u, id)
  {
    hide Apply, Entries, DeviceOp, SameFixedFields, DeviceCapacityOp, DeviceWindowsOp;
    forall op | op in xs ensures !op.kind.DeviceSetState? {
      var r :| r in Entries(t) && op in EntryOps(ctx, s, t, r).value;
      NeverSetState(ctx, s, t, r, op);
    }
    var gone := DeviceOp(DeviceRemove, id);
    DeviceListed(t, id);
    assert gone in EntryOps(ctx, s, t, DeviceRef(id)).value;
    assert gone in DerivedOps(ctx, s, t);
    RemovalLasts(ctx, s, xs, id);
  }

  lemma DeviceListed(t: Target, id: Id)
    requires id in t.devices
    ensures DeviceRef(id) in Entries(t)
  {
  }

  lemma {:induction false} AddedInService(ctx: Context, s: Snapshot, xs: seq<Operation>, op: Operation)
    requires Applied(ctx, s, xs).Some? && op in xs && op.kind.DeviceAdd?
    ensures op.deviceSpec.state in {Present, Draining, InMaintenance}
  {
    hide Valid, Effect, ExclusionGate, WindowGate;
    var init, last := xs[..|xs| - 1], xs[|xs| - 1];
    assert xs == init + [last];
    if op != last { AddedInService(ctx, s, init, op); }
  }

  /** A device state that only removal reaches is never settled. */
  lemma StateNeverSettles(ctx: Context, s: Snapshot, t: Target, xs: seq<Operation>, u: Snapshot, id: Id)
    requires Derivable(ctx, s, t) && Applied(ctx, s, xs) == Some(u)
    requires forall op :: op in xs <==> op in DerivedOps(ctx, s, t)
    requires id in t.devices && !DeviceStateKept(At(s.devices, id), t.devices[id])
    ensures EntryOps(ctx, u, t, DeviceRef(id)) != Some({})
  {
    hide Apply, Entries, SameFixedFields, DeviceCapacityOp, DeviceWindowsOp, StateKinds;
    DeviceListed(t, id);
    assert EntryOps(ctx, s, t, DeviceRef(id)).Some?;
    if InService(At(s.devices, id)) {
      DerivedRemoval(ctx, s, t, xs, u, id);
    } else {
      var added := DeviceAddOp(id, t.devices[id].value);
      assert added in DerivedOps(ctx, s, t);
      AddedInService(ctx, s, xs, added);
    }
  }

  /** Neither is a configuration on a device the target removes. */
  lemma ConfigNeverSettles(ctx: Context, s: Snapshot, t: Target, xs: seq<Operation>, u: Snapshot, key: (Id, Id))
    requires Derivable(ctx, s, t) && Applied(ctx, s, xs) == Some(u)
    requires forall op :: op in xs <==> op in DerivedOps(ctx, s, t)
    requires key in t.configs && t.configs[key].Ensure? && !KeepsDevice(t, key.0)
    ensures EntryOps(ctx, u, t, ConfigRef(key.0, key.1)) != Some({})
  {
    hide Apply, DerivedOps;
    assert ConfigRef(key.0, key.1) in Entries(t);
    assert EntryOps(ctx, s, t, ConfigRef(key.0, key.1)).Some?;
    DerivedRemoval(ctx, s, t, xs, u, key.0);
  }

  /** For a target in canonical form, once everything derived has been applied, in whatever accepted
      order, everything is as the target asks for, and nothing more is derived, if and only if the target
      leaves reserved capacities alone, asks for no device state that only removal reaches, and for no
      configuration on a device it removes; and, for every workload ensured, the last change of its
      bindings in the run stores the ones asked for. */
  lemma ConvergesIffReachable(ctx: Context, s: Snapshot, t: Target, xs: seq<Operation>, u: Snapshot)
    requires Plain(t) && Canonical(s) == s
    requires Derivable(ctx, s, t) && NoRepeat(xs) && forall op :: op in xs <==> op in DerivedOps(ctx, s, t)
    requires Applied(ctx, s, xs) == Some(u)
    ensures Derivable(ctx, u, t) && DerivedOps(ctx, u, t) == {} <==> Reachable(s, t) && BindingsSettle(s, t, xs)
    ensures Meets(u, t) <==> Reachable(s, t) && BindingsSettle(s, t, xs)
  {
    hide Plain, Canonical, EntryOps, Apply, DeviceReservedKept, DeviceStateKept, LinkReservedKept, KeepsDevice,
      SameReserved, Derivable, DerivedOps, BindingsSettle, Meets;
    NothingLeftIffMet(ctx, u, t);
    if Reachable(s, t) {
      DerivationConverges(ctx, s, t, xs, u);
    } else {
      ReservedFixed(ctx, s, xs);
      if id :| id in t.devices && !DeviceReservedKept(At(s.devices, id), t.devices[id]) {
        DeviceNeverSettles(ctx, s, t, u, id);
        Unsettled(ctx, u, t, DeviceRef(id));
      } else if id :| id in t.devices && !DeviceStateKept(At(s.devices, id), t.devices[id]) {
        StateNeverSettles(ctx, s, t, xs, u, id);
        Unsettled(ctx, u, t, DeviceRef(id));
      } else if id :| id in t.links && !LinkReservedKept(At(s.links, id), t.links[id]) {
        LinkNeverSettles(ctx, s, t, u, id);
        Unsettled(ctx, u, t, LinkRef(id));
      } else {
        var key :| key in t.configs && t.configs[key].Ensure? && !KeepsDevice(t, key.0);
        ConfigNeverSettles(ctx, s, t, xs, u, key);
        Unsettled(ctx, u, t, ConfigRef(key.0, key.1));
      }
    }
  }

  lemma Unsettled(ctx: Context, u: Snapshot, t: Target, r: Ref)
    requires r in Entries(t) && EntryOps(ctx, u, t, r) != Some({})
    ensures !(Derivable(ctx, u, t) && DerivedOps(ctx, u, t) == {})
  {
    hide EntryOps, Entries;
    if Derivable(ctx, u, t) {
      var ops := EntryOps(ctx, u, t, r).value;
      assert ops != {};
      var op :| op in ops;
      assert op in DerivedOps(ctx, u, t);
    }
  }
}
