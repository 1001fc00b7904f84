/** From a target intent to operations: for every entry, the operations that would take the
    snapshot to what the entry wants. */
module Derivation {
  import opened Wrappers
  import opened Sorting
  import opened Snapshots
  import opened Operations
  import opened Evaluate

  datatype Desired<T> = Ensure(value: T) | Remove

  /** What the operator wants, one entry per identity. */
  datatype Target = Target(
    devices: map<Id, Desired<Device>>, links: map<Id, Desired<LinkSpec>>, routes: map<Id, Desired<Route>>,
    workloads: map<Id, Desired<Workload>>, policies: map<Id, Desired<Policy>>, configs: map<(Id, Id), Desired<Code>>)

  function Because(op: Operation, reason: Code): Operation { op.(metadata := op.metadata.(reason := reason)) }

  function DeviceOp(kind: Kind, id: Id): (op: Operation)
    ensures op.kind == kind && op.device == id
  {
    Blank(kind).(device := id)
  }

  function DeviceAddOp(id: Id, d: Device): (op: Operation)
    ensures op.kind == DeviceAdd && op.device == id
    ensures Device(op.deviceSpec, op.exclusions, op.maintenance) == d
  {
    Because(DeviceOp(DeviceAdd, id).(deviceSpec := d.spec, exclusions := d.exclusions, maintenance := d.maintenance),
            "target-ensure")
  }

  function DeviceCapacityOp(id: Id, spec: DeviceSpec): (op: Operation)
    ensures op.kind == DeviceSetCapacity && op.device == id && op.capacity == spec.capacity
  {
    var op := DeviceOp(DeviceSetCapacity, id);
    Because(op.(capacity := spec.capacity, deviceSpec := op.deviceSpec.(reserved := spec.reserved)), "target-capacity")
  }

  function DeviceWindowsOp(id: Id, d: Device): (op: Operation)
    ensures op.kind == DeviceSetWindows && op.device == id
    ensures op.exclusions == d.exclusions && op.maintenance == d.maintenance
  {
    Because(DeviceOp(DeviceSetWindows, id).(exclusions := d.exclusions, maintenance := d.maintenance), "target-windows")
  }

  function LinkRemoveOp(id: Id): (op: Operation)
    ensures op.kind == LinkRemove && op.link == id
  {
    Because(Blank(LinkRemove).(link := id), "target-remove")
  }

  function LinkAddOp(id: Id, spec: LinkSpec): (op: Operation)
    ensures op.kind == LinkAdd && op.link == id && op.linkSpec == spec
  {
    Because(Blank(LinkAdd).(link := id, linkSpec := spec), "target-ensure")
  }

  function LinkCapacityOp(id: Id, spec: LinkSpec): (op: Operation)
    ensures op.kind == LinkSetCapacity && op.link == id && op.capacity == spec.capacity
  {
    Because(Blank(LinkSetCapacity).(link := id, linkSpec := spec, capacity := spec.capacity), "target-capacity")
  }

  function RouteRemoveOp(id: Id): (op: Operation)
    ensures op.kind == RouteRemove && op.route == id
  {
    Because(Blank(RouteRemove).(route := id), "target-remove")
  }

  function RouteAddOp(id: Id, r: Route): (op: Operation)
    ensures op.kind == RouteAdd && op.route == id && Route(op.routeSpec, op.routeState) == r
  {
    Because(Blank(RouteAdd).(route := id, routeSpec := r.spec, routeState := r.state), "target-ensure")
  }

  function RoutePathOp(id: Id, r: Route): (op: Operation)
    ensures op.kind == RouteSetPath && op.route == id && op.routeSpec == r.spec
  {
    Because(Blank(RouteSetPath).(route := id, routeSpec := r.spec), "target-path")
  }

  function RouteStateOp(id: Id, r: Route): (op: Operation)
    ensures op.kind == RouteSetState && op.route == id && op.routeState == r.state
  {
    Because(Blank(RouteSetState).(route := id, routeState := r.state), "target-state")
  }

  function WorkloadRemoveOp(id: Id): (op: Operation)
    ensures op.kind == WorkloadRemove && op.workload == id
  {
    Because(Blank(WorkloadRemove).(workload := id), "target-remove")
  }

  function WorkloadAddOp(id: Id, w: Workload): (op: Operation)
    ensures op.kind == WorkloadAdd && op.workload == id && Workload(op.bindings, op.requirements, op.contract) == w
  {
    Because(Blank(WorkloadAdd).(workload := id, bindings := w.bindings, requirements := w.requirements,
                                contract := w.contract), "target-ensure")
  }

  function BindingsOp(workload: Id, bs: seq<Binding>): (op: Operation)
    ensures op.kind == WorkloadSetBindings && op.workload == workload && op.bindings == bs
  {
    Because(Blank(WorkloadSetBindings).(workload := workload, bindings := bs), "target-bindings")
  }

  function RequirementsOp(id: Id, w: Workload): (op: Operation)
    ensures op.kind == WorkloadSetRequirements && op.workload == id
    ensures op.requirements == w.requirements && op.contract == w.contract
  {
    Because(Blank(WorkloadSetRequirements).(workload := id, requirements := w.requirements, contract := w.contract),
            "target-requirements")
  }

  function PolicyUnbindOp(id: Id): (op: Operation)
    ensures op.kind == PolicyUnbind && op.policy == id
  {
    Because(Blank(PolicyUnbind).(policy := id), "target-remove")
  }

  function PolicyBindOp(id: Id, p: Policy): (op: Operation)
    ensures op.kind == PolicyBind && op.policy == id && Policy(op.policyTarget, op.value, op.enforced) == p
  {
    Because(Blank(PolicyBind).(policy := id, policyTarget := p.target, value := p.value, enforced := p.enforced),
            "target-ensure")
  }

  function ConfigClearOp(key: (Id, Id)): (op: Operation)
    ensures op.kind == ConfigClear && (op.device, op.configKey) == key
  {
    Because(Blank(ConfigClear).(device := key.0, configKey := key.1), "target-remove")
  }

  function ConfigSetOp(key: (Id, Id), value: Code): (op: Operation)
    ensures op.kind == ConfigSet && (op.device, op.configKey) == key && op.value == value
  {
    Because(Blank(ConfigSet).(device := key.0, configKey := key.1, value := value), "target-ensure")
  }

  /** A failure to derive is one of: a change the operation set cannot express, or a reference to
      something neither present nor declared.  None stands for either. */
  type Derived = Option<set<Operation>>

  // ----- devices -----

  predicate InService(cur: Option<Device>) { cur.Some? && cur.value.spec.state != Removed }

  /** Which kinds of operation bring the device's state to the wanted one. */
  function StateKinds(drainFirst: bool, now: EntityState, want: EntityState): set<Kind> {
    if want == now then {}
    else
      match want
      case Present => if now == Draining || now == InMaintenance then {ExitMaintenance} else {}
      case Draining => (if now == InMaintenance then {ExitMaintenance} else {}) + {DrainResource}
      case InMaintenance => (if now == Present then {DrainResource} else {}) + {EnterMaintenance}
      case Removed | Absent => RemovalKinds(drainFirst, now)
  }

  function RemovalKinds(drainFirst: bool, now: EntityState): set<Kind> {
    (if drainFirst && now == Present then {DrainResource} else {}) + {DeviceRemove}
  }

  predicate SameFixedFields(a: DeviceSpec, b: DeviceSpec) {
    && a.domain == b.domain && a.profile == b.profile && a.capabilities == b.capabilities
    && a.maxConcurrent == b.maxConcurrent
  }

  function ForKinds(id: Id, kinds: set<Kind>): set<Operation> { set k | k in kinds :: DeviceOp(k, id) }

  function DeviceEntry(ctx: Context, id: Id, cur: Option<Device>, want: Desired<Device>): Derived {
    match want
    case Remove =>
      if !InService(cur) then Some({}) else Some(ForKinds(id, RemovalKinds(ctx.drainFirst, cur.value.spec.state)))
    case Ensure(d) =>
      if !InService(cur) then (if cur.Some? then None else Some({DeviceAddOp(id, d)}))
      else
        var c := cur.value;
        if !SameFixedFields(c.spec, d.spec) then None
        else Some(
          (if c.spec.capacity != d.spec.capacity || c.spec.reserved != d.spec.reserved then
             {DeviceCapacityOp(id, d.spec)}
           else {})
          + (if c.exclusions != d.exclusions || c.maintenance != d.maintenance then {DeviceWindowsOp(id, d)} else {})
          + ForKinds(id, StateKinds(ctx.drainFirst, c.spec.state, d.spec.state)))
  }

  // ----- what is present or will be -----

  predicate HasDevice(s: Snapshot, t: Target, id: Id) {
    InService(At(s.devices, id)) || (id in t.devices && t.devices[id].Ensure?)
  }

  predicate HasLink(s: Snapshot, t: Target, id: Id) {
    (id in s.links && s.links[id].state != Removed) || (id in t.links && t.links[id].Ensure?)
  }

  predicate HasRoute(s: Snapshot, t: Target, id: Id) {
    id in s.routes || (id in t.routes && t.routes[id].Ensure?)
  }

  predicate HasPath(s: Snapshot, t: Target, path: seq<Id>) {
    forall i :: 0 <= i < |path| ==> HasLink(s, t, path[i])
  }

  // ----- links, routes, workloads, policies, configuration -----

  function LinkEntry(s: Snapshot, t: Target, id: Id, want: Desired<LinkSpec>): Derived {
    var present := id in s.links && s.links[id].state != Removed;
    match want
    case Remove => Some(if present then {LinkRemoveOp(id)} else {})
    case Ensure(spec) =>
      if !present then
        if id in s.links || !HasDevice(s, t, spec.endpointA) || !HasDevice(s, t, spec.endpointB) then None
        else Some({LinkAddOp(id, spec)})
      else
        var c := s.links[id].spec;
        if c.endpointA != spec.endpointA || c.endpointB != spec.endpointB || c.latencyClass != spec.latencyClass
           || c.transit != spec.transit then None
        else if c.capacity != spec.capacity || c.reserved != spec.reserved then
          Some({LinkCapacityOp(id, spec)})
        else Some({})
  }

  function Unbinding(bs: seq<Binding>, route: Id): seq<Binding> {
    if bs == [] then [] else (if bs[0].route == route then [] else [bs[0]]) + Unbinding(bs[1..], route)
  }

  /** Taking a route away first takes it out of every workload that binds it. */
  function ReleaseOps(s: Snapshot, route: Id): set<Operation> {
    set w | w in s.workloads && BindsRoute(s.workloads[w].bindings, route) ::
      BindingsOp(w, Unbinding(s.workloads[w].bindings, route))
  }

  function RouteEntry(s: Snapshot, t: Target, id: Id, want: Desired<Route>): Derived {
    match want
    case Remove =>
      if id !in s.routes then Some({})
      else Some(ReleaseOps(s, id) + {RouteRemoveOp(id)})
    case Ensure(r) =>
      if id !in s.routes then
        if !HasDevice(s, t, r.spec.source) || !HasDevice(s, t, r.spec.sink) || !HasPath(s, t, r.spec.path) then None
        else Some({RouteAddOp(id, r)})
      else
        var c := s.routes[id];
        var moved := c.spec.path != r.spec.path || c.spec.policy != r.spec.policy;
        if c.spec.source != r.spec.source || c.spec.sink != r.spec.sink then None
        else if moved && !HasPath(s, t, r.spec.path) then None
        else Some(
          (if moved then {RoutePathOp(id, r)} else {})
          + (if c.state != r.state then {RouteStateOp(id, r)} else {}))
  }

  predicate HasBindings(s: Snapshot, t: Target, bs: seq<Binding>) {
    forall i :: 0 <= i < |bs| ==> HasRoute(s, t, bs[i].route)
  }

  function WorkloadEntry(s: Snapshot, t: Target, id: Id, want: Desired<Workload>): Derived {
    match want
    case Remove => Some(if id in s.workloads then {WorkloadRemoveOp(id)} else {})
    case Ensure(w) =>
      if id !in s.workloads then
        if !HasBindings(s, t, w.bindings) then None
        else Some({WorkloadAddOp(id, w)})
      else
        var c := s.workloads[id];
        Some(
          (if c.bindings != w.bindings then {BindingsOp(id, w.bindings)} else {})
          + (if c.requirements != w.requirements || c.contract != w.contract then
               {RequirementsOp(id, w)}
             else {}))
  }

  function PolicyEntry(s: Snapshot, id: Id, want: Desired<Policy>): Derived {
    match want
    case Remove => Some(if id in s.policies then {PolicyUnbindOp(id)} else {})
    case Ensure(p) =>
      Some(if At(s.policies, id) != Some(p) then
             {PolicyBindOp(id, p)}
           else {})
  }

  function ConfigEntry(s: Snapshot, t: Target, key: (Id, Id), want: Desired<Code>): Derived {
    var cur := At(s.configs, key);
    match want
    case Remove =>
      Some(if cur.Some? then {ConfigClearOp(key)} else {})
    case Ensure(value) =>
      if !HasDevice(s, t, key.0) then None
      else
        Some(if cur == None || cur.value.value != value then
               {ConfigSetOp(key, value)}
             else {})
  }

  // ----- the whole target -----

  /** An entry of the target, of whichever kind. */
  function EntryOps(ctx: Context, s: Snapshot, t: Target, r: Ref): Derived {
    match r
    case DeviceRef(id) => if id in t.devices then DeviceEntry(ctx, id, At(s.devices, id), t.devices[id]) else Some({})
    case LinkRef(id) => if id in t.links then LinkEntry(s, t, id, t.links[id]) else Some({})
    case RouteRef(id) => if id in t.routes then RouteEntry(s, t, id, t.routes[id]) else Some({})
    case WorkloadRef(id) => if id in t.workloads then WorkloadEntry(s, t, id, t.workloads[id]) else Some({})
    case PolicyRef(id) => if id in t.policies then PolicyEntry(s, id, t.policies[id]) else Some({})
    case ConfigRef(owner, key) =>
      if (owner, key) in t.configs then ConfigEntry(s, t, (owner, key), t.configs[(owner, key)]) else Some({})
    case _ => Some({})
  }

  function Entries(t: Target): set<Ref> {
    (set id | id in t.devices :: DeviceRef(id)) + (set id | id in t.links :: LinkRef(id))
    + (set id | id in t.routes :: RouteRef(id)) + (set id | id in t.workloads :: WorkloadRef(id))
    + (set id | id in t.policies :: PolicyRef(id)) + (set k | k in t.configs :: ConfigRef(k.0, k.1))
  }

  ghost predicate Derivable(ctx: Context, s: Snapshot, t: Target) {
    forall r :: r in Entries(t) ==> EntryOps(ctx, s, t, r).Some?
  }

  ghost function DerivedOps(ctx: Context, s: Snapshot, t: Target): set<Operation>
    requires Derivable(ctx, s, t)
  {
    set r, op | r in Entries(t) && op in EntryOps(ctx, s, t, r).value :: op
  }

  /** The derived operations, each listed once, in canonical order. */
  ghost predicate Derives(ctx: Context, s: Snapshot, t: Target, naming: Naming, ops: seq<Operation>) {
    && Derivable(ctx, s, t) && (forall op :: op in ops <==> op in DerivedOps(ctx, s, t))
    && NoRepeat(ops) && SortedBy(ops, CanonicalOrder(naming))
  }

  /** Derivation entry by entry.  It fails exactly when one entry cannot be derived, and otherwise
      lists every operation of every entry once, in canonical order. */
  method DeriveOperations(ctx: Context, s: Snapshot, t: Target, naming: Naming) returns (ops: Option<seq<Operation>>)
    ensures ops == None <==> !Derivable(ctx, s, t)
    ensures ops.Some? ==> Derives(ctx, s, t, naming, ops.value)
  {
    hide EntryOps, Entries;
    var left, found: set<Operation> := Entries(t), {};
    while left != {}
      invariant left <= Entries(t)
      invariant forall r :: r in Entries(t) - left ==> EntryOps(ctx, s, t, r).Some?
      invariant forall op :: op in found <==>
        exists r :: r in Entries(t) - left && EntryOps(ctx, s, t, r).Some? && op in EntryOps(ctx, s, t, r).value
      decreases |left|
    {
      var r :| r in left;
      var entry := EntryOps(ctx, s, t, r);
      if entry == None { return None; }
      found := found + entry.value;
      left := left - {r};
      assert Entries(t) - left == (Entries(t) - (left + {r})) + {r};
    }
    var list := ListOnce(found, naming);
    assert Derivable(ctx, s, t);
    ops := Some(list);
  }

  method ListOnce(found: set<Operation>, naming: Naming) returns (list: seq<Operation>)
    ensures forall op :: op in list <==> op in found
    ensures NoRepeat(list) && SortedBy(list, CanonicalOrder(naming))
  {
    hide OperationBefore;
    var before := CanonicalOrder(naming);
    CanonicalOrderIsWeak(naming);
    list := [];
    var left := found;
    while left != {}
      invariant left <= found
      invariant forall op :: op in list <==> op in found - left
      invariant NoRepeat(list) && SortedBy(list, before)
      decreases |left|
    {
      var op :| op in left;
      InsertSorts(op, list, before);
      InsertMembers(op, list, before);
      InsertDistinct(op, list, before);
      list := Insert(op, list, before);
      left := left - {op};
    }
  }

  lemma CanonicalOrderIsWeak(naming: Naming)
    ensures StrictWeakOrder(CanonicalOrder(naming))
  {
    hide KindRank, TargetName;
    var before := CanonicalOrder(naming);
    forall a, b | before(a, b) ensures !before(b, a) { assert OperationBefore(naming, a, b); }
    forall a, b, c | !before(a, b) && !before(b, c) ensures !before(a, c) {
      RankDecides(a.kind, b.kind);
      RankDecides(b.kind, c.kind);
      RankDecides(a.kind, c.kind);
    }
  }

  lemma InsertMembers(x: Operation, s: seq<Operation>, less: (Operation, Operation) -> bool)
    ensures forall op :: op in Insert(x, s, less) <==> op == x || op in s
  {
    InsertKeeps(x, s, less);
    forall op ensures op in Insert(x, s, less) <==> op == x || op in s {
      assert op in Insert(x, s, less) <==> op in multiset(Insert(x, s, less));
      assert op in s <==> op in multiset(s);
    }
  }

  predicate NoRepeat(s: seq<Operation>) {
    forall i, j :: 0 <= i < j < |s| ==> s[i] != s[j]
  }

  lemma ConsNoRepeat(x: Operation, s: seq<Operation>)
    requires x !in s && NoRepeat(s)
    ensures NoRepeat([x] + s)
  {
  }

  lemma {:induction false} InsertDistinct(x: Operation, s: seq<Operation>, less: (Operation, Operation) -> bool)
    requires x !in s && NoRepeat(s)
    ensures NoRepeat(Insert(x, s, less))
  {
    if s == [] || !less(s[0], x) {
      ConsNoRepeat(x, s);
    } else {
      InsertDistinct(x, s[1..], less);
      InsertMembers(x, s[1..], less);
      assert s[0] !in s[1..];
      ConsNoRepeat(s[0], Insert(x, s[1..], less));
    }
  }
}
