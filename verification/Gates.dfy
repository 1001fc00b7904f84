/** What the exclusion and maintenance windows of devices stop, in terms of the devices an operation
    names and those the snapshot stores for the entity it changes. */
module Gates {
  import opened Wrappers
  import opened Checked
  import opened Snapshots
  import opened Operations
  import opened Evaluate

  // ----- the devices a change touches -----

  /** The change touches the device: the one it is about, an end of the link or route it names or
      takes the place of, an end of a route bound before or after, or an end of what a policy is for. */
  ghost predicate Touches(s: Snapshot, op: Operation, device: Id) {
    match op.kind
    case DeviceAdd => false
    case DeviceRemove | DeviceSetCapacity | DeviceSetState | DeviceSetWindows => op.device == device
    case DrainResource | EnterMaintenance | ExitMaintenance => op.device == device
    case ConfigSet | ConfigClear => op.device == device
    case LinkAdd | LinkSetCapacity => EndsAt(op.linkSpec, device)
    case LinkRemove => EndsAt(op.linkSpec, device) || (op.link in s.links && EndsAt(s.links[op.link].spec, device))
    case RouteAdd | RouteSetPath => Terminates(op.routeSpec, device)
    case RouteRemove | RouteSetState =>
      Terminates(op.routeSpec, device) || (op.route in s.routes && Terminates(s.routes[op.route].spec, device))
    case WorkloadAdd | WorkloadRemove | WorkloadSetBindings | WorkloadSetRequirements =>
      exists route :: Serves(s, op, route) && Terminates(s.routes[route].spec, device)
    case PolicyBind | PolicyUnbind =>
      var id := op.policyTarget.identity;
      match op.policyTarget.scope
      case DeviceScope => id == device
      case LinkScope => id != 0 && id in s.links && EndsAt(s.links[id].spec, device)
      case RouteScope => id != 0 && id in s.routes && Terminates(s.routes[id].spec, device)
      case GlobalScope | WorkloadScope => false
  }

  /** The workload the operation changes is bound to the route, before or after. */
  ghost predicate Serves(s: Snapshot, op: Operation, route: Id) {
    route in s.routes &&
      ((exists b :: b in op.bindings && b.route == route)
       || (op.workload in s.workloads && exists b :: b in s.workloads[op.workload].bindings && b.route == route))
  }

  // ----- and when that is not allowed -----

  /** The device is there, and one of its exclusion windows is open. */
  ghost predicate Excluded(s: Snapshot, instant: int, device: Id) {
    device != 0 && device in s.devices && exists w :: w in s.devices[device].exclusions && w.begin <= instant < w.end
  }

  /** The device is there, and none of its maintenance windows is open. */
  ghost predicate Closed(s: Snapshot, instant: int, device: Id) {
    && device != 0 && device in s.devices
    && forall w :: w in s.devices[device].maintenance ==> !(w.begin <= instant < w.end)
  }

  ghost predicate Forbidden(ctx: Context, s: Snapshot, op: Operation) {
    ctx.exclusion && exists device :: Excluded(s, ctx.instant, device) && Touches(s, op, device)
  }

  ghost predicate Unscheduled(ctx: Context, s: Snapshot, op: Operation) {
    && ctx.window && op.kind in {DrainResource, EnterMaintenance, ExitMaintenance, DeviceRemove}
    && Closed(s, ctx.instant, op.device)
  }

  lemma TouchedIsSubject(s: Snapshot, op: Operation, device: Id)
    requires device != 0
    ensures device in Subjects(op, s) <==> Touches(s, op, device)
  {
    if AreaOf(op.kind) == Workloads { ServedIsEnd(s, op, device); }
  }

  lemma ServedIsEnd(s: Snapshot, op: Operation, device: Id)
    requires device != 0 && AreaOf(op.kind) == Workloads
    ensures device in Subjects(op, s) <==> Touches(s, op, device)
  {
    EndsBound(s, op.bindings, device);
    if op.workload in s.workloads { EndsBound(s, s.workloads[op.workload].bindings, device); }
    if route :| Serves(s, op, route) && Terminates(s.routes[route].spec, device) {
      assert device in BindingEnds(s, op.bindings)
        || (op.workload in s.workloads && device in BindingEnds(s, s.workloads[op.workload].bindings));
    }
    if device in Subjects(op, s) {
      var bs := if device in BindingEnds(s, op.bindings) then op.bindings else s.workloads[op.workload].bindings;
      var b :| b in bs && b.route in s.routes && Terminates(s.routes[b.route].spec, device);
      assert Serves(s, op, b.route);
    }
  }

  lemma EndsBound(s: Snapshot, bs: seq<Binding>, device: Id)
    requires device != 0
    ensures device in BindingEnds(s, bs) <==>
      exists b :: b in bs && b.route in s.routes && Terminates(s.routes[b.route].spec, device)
  {
    if b :| b in bs && b.route in s.routes && Terminates(s.routes[b.route].spec, device) {
      var i :| 0 <= i < |bs| && bs[i] == b;
      assert device in RouteEnds(s, bs[i].route);
    }
  }

  lemma ExclusionGateMeans(ctx: Context, s: Snapshot, op: Operation)
    ensures !ExclusionGate(ctx, s, op) <==> Forbidden(ctx, s, op)
  {
    hide Subjects, Touches;
    forall device: Id | device != 0 ensures device in Subjects(op, s) <==> Touches(s, op, device) {
      TouchedIsSubject(s, op, device);
    }
    NobodyIsNoSubject(s, op);
    forall device: Id | device in s.devices
      ensures !ChangePermitted(s.devices[device], ctx.instant) <==>
        exists w :: w in s.devices[device].exclusions && w.begin <= ctx.instant < w.end
    {
      OpenWindow(s.devices[device].exclusions, ctx.instant);
    }
  }

  lemma NobodyIsNoSubject(s: Snapshot, op: Operation)
    ensures 0 !in Subjects(op, s)
  {
  }

  lemma OpenWindow(ws: seq<Window>, instant: int)
    ensures (exists i :: 0 <= i < |ws| && ws[i].Contains(instant)) <==>
      exists w :: w in ws && w.begin <= instant < w.end
  {
    if w :| w in ws && w.begin <= instant < w.end {
      var i :| 0 <= i < |ws| && ws[i] == w;
      assert ws[i].Contains(instant);
    }
  }

  lemma WindowGateMeans(ctx: Context, s: Snapshot, op: Operation)
    ensures !WindowGate(ctx, s, op) <==> Unscheduled(ctx, s, op)
  {
    if op.device in s.devices { OpenWindow(s.devices[op.device].maintenance, ctx.instant); }
  }

  /** An operation that touches an excluded device, or is maintenance outside the maintenance windows of
      its device, is refused as an unsafe transition; any other is treated as if no windows were enforced
      at all, so that windows elsewhere never stop it. */
  lemma WindowsDecide(ctx: Context, s: Snapshot, op: Operation)
    ensures Apply(ctx, s, op) ==
      if Forbidden(ctx, s, op) || Unscheduled(ctx, s, op) then Err(UnsafeTransition)
      else Apply(ctx.(exclusion := false, window := false), s, op)
  {
    hide ExclusionGate, WindowGate, Forbidden, Unscheduled, Valid, Effect;
    ExclusionGateMeans(ctx, s, op);
    WindowGateMeans(ctx, s, op);
    var free := ctx.(exclusion := false, window := false);
    NothingEnforced(free, s, op);
    assert KindObjection(free, s, op) == KindObjection(ctx, s, op);
  }

  lemma NothingEnforced(ctx: Context, s: Snapshot, op: Operation)
    requires !ctx.exclusion && !ctx.window
    ensures ExclusionGate(ctx, s, op) && WindowGate(ctx, s, op)
  {
  }

  // ----- why an operation is refused -----

  predicate Adds(kind: Kind) { kind in {DeviceAdd, LinkAdd, RouteAdd, WorkloadAdd} }

  predicate Exists(s: Snapshot, r: Ref) {
    match r
    case DeviceRef(id) => id in s.devices
    case LinkRef(id) => id in s.links
    case RouteRef(id) => id in s.routes
    case WorkloadRef(id) => id in s.workloads
    case PolicyRef(id) => id in s.policies
    case ConfigRef(owner, key) => (owner, key) in s.configs
    case GlobalRef | DomainRef(_) => true
  }

  /** Something is there that must not be: what is to be added, a state already left or reached, a
      workload still bound to a route that is to go. */
  ghost predicate Clashes(s: Snapshot, op: Operation) {
    || (Adds(op.kind) && Exists(s, WriteRef(op)))
    || (op.kind.RouteRemove? && op.route in s.routes && exists w, b ::
          w in s.workloads && b in s.workloads[w].bindings && b.route == op.route)
    || (op.kind.LinkRemove? && op.link in s.links && s.links[op.link].state == Removed)
    || (op.device in s.devices &&
         var state := s.devices[op.device].spec.state;
         match op.kind
         case DeviceRemove => state == Removed
         case DrainResource => state in {Draining, InMaintenance, Removed}
         case EnterMaintenance => state in {InMaintenance, Removed}
         case ExitMaintenance => state in {Absent, Present, Removed}
         case _ => false)
  }

  /** Something is not there that must be: what is to be changed, or what a new link, route, path or
      list of bindings refers to, or the owner of a configuration entry. */
  ghost predicate Lacks(s: Snapshot, op: Operation) {
    match op.kind
    case DeviceAdd | PolicyBind => false
    case LinkAdd => op.linkSpec.endpointA !in s.devices || op.linkSpec.endpointB !in s.devices
    case RouteAdd =>
      op.routeSpec.path != [] &&
        (op.routeSpec.source !in s.devices || op.routeSpec.sink !in s.devices
         || exists link :: link in op.routeSpec.path && link !in s.links)
    case RouteSetPath => op.route !in s.routes || exists link :: link in op.routeSpec.path && link !in s.links
    case WorkloadAdd => exists b :: b in op.bindings && b.route !in s.routes
    case WorkloadSetBindings =>
      op.workload !in s.workloads || exists b :: b in op.bindings && b.route !in s.routes
    case ConfigSet => op.device !in s.devices
    case _ => !Exists(s, WriteRef(op))
  }

  lemma NamesBound(bs: seq<Binding>, route: Id)
    ensures BindsRoute(bs, route) <==> exists b :: b in bs && b.route == route
  {
    if b :| b in bs && b.route == route { var i :| 0 <= i < |bs| && bs[i] == b; }
  }

  lemma BoundMeans(s: Snapshot, route: Id)
    ensures Bound(s, route) <==> exists w, b :: w in s.workloads && b in s.workloads[w].bindings && b.route == route
  {
    forall w | w in s.workloads { NamesBound(s.workloads[w].bindings, route); }
  }

  lemma UnknownMeans(s: Snapshot, path: seq<Id>, bs: seq<Binding>)
    ensures !PathKnown(s, path) <==> exists link :: link in path && link !in s.links
    ensures !BindingsKnown(s, bs) <==> exists b :: b in bs && b.route !in s.routes
  {
    if link :| link in path && link !in s.links { var i :| 0 <= i < |path| && path[i] == link; }
    if b :| b in bs && b.route !in s.routes { var i :| 0 <= i < |bs| && bs[i] == b; }
  }

  /** Windows aside, an operation is refused as a conflict exactly if something is there that must not
      be, as naming nothing exactly if that is not so and something is not there that must be, for lack
      of capacity, for want of an identity and for a full revision counter exactly in these cases. */
  lemma RefusedFor(ctx: Context, s: Snapshot, op: Operation)
    requires !ctx.exclusion && !ctx.window
    ensures Apply(ctx, s, op) == Err(Conflict) <==> Clashes(s, op)
    ensures Apply(ctx, s, op) == Err(NotFound) <==> Lacks(s, op) && !Clashes(s, op)
    ensures Apply(ctx, s, op) == Err(CapacityExceeded) <==>
      op.kind.LinkSetCapacity? && op.link in s.links && op.capacity < s.links[op.link].spec.reserved
    ensures Apply(ctx, s, op) == Err(InvalidArgument) <==> op.kind.PolicyBind? && op.policy == 0
    ensures Apply(ctx, s, op) == Err(Overflow) <==>
      && op.kind.ConfigSet? && op.device in s.devices && (op.device, op.configKey) in s.configs
      && s.configs[(op.device, op.configKey)].revision >= MAX_U64
  {
    hide Valid, Effect, KindObjection, Clashes, Lacks, ExclusionGate, WindowGate;
    NothingEnforced(ctx, s, op);
    if AreaOf(op.kind) == Devices {
      DeviceRefusedFor(ctx, s, op);
    } else if AreaOf(op.kind) in {Links, Routes} {
      PathRefusedFor(ctx, s, op);
    } else {
      OtherRefusedFor(ctx, s, op);
    }
  }

  /** What `RefusedFor` says, of the objection. */
  ghost predicate ObjectedFor(ctx: Context, s: Snapshot, op: Operation) {
    var e := KindObjection(ctx, s, op);
    && (e == Some(Conflict) <==> Clashes(s, op))
    && (e == Some(NotFound) <==> Lacks(s, op) && !Clashes(s, op))
    && (e == Some(CapacityExceeded) <==>
        op.kind.LinkSetCapacity? && op.link in s.links && op.capacity < s.links[op.link].spec.reserved)
    && (e == Some(InvalidArgument) <==> op.kind.PolicyBind? && op.policy == 0)
    && (e == Some(Overflow) <==>
        && op.kind.ConfigSet? && op.device in s.devices && (op.device, op.configKey) in s.configs
        && s.configs[(op.device, op.configKey)].revision >= MAX_U64)
    && e != Some(InvalidResult)
  }

  lemma DeviceRefusedFor(ctx: Context, s: Snapshot, op: Operation)
    requires AreaOf(op.kind) == Devices
    ensures ObjectedFor(ctx, s, op)
  {
    if op.device in s.devices { OneOfFive(s.devices[op.device].spec.state); }
  }

  lemma PathRefusedFor(ctx: Context, s: Snapshot, op: Operation)
    requires AreaOf(op.kind) in {Links, Routes}
    ensures ObjectedFor(ctx, s, op)
  {
    hide Bound, PathKnown, BindingsKnown, Walkable;
    BoundMeans(s, op.route);
    UnknownMeans(s, op.routeSpec.path, op.bindings);
  }

  lemma OtherRefusedFor(ctx: Context, s: Snapshot, op: Operation)
    requires AreaOf(op.kind) in {Workloads, Policies, Configs}
    ensures ObjectedFor(ctx, s, op)
  {
    hide Bound, PathKnown, BindingsKnown, Walkable;
    UnknownMeans(s, op.routeSpec.path, op.bindings);
  }

  lemma OneOfFive(state: EntityState)
    ensures state in {Absent, Present, Draining, InMaintenance, Removed}
  {
  }
}
