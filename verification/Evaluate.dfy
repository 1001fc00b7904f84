/** Applying one operation to a snapshot: the window gates, the checks of its kind, the change
    itself, normalisation and validation of the result. */
module Evaluate {
  import opened Wrappers
  import opened Checked
  import opened Snapshots
  import opened Operations

  /** The evaluation context: the instant, and which of the obligations that gate changes are
      enforced. */
  datatype Context = Context(instant: int, exclusion: bool, window: bool, drainFirst: bool)

  datatype Error =
    | NotFound | Conflict | UnsafeTransition | CapacityExceeded | InvalidArgument | Overflow | InvalidResult

  // ----- gates -----

  predicate ExclusionGate(ctx: Context, s: Snapshot, op: Operation) {
    ctx.exclusion ==>
      forall id :: id in Subjects(op, s) && id in s.devices ==> ChangePermitted(s.devices[id], ctx.instant)
  }

  predicate WindowGate(ctx: Context, s: Snapshot, op: Operation) {
    ctx.window && RequiresWindow(op.kind) && op.device != 0 && op.device in s.devices ==>
      MaintenancePermitted(s.devices[op.device], ctx.instant)
  }

  // ----- what each kind refuses -----

  /** What a change to an existing device runs into, given the state the device is in. */
  function StateObjection(ctx: Context, state: EntityState, op: Operation): Option<Error> {
    match op.kind
    case DeviceRemove =>
      if state == Removed then Some(Conflict)
      else if ctx.drainFirst && state != Draining && state != InMaintenance then Some(UnsafeTransition)
      else None
    case DeviceSetState =>
      if op.entityState == Removed || op.entityState == Absent then Some(UnsafeTransition)
      else if op.entityState == InMaintenance && ctx.drainFirst && state == Present then Some(UnsafeTransition)
      else None
    case DrainResource =>
      if state in {Removed, Draining, InMaintenance} then Some(Conflict) else None
    case EnterMaintenance =>
      if state in {InMaintenance, Removed} then Some(Conflict)
      else if ctx.drainFirst && state != Draining then Some(UnsafeTransition)
      else None
    case ExitMaintenance =>
      if state != Draining && state != InMaintenance then Some(Conflict) else None
    case _ => None
  }

  function DeviceObjection(ctx: Context, s: Snapshot, op: Operation): Option<Error> {
    if op.kind.DeviceAdd? then
      if op.device in s.devices then Some(Conflict)
      else if op.deviceSpec.state in {Present, Draining, InMaintenance} then None
      else Some(UnsafeTransition)
    else if op.device !in s.devices then Some(NotFound)
    else StateObjection(ctx, s.devices[op.device].spec.state, op)
  }

  function LinkObjection(s: Snapshot, op: Operation): Option<Error>
    requires AreaOf(op.kind) == Links
  {
    if op.kind.LinkAdd? then
      if op.link in s.links then Some(Conflict)
      else if op.linkSpec.endpointA !in s.devices || op.linkSpec.endpointB !in s.devices then Some(NotFound)
      else if op.linkSpec.endpointA == op.linkSpec.endpointB then Some(UnsafeTransition)
      else None
    else if op.link !in s.links then Some(NotFound)
    else if op.kind.LinkRemove? then
      if s.links[op.link].state == Removed then Some(Conflict) else None
    else if op.capacity < s.links[op.link].spec.reserved then Some(CapacityExceeded)
    else None
  }

  predicate PathKnown(s: Snapshot, path: seq<Id>) {
    forall i :: 0 <= i < |path| ==> path[i] in s.links
  }

  predicate Bound(s: Snapshot, route: Id) {
    exists w :: w in s.workloads && BindsRoute(s.workloads[w].bindings, route)
  }

  predicate BindsRoute(bs: seq<Binding>, route: Id) {
    exists i :: 0 <= i < |bs| && bs[i].route == route
  }

  function RouteObjection(s: Snapshot, op: Operation): Option<Error>
    requires AreaOf(op.kind) == Routes
  {
    var spec := op.routeSpec;
    if op.kind.RouteAdd? then
      if op.route in s.routes then Some(Conflict)
      else if spec.path == [] then Some(UnsafeTransition)
      else if spec.source !in s.devices || spec.sink !in s.devices then Some(NotFound)
      else if !PathKnown(s, spec.path) then Some(NotFound)
      else if !Walkable(s.links, spec) then Some(UnsafeTransition)
      else None
    else if op.route !in s.routes then Some(NotFound)
    else
      match op.kind
      case RouteRemove => if Bound(s, op.route) then Some(Conflict) else None
      case RouteSetPath =>
        if !PathKnown(s, spec.path) then Some(NotFound)
        else if !Walkable(s.links, spec) then Some(UnsafeTransition)
        else None
      case _ =>
        if op.routeState == Active && !Walkable(s.links, s.routes[op.route].spec) then Some(UnsafeTransition) else None
  }

  predicate BindingsKnown(s: Snapshot, bs: seq<Binding>) {
    forall i :: 0 <= i < |bs| ==> bs[i].route in s.routes
  }

  function WorkloadObjection(s: Snapshot, op: Operation): Option<Error>
    requires AreaOf(op.kind) == Workloads
  {
    if op.kind.WorkloadAdd? then
      if op.workload in s.workloads then Some(Conflict)
      else if !BindingsKnown(s, op.bindings) then Some(NotFound)
      else None
    else if op.workload !in s.workloads then Some(NotFound)
    else if op.kind.WorkloadSetBindings? && !BindingsKnown(s, op.bindings) then Some(NotFound)
    else None
  }

  function PolicyObjection(s: Snapshot, op: Operation): Option<Error>
    requires AreaOf(op.kind) == Policies
  {
    if op.kind.PolicyBind? then (if op.policy == 0 then Some(InvalidArgument) else None)
    else if op.policy !in s.policies then Some(NotFound)
    else None
  }

  function ConfigObjection(s: Snapshot, op: Operation): Option<Error>
    requires AreaOf(op.kind) == Configs
  {
    var key := (op.device, op.configKey);
    if op.kind.ConfigSet? then
      if op.device !in s.devices then Some(NotFound)
      else if key in s.configs && s.configs[key].revision >= MAX_U64 then Some(Overflow)
      else None
    else if key !in s.configs then Some(NotFound)
    else None
  }

  function KindObjection(ctx: Context, s: Snapshot, op: Operation): Option<Error> {
    match AreaOf(op.kind)
    case Devices => DeviceObjection(ctx, s, op)
    case Links => LinkObjection(s, op)
    case Routes => RouteObjection(s, op)
    case Workloads => WorkloadObjection(s, op)
    case Policies => PolicyObjection(s, op)
    case Configs => ConfigObjection(s, op)
  }

  function Objection(ctx: Context, s: Snapshot, op: Operation): Option<Error> {
    if !ExclusionGate(ctx, s, op) || !WindowGate(ctx, s, op) then Some(UnsafeTransition)
    else KindObjection(ctx, s, op)
  }

  // ----- what each kind writes -----

  function At<K, V>(m: map<K, V>, k: K): Option<V> { if k in m then Some(m[k]) else None }

  function Put<K, V>(m: map<K, V>, k: K, v: Option<V>): map<K, V> {
    match v case Some(x) => m[k := x] case None => m - {k}
  }

  function NextDevice(op: Operation, was: Option<Device>): Option<Device> {
    if op.kind.DeviceAdd? then Some(Device(op.deviceSpec, op.exclusions, op.maintenance))
    else if was == None then None
    else
      var d := was.value;
      match op.kind
      case DeviceRemove => Some(d.(spec := d.spec.(state := Removed)))
      case DeviceSetCapacity => Some(d.(spec := d.spec.(capacity := op.capacity)))
      case DeviceSetState => Some(d.(spec := d.spec.(state := op.entityState)))
      case DeviceSetWindows => Some(d.(exclusions := op.exclusions, maintenance := op.maintenance))
      case DrainResource => Some(d.(spec := d.spec.(state := Draining)))
      case EnterMaintenance => Some(d.(spec := d.spec.(state := InMaintenance)))
      case ExitMaintenance => Some(d.(spec := d.spec.(state := Present)))
      case _ => was
  }

  function NextLink(op: Operation, was: Option<Link>): Option<Link> {
    if op.kind.LinkAdd? then Some(Link(op.linkSpec, Present))
    else if was == None then None
    else if op.kind.LinkRemove? then Some(was.value.(state := Removed))
    else Some(was.value.(spec := was.value.spec.(capacity := op.capacity)))
  }

  function NextRoute(op: Operation, was: Option<Route>): Option<Route> {
    if op.kind.RouteAdd? then Some(Route(op.routeSpec, op.routeState))
    else if op.kind.RouteRemove? || was == None then None
    else if op.kind.RouteSetPath? then Some(was.value.(spec := op.routeSpec))
    else Some(was.value.(state := op.routeState))
  }

  function NextWorkload(op: Operation, was: Option<Workload>): Option<Workload> {
    if op.kind.WorkloadAdd? then Some(Workload(op.bindings, op.requirements, op.contract))
    else if op.kind.WorkloadRemove? || was == None then None
    else if op.kind.WorkloadSetBindings? then Some(was.value.(bindings := op.bindings))
    else Some(was.value.(requirements := op.requirements, contract := op.contract))
  }

  function NextPolicy(op: Operation): Option<Policy> {
    if op.kind.PolicyBind? then Some(Policy(op.policyTarget, op.value, op.enforced)) else None
  }

  function NextConfig(op: Operation, was: Option<Config>): Option<Config> {
    if op.kind.ConfigClear? then None
    else Some(Config(op.value, if was == None then 0 else was.value.revision + 1))
  }

  function StepDevices(m: map<Id, Device>, op: Operation): map<Id, Device> {
    if AreaOf(op.kind) == Devices then Put(m, op.device, NextDevice(op, At(m, op.device))) else m
  }

  function StepLinks(m: map<Id, Link>, op: Operation): map<Id, Link> {
    if AreaOf(op.kind) == Links then Put(m, op.link, NextLink(op, At(m, op.link))) else m
  }

  function StepRoutes(m: map<Id, Route>, op: Operation): map<Id, Route> {
    if AreaOf(op.kind) == Routes then Put(m, op.route, NextRoute(op, At(m, op.route))) else m
  }

  function StepWorkloads(m: map<Id, Workload>, op: Operation): map<Id, Workload> {
    if AreaOf(op.kind) == Workloads then Put(m, op.workload, NextWorkload(op, At(m, op.workload))) else m
  }

  function StepPolicies(m: map<Id, Policy>, op: Operation): map<Id, Policy> {
    if AreaOf(op.kind) == Policies then Put(m, op.policy, NextPolicy(op)) else m
  }

  function StepConfigs(m: map<(Id, Id), Config>, op: Operation): map<(Id, Id), Config> {
    if AreaOf(op.kind) == Configs then
      Put(m, (op.device, op.configKey), NextConfig(op, At(m, (op.device, op.configKey))))
    else m
  }

  /** An operation rewrites one entity from its old value, whatever the rest of the snapshot is. */
  function Mutate(s: Snapshot, op: Operation): Snapshot {
    Snapshot(s.header, StepDevices(s.devices, op), StepLinks(s.links, op), StepRoutes(s.routes, op),
             StepWorkloads(s.workloads, op), StepPolicies(s.policies, op), StepConfigs(s.configs, op))
  }

  function Effect(s: Snapshot, op: Operation): Snapshot { Canonical(Mutate(s, op)) }

  function Apply(ctx: Context, s: Snapshot, op: Operation): Result<Snapshot, Error> {
    match Objection(ctx, s, op)
    case Some(e) => Err(e)
    case None => if Valid(Effect(s, op)) then Ok(Effect(s, op)) else Err(InvalidResult)
  }

  // ----- applying, as a copy of the snapshot that is changed step by step -----

  method CheckGates(ctx: Context, s: Snapshot, op: Operation) returns (ok: bool)
    ensures ok <==> ExclusionGate(ctx, s, op) && WindowGate(ctx, s, op)
  {
    if ctx.exclusion {
      var left := Subjects(op, s);
      while left != {}
        invariant left <= Subjects(op, s)
        invariant forall id :: id in Subjects(op, s) - left && id in s.devices ==>
          ChangePermitted(s.devices[id], ctx.instant)
        decreases |left|
      {
        var id :| id in left;
        if id in s.devices && !ChangePermitted(s.devices[id], ctx.instant) { return false; }
        left := left - {id};
      }
    }
    if ctx.window && RequiresWindow(op.kind) && op.device != 0 && op.device in s.devices {
      return MaintenancePermitted(s.devices[op.device], ctx.instant);
    }
    ok := true;
  }

  /** Rewrites an existing device. */
  method AmendDevice(ctx: Context, current: Device, op: Operation) returns (r: Result<Device, Error>)
    requires AreaOf(op.kind) == Devices && !op.kind.DeviceAdd?
    ensures r ==
      match StateObjection(ctx, current.spec.state, op)
      case Some(e) => Err(e)
      case None => Ok(NextDevice(op, Some(current)).value)
  {
    var device := current;
    var state := device.spec.state;
    match op.kind {
    case DeviceRemove =>
      if state == Removed { return Err(Conflict); }
      if ctx.drainFirst && state != Draining && state != InMaintenance { return Err(UnsafeTransition); }
      device := device.(spec := device.spec.(state := Removed));
    case DeviceSetCapacity =>
      device := device.(spec := device.spec.(capacity := op.capacity));
    case DeviceSetState =>
      if op.entityState == Removed || op.entityState == Absent { return Err(UnsafeTransition); }
      if op.entityState == InMaintenance && ctx.drainFirst && state == Present { return Err(UnsafeTransition); }
      device := device.(spec := device.spec.(state := op.entityState));
    case DeviceSetWindows =>
      device := device.(exclusions := op.exclusions, maintenance := op.maintenance);
    case DrainResource =>
      if state == Removed || state == Draining || state == InMaintenance { return Err(Conflict); }
      device := device.(spec := device.spec.(state := Draining));
    case EnterMaintenance =>
      if state == InMaintenance || state == Removed { return Err(Conflict); }
      if ctx.drainFirst && state != Draining { return Err(UnsafeTransition); }
      device := device.(spec := device.spec.(state := InMaintenance));
    case ExitMaintenance =>
      if state != Draining && state != InMaintenance { return Err(Conflict); }
      device := device.(spec := device.spec.(state := Present));
    }
    r := Ok(device);
  }

  method ChangeDevice(ctx: Context, s: Snapshot, op: Operation) returns (r: Result<Snapshot, Error>)
    requires AreaOf(op.kind) == Devices
    ensures r == match DeviceObjection(ctx, s, op) case Some(e) => Err(e) case None => Ok(Mutate(s, op))
  {
    hide StateObjection;
    var next := s;
    if op.kind.DeviceAdd? {
      if op.device in next.devices { return Err(Conflict); }
      var device := Device(op.deviceSpec, op.exclusions, op.maintenance);
      if device.spec.state != Present && device.spec.state != Draining && device.spec.state != InMaintenance {
        return Err(UnsafeTransition);
      }
      next := next.(devices := next.devices[op.device := device]);
      return Ok(next);
    }
    if op.device !in next.devices { return Err(NotFound); }
    var amended := AmendDevice(ctx, next.devices[op.device], op);
    if amended.Err? { return Err(amended.error); }
    next := next.(devices := next.devices[op.device := amended.value]);
    r := Ok(next);
  }

  method ChangeLink(s: Snapshot, op: Operation) returns (r: Result<Snapshot, Error>)
    requires AreaOf(op.kind) == Links
    ensures r == match LinkObjection(s, op) case Some(e) => Err(e) case None => Ok(Mutate(s, op))
  {
    var next := s;
    if op.kind.LinkAdd? {
      if op.link in next.links { return Err(Conflict); }
      if op.linkSpec.endpointA !in next.devices { return Err(NotFound); }
      if op.linkSpec.endpointB !in next.devices { return Err(NotFound); }
      if op.linkSpec.endpointA == op.linkSpec.endpointB { return Err(UnsafeTransition); }
      next := next.(links := next.links[op.link := Link(op.linkSpec, Present)]);
      return Ok(next);
    }
    if op.link !in next.links { return Err(NotFound); }
    var link := next.links[op.link];
    if op.kind.LinkRemove? {
      if link.state == Removed { return Err(Conflict); }
      link := link.(state := Removed);
    } else {
      if op.capacity < link.spec.reserved { return Err(CapacityExceeded); }
      link := link.(spec := link.spec.(capacity := op.capacity));
    }
    next := next.(links := next.links[op.link := link]);
    r := Ok(next);
  }

  method KnowsPath(s: Snapshot, path: seq<Id>) returns (ok: bool)
    ensures ok == PathKnown(s, path)
  {
    for i := 0 to |path|
      invariant forall j :: 0 <= j < i ==> path[j] in s.links
    {
      if path[i] !in s.links { return false; }
    }
    ok := true;
  }

  method ChangeRoute(s: Snapshot, op: Operation) returns (r: Result<Snapshot, Error>)
    requires AreaOf(op.kind) == Routes
    ensures r == match RouteObjection(s, op) case Some(e) => Err(e) case None => Ok(Mutate(s, op))
  {
    hide Walk;
    var next := s;
    if op.kind.RouteAdd? {
      if op.route in next.routes { return Err(Conflict); }
      if op.routeSpec.path == [] { return Err(UnsafeTransition); }
      if op.routeSpec.source !in next.devices { return Err(NotFound); }
      if op.routeSpec.sink !in next.devices { return Err(NotFound); }
      var known := KnowsPath(next, op.routeSpec.path);
      if !known { return Err(NotFound); }
      var route := Route(op.routeSpec, op.routeState);
      var walkable := RouteIsWalkable(next, route);
      if !walkable { return Err(UnsafeTransition); }
      next := next.(routes := next.routes[op.route := route]);
      return Ok(next);
    }
    if op.route !in next.routes { return Err(NotFound); }
    var route := next.routes[op.route];
    match op.kind {
    case RouteRemove =>
      var bound := IsBound(next, op.route);
      if bound { return Err(Conflict); }
      next := next.(routes := next.routes - {op.route});
    case RouteSetPath =>
      var known := KnowsPath(next, op.routeSpec.path);
      if !known { return Err(NotFound); }
      var candidate := Route(op.routeSpec, route.state);
      if candidate.spec.path == [] { return Err(UnsafeTransition); }
      var walkable := RouteIsWalkable(next, candidate);
      if !walkable { return Err(UnsafeTransition); }
      next := next.(routes := next.routes[op.route := route.(spec := candidate.spec)]);
    case RouteSetState =>
      var walkable := RouteIsWalkable(next, route);
      if op.routeState == Active && !walkable { return Err(UnsafeTransition); }
      next := next.(routes := next.routes[op.route := route.(state := op.routeState)]);
    }
    r := Ok(next);
  }

  /** Looks for a workload that still binds the route. */
  method IsBound(s: Snapshot, route: Id) returns (bound: bool)
    ensures bound == Bound(s, route)
  {
    var left := s.workloads.Keys;
    while left != {}
      invariant left <= s.workloads.Keys
      invariant forall w :: w in s.workloads.Keys - left ==> !BindsRoute(s.workloads[w].bindings, route)
      decreases |left|
    {
      var w :| w in left;
      var bs := s.workloads[w].bindings;
      for i := 0 to |bs|
        invariant forall j :: 0 <= j < i ==> bs[j].route != route
      {
        if bs[i].route == route {
          assert BindsRoute(s.workloads[w].bindings, route);
          return true;
        }
      }
      left := left - {w};
    }
    bound := false;
  }

  method KnowsBindings(s: Snapshot, bs: seq<Binding>) returns (ok: bool)
    ensures ok == BindingsKnown(s, bs)
  {
    for i := 0 to |bs|
      invariant forall j :: 0 <= j < i ==> bs[j].route in s.routes
    {
      if bs[i].route !in s.routes { return false; }
    }
    ok := true;
  }

  method ChangeWorkload(s: Snapshot, op: Operation) returns (r: Result<Snapshot, Error>)
    requires AreaOf(op.kind) == Workloads
    ensures r == match WorkloadObjection(s, op) case Some(e) => Err(e) case None => Ok(Mutate(s, op))
  {
    var next := s;
    var known := KnowsBindings(next, op.bindings);
    if op.kind.WorkloadAdd? {
      if op.workload in next.workloads { return Err(Conflict); }
      if !known { return Err(NotFound); }
      next := next.(workloads := next.workloads[op.workload := Workload(op.bindings, op.requirements, op.contract)]);
      return Ok(next);
    }
    if op.workload !in next.workloads { return Err(NotFound); }
    var workload := next.workloads[op.workload];
    match op.kind {
    case WorkloadRemove =>
      next := next.(workloads := next.workloads - {op.workload});
    case WorkloadSetBindings =>
      if !known { return Err(NotFound); }
      next := next.(workloads := next.workloads[op.workload := workload.(bindings := op.bindings)]);
    case WorkloadSetRequirements =>
      workload := workload.(requirements := op.requirements, contract := op.contract);
      next := next.(workloads := next.workloads[op.workload := workload]);
    }
    r := Ok(next);
  }

  method ChangePolicy(s: Snapshot, op: Operation) returns (r: Result<Snapshot, Error>)
    requires AreaOf(op.kind) == Policies
    ensures r == match PolicyObjection(s, op) case Some(e) => Err(e) case None => Ok(Mutate(s, op))
  {
    var next := s;
    if op.kind.PolicyBind? {
      if op.policy == 0 { return Err(InvalidArgument); }
      if op.policy in next.policies {
        var existing := next.policies[op.policy];
        existing := existing.(target := op.policyTarget, value := op.value, enforced := op.enforced);
        next := next.(policies := next.policies[op.policy := existing]);
      } else {
        next := next.(policies := next.policies[op.policy := Policy(op.policyTarget, op.value, op.enforced)]);
      }
    } else {
      if op.policy !in next.policies { return Err(NotFound); }
      next := next.(policies := next.policies - {op.policy});
    }
    r := Ok(next);
  }

  method ChangeConfig(s: Snapshot, op: Operation) returns (r: Result<Snapshot, Error>)
    requires AreaOf(op.kind) == Configs
    ensures r == match ConfigObjection(s, op) case Some(e) => Err(e) case None => Ok(Mutate(s, op))
  {
    var next := s;
    var key := (op.device, op.configKey);
    if op.kind.ConfigSet? {
      if op.device !in next.devices { return Err(NotFound); }
      if key in next.configs {
        var existing := next.configs[key];
        if existing.revision >= MAX_U64 { return Err(Overflow); }
        existing := existing.(value := op.value, revision := existing.revision + 1);
        next := next.(configs := next.configs[key := existing]);
      } else {
        next := next.(configs := next.configs[key := Config(op.value, 0)]);
      }
    } else {
      if key !in next.configs { return Err(NotFound); }
      next := next.(configs := next.configs - {key});
    }
    r := Ok(next);
  }

  /** Applies one operation.  The snapshot that comes back is the old one with exactly one entity
      rewritten, normalised and valid. */
  method ApplyOperation(ctx: Context, s: Snapshot, op: Operation) returns (r: Result<Snapshot, Error>)
    ensures r == Apply(ctx, s, op)
  {
    hide ExclusionGate, WindowGate, DeviceObjection, LinkObjection, RouteObjection, WorkloadObjection, PolicyObjection,
      ConfigObjection, Mutate, Canonical, Valid;
    var open := CheckGates(ctx, s, op);
    if !open { return Err(UnsafeTransition); }
    var next: Result<Snapshot, Error>;
    match AreaOf(op.kind) {
    case Devices => next := ChangeDevice(ctx, s, op);
    case Links => next := ChangeLink(s, op);
    case Routes => next := ChangeRoute(s, op);
    case Workloads => next := ChangeWorkload(s, op);
    case Policies => next := ChangePolicy(s, op);
    case Configs => next := ChangeConfig(s, op);
    }
    if next.Err? { return next; }
    var canonical := Canonical(next.value);
    if !Valid(canonical) { return Err(InvalidResult); }
    r := Ok(canonical);
  }
}
