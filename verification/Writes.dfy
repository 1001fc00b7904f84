/** What an accepted operation leaves behind in the entity it writes, field by field. */
module Writes {
  import opened Wrappers
  import opened Snapshots
  import opened Operations
  import opened Evaluate
  import opened Acceptance

  /** The device keeps everything but its state. */
  ghost predicate MovedTo(was: Device, now: Device, state: EntityState) {
    && now.spec.state == state && now.spec == was.spec.(state := state)
    && InTime(was.exclusions, now.exclusions) && InTime(was.maintenance, now.maintenance)
  }

  ghost predicate DeviceWritten(op: Operation, was: Option<Device>, now: Option<Device>) {
    now.Some? &&
      var d := now.value;
      if op.kind.DeviceAdd? then
        d.spec == op.deviceSpec && InTime(op.exclusions, d.exclusions) && InTime(op.maintenance, d.maintenance)
      else
        was.Some? &&
          match op.kind
          case DeviceRemove => MovedTo(was.value, d, Removed)
          case DeviceSetState => MovedTo(was.value, d, op.entityState)
          case DrainResource => MovedTo(was.value, d, Draining)
          case EnterMaintenance => MovedTo(was.value, d, InMaintenance)
          case ExitMaintenance => MovedTo(was.value, d, Present)
          case DeviceSetCapacity =>
            && d.spec.capacity == op.capacity && d.spec == was.value.spec.(capacity := op.capacity)
            && InTime(was.value.exclusions, d.exclusions) && InTime(was.value.maintenance, d.maintenance)
          case _ =>
            && d.spec == was.value.spec
            && InTime(op.exclusions, d.exclusions) && InTime(op.maintenance, d.maintenance)
  }

  /** A link added is present, one removed stays as a tombstone, and a new capacity changes nothing else. */
  ghost predicate LinkWritten(op: Operation, was: Option<Link>, now: Option<Link>) {
    now.Some? &&
      if op.kind.LinkAdd? then now.value.state == Present && NormalLink(Link(op.linkSpec, Present), now.value)
      else
        was.Some? &&
          if op.kind.LinkRemove? then NormalLink(was.value.(state := Removed), now.value)
          else
            && now.value.spec.capacity == op.capacity
            && NormalLink(was.value.(spec := was.value.spec.(capacity := op.capacity)), now.value)
  }

  ghost predicate RouteWritten(op: Operation, was: Option<Route>, now: Option<Route>) {
    match op.kind
    case RouteAdd => now == Some(Route(op.routeSpec, op.routeState))
    case RouteRemove => now.None?
    case RouteSetPath => was.Some? && now.Some? && now.value.spec == op.routeSpec && now.value.state == was.value.state
    case _ => was.Some? && now.Some? && now.value.spec == was.value.spec && now.value.state == op.routeState
  }

  ghost predicate WorkloadWritten(op: Operation, was: Option<Workload>, now: Option<Workload>) {
    if op.kind.WorkloadRemove? then now.None?
    else
      now.Some? &&
        match op.kind
        case WorkloadAdd => NormalWorkload(Workload(op.bindings, op.requirements, op.contract), now.value)
        case WorkloadSetBindings =>
          was.Some? && NormalWorkload(Workload(op.bindings, was.value.requirements, was.value.contract), now.value)
        case _ => was.Some? && NormalWorkload(Workload(was.value.bindings, op.requirements, op.contract), now.value)
  }

  /** A policy is replaced as a whole, and configuration counts its revisions, from 0. */
  ghost predicate SettingWritten(s: Snapshot, op: Operation, t: Snapshot) {
    var key := (op.device, op.configKey);
    match op.kind
    case PolicyBind =>
      op.policy in t.policies &&
        var p := t.policies[op.policy]; p.target == op.policyTarget && p.value == op.value && p.enforced == op.enforced
    case PolicyUnbind => op.policy !in t.policies
    case ConfigSet =>
      && key in t.configs && t.configs[key].value == op.value
      && t.configs[key].revision == (if key in s.configs then s.configs[key].revision + 1 else 0)
    case _ => key !in t.configs
  }

  /** The entity written is, field by field, what the operation asks for where it asks for something, and
      what it was where it does not. */
  lemma WrittenExactly(ctx: Context, s: Snapshot, op: Operation, t: Snapshot)
    requires Apply(ctx, s, op) == Ok(t)
    ensures match AreaOf(op.kind)
      case Devices => DeviceWritten(op, At(s.devices, op.device), At(t.devices, op.device))
      case Links => LinkWritten(op, At(s.links, op.link), At(t.links, op.link))
      case Routes => RouteWritten(op, At(s.routes, op.route), At(t.routes, op.route))
      case Workloads => WorkloadWritten(op, At(s.workloads, op.workload), At(t.workloads, op.workload))
      case Policies | Configs => SettingWritten(s, op, t)
  {
    hide Valid, KindObjection, ExclusionGate, WindowGate, CanonicalDevice, CanonicalLink, CanonicalWorkload;
    hide DeviceWritten, LinkWritten, RouteWritten, WorkloadWritten, NextDevice, NextLink, NextRoute, NextWorkload;
    AdmissibleExactly(ctx, s, op);
    match AreaOf(op.kind) {
      case Devices => DeviceWrites(s, op);
      case Links => LinkWrites(s, op);
      case Routes => RouteWrites(s, op);
      case Workloads => WorkloadWrites(s, op);
      case Policies | Configs =>
    }
  }

  lemma DeviceWrites(s: Snapshot, op: Operation)
    requires AreaOf(op.kind) == Devices && (op.kind.DeviceAdd? || op.device in s.devices)
    ensures DeviceWritten(op, At(s.devices, op.device), At(CanonicalDevices(StepDevices(s.devices, op)), op.device))
  {
    hide InTime, SortWindows;
    SortedInTime(op.exclusions);
    SortedInTime(op.maintenance);
    if op.device in s.devices {
      SortedInTime(s.devices[op.device].exclusions);
      SortedInTime(s.devices[op.device].maintenance);
    }
  }

  lemma LinkWrites(s: Snapshot, op: Operation)
    requires AreaOf(op.kind) == Links && (op.kind.LinkAdd? || op.link in s.links)
    ensures LinkWritten(op, At(s.links, op.link), At(CanonicalLinks(StepLinks(s.links, op)), op.link))
  {
    hide NormalLink, CanonicalLink;
    var now := NextLink(op, At(s.links, op.link)).value;
    NormalLinks(now);
    LinkKeeps(now);
  }

  lemma LinkKeeps(l: Link)
    ensures CanonicalLink(l).state == l.state && CanonicalLink(l).spec.capacity == l.spec.capacity
  {
  }

  lemma RouteWrites(s: Snapshot, op: Operation)
    requires AreaOf(op.kind) == Routes && (op.kind.RouteAdd? || op.route in s.routes)
    ensures RouteWritten(op, At(s.routes, op.route), At(StepRoutes(s.routes, op), op.route))
  {
  }

  lemma WorkloadWrites(s: Snapshot, op: Operation)
    requires AreaOf(op.kind) == Workloads && (op.kind.WorkloadAdd? || op.workload in s.workloads)
    ensures WorkloadWritten(op, At(s.workloads, op.workload),
                            At(CanonicalWorkloads(StepWorkloads(s.workloads, op)), op.workload))
  {
    hide NormalWorkload, CanonicalWorkload;
    var now := NextWorkload(op, At(s.workloads, op.workload));
    if now.Some? { NormalWorkloads(now.value); }
  }
}
