/** The compensation recorded with every step, and exactly when applying it after the step brings
    the snapshot back. */
module Compensations {
  import opened Wrappers
  import opened Sorting
  import opened Snapshots
  import opened Operations
  import opened Evaluate
  import opened Commutation

  function SameTarget(op: Operation): Operation {
    Blank(op.kind).(device := op.device, link := op.link, route := op.route, workload := op.workload,
                    policy := op.policy, configKey := op.configKey)
  }

  /** The inverse recorded for an operation planned in snapshot `s`; None when it needs an
      operator. */
  function Inverse(s: Snapshot, op: Operation): Option<Operation> {
    var inv := SameTarget(op);
    match op.kind
    case DeviceAdd => Some(inv.(kind := DeviceRemove))
    case DeviceRemove =>
      if op.device !in s.devices then None
      else
        var d := s.devices[op.device];
        Some(inv.(kind := DeviceAdd, deviceSpec := d.spec, exclusions := d.exclusions, maintenance := d.maintenance))
    case DeviceSetCapacity =>
      if op.device !in s.devices then None
      else
        var spec := s.devices[op.device].spec;
        Some(inv.(capacity := spec.capacity, deviceSpec := inv.deviceSpec.(reserved := spec.reserved)))
    case DeviceSetState | DrainResource | EnterMaintenance | ExitMaintenance =>
      if op.device !in s.devices then None
      else Some(inv.(kind := DeviceSetState, entityState := s.devices[op.device].spec.state))
    case DeviceSetWindows =>
      if op.device !in s.devices then None
      else Some(inv.(exclusions := s.devices[op.device].exclusions, maintenance := s.devices[op.device].maintenance))
    case LinkAdd => Some(inv.(kind := LinkRemove))
    case LinkRemove =>
      if op.link !in s.links then None else Some(inv.(kind := LinkAdd, linkSpec := s.links[op.link].spec))
    case LinkSetCapacity =>
      if op.link !in s.links then None
      else Some(inv.(linkSpec := s.links[op.link].spec, capacity := s.links[op.link].spec.capacity))
    case RouteAdd => Some(inv.(kind := RouteRemove))
    case RouteRemove =>
      if op.route !in s.routes then None
      else Some(inv.(kind := RouteAdd, routeSpec := s.routes[op.route].spec, routeState := s.routes[op.route].state))
    case RouteSetPath | RouteSetState =>
      if op.route !in s.routes then None
      else
        Some(inv.(kind := RouteSetPath, routeSpec := s.routes[op.route].spec, routeState := s.routes[op.route].state))
    case WorkloadAdd => Some(inv.(kind := WorkloadRemove))
    case WorkloadRemove =>
      if op.workload !in s.workloads then None
      else Some(WithWorkload(inv.(kind := WorkloadAdd), s.workloads[op.workload]))
    case WorkloadSetBindings | WorkloadSetRequirements =>
      if op.workload !in s.workloads then None else Some(WithWorkload(inv, s.workloads[op.workload]))
    case PolicyBind =>
      if op.policy !in s.policies then Some(inv.(kind := PolicyUnbind))
      else Some(WithPolicy(inv, s.policies[op.policy]))
    case PolicyUnbind =>
      if op.policy !in s.policies then None else Some(WithPolicy(inv.(kind := PolicyBind), s.policies[op.policy]))
    case ConfigSet =>
      if (op.device, op.configKey) !in s.configs then Some(inv.(kind := ConfigClear))
      else Some(inv.(value := s.configs[(op.device, op.configKey)].value))
    case ConfigClear =>
      if (op.device, op.configKey) !in s.configs then None
      else Some(inv.(kind := ConfigSet, value := s.configs[(op.device, op.configKey)].value))
  }

  function WithWorkload(inv: Operation, w: Workload): Operation {
    inv.(bindings := w.bindings, requirements := w.requirements, contract := w.contract)
  }

  function WithPolicy(inv: Operation, p: Policy): Operation {
    inv.(policyTarget := p.target, value := p.value, enforced := p.enforced)
  }

  // ----- what can be undone, judged in the snapshot before the operation -----

  function StateAfter(op: Operation): EntityState {
    match op.kind
    case DrainResource => Draining
    case EnterMaintenance => InMaintenance
    case ExitMaintenance => Present
    case _ => op.entityState
  }

  /** A device state can be set back unless it was a tombstone state, or it was maintenance and
      the policy demands a drain first. */
  predicate StateRestorable(ctx: Context, was: EntityState, now: EntityState) {
    was != Removed && was != Absent && !(was == InMaintenance && ctx.drainFirst && now == Present)
  }

  predicate Undoable(ctx: Context, s: Snapshot, op: Operation) {
    match op.kind
    case DeviceAdd | DeviceRemove | LinkAdd | LinkRemove => false
    case DeviceSetCapacity | DeviceSetWindows | LinkSetCapacity => true
    case DeviceSetState | DrainResource | EnterMaintenance | ExitMaintenance =>
      op.device in s.devices && StateRestorable(ctx, s.devices[op.device].spec.state, StateAfter(op))
    case RouteAdd => true
    case RouteRemove | RouteSetPath => op.route in s.routes && Walkable(s.links, s.routes[op.route].spec)
    case RouteSetState =>
      op.route in s.routes && Walkable(s.links, s.routes[op.route].spec) && op.routeState == s.routes[op.route].state
    case WorkloadAdd | WorkloadRemove | WorkloadSetBindings | WorkloadSetRequirements => true
    case PolicyBind => true
    case PolicyUnbind => op.policy != 0
    case ConfigSet => (op.device, op.configKey) !in s.configs
    case ConfigClear => (op.device, op.configKey) in s.configs && s.configs[(op.device, op.configKey)].revision == 0
  }

  predicate GatesOpen(ctx: Context, s: Snapshot, op: Operation) {
    ExclusionGate(ctx, s, op) && WindowGate(ctx, s, op)
  }

  /** The step was accepted in a sound snapshot and left `t`; `inv` is its compensation. */
  ghost predicate Done(ctx: Context, s: Snapshot, op: Operation, t: Snapshot, inv: Operation) {
    && Canonical(s) == s && Valid(s)
    && Apply(ctx, s, op) == Ok(t) && Inverse(s, op) == Some(inv)
  }

  // ----- one kind at a time -----

  /** Undoing the mutation undoes the effect. */
  lemma Restored(s: Snapshot, op: Operation, inv: Operation)
    requires Canonical(s) == s && Mutate(Mutate(s, op), inv) == s
    ensures Effect(Effect(s, op), inv) == s
  {
    hide Canonical, Mutate;
    EffectAbsorbs(Mutate(s, op), inv);
  }

  /** What the checks of the inverse's own kind say, and where it leads, match `Undoable`. */
  ghost predicate Answers(ctx: Context, s: Snapshot, op: Operation, inv: Operation) {
    var t := Effect(s, op);
    if Undoable(ctx, s, op) then KindObjection(ctx, t, inv) == None && Mutate(Mutate(s, op), inv) == s
    else KindObjection(ctx, t, inv) != None || Effect(t, inv) != s
  }

  ghost predicate Accepted(ctx: Context, s: Snapshot, op: Operation, inv: Operation) {
    Canonical(s) == s && Valid(s) && KindObjection(ctx, s, op) == None && Inverse(s, op) == Some(inv)
  }

  lemma DeviceAddAnswers(ctx: Context, s: Snapshot, op: Operation, inv: Operation)
    requires Accepted(ctx, s, op, inv) && op.kind.DeviceAdd?
    ensures Answers(ctx, s, op, inv)
  {
    hide SortWindows, Valid;
    var t := Effect(s, op);
    assert op.device in t.devices && op.device !in s.devices;
    assert op.device in Effect(t, inv).devices;
  }

  lemma DeviceRemoveAnswers(ctx: Context, s: Snapshot, op: Operation, inv: Operation)
    requires Accepted(ctx, s, op, inv) && op.kind.DeviceRemove?
    ensures Answers(ctx, s, op, inv)
  {
    hide SortWindows, Valid;
    assert op.device in Effect(s, op).devices;
  }

  lemma DeviceBack(s: Snapshot, op: Operation, inv: Operation)
    requires AreaOf(op.kind) == Devices && !op.kind.DeviceAdd? && !op.kind.DeviceRemove? && op.device in s.devices
    requires Inverse(s, op) == Some(inv)
    ensures Mutate(Mutate(s, op), inv) == s
  {
    assert StepDevices(StepDevices(s.devices, op), inv) == s.devices;
  }

  lemma DeviceAmendAnswers(ctx: Context, s: Snapshot, op: Operation, inv: Operation)
    requires Accepted(ctx, s, op, inv) && AreaOf(op.kind) == Devices && !op.kind.DeviceAdd? && !op.kind.DeviceRemove?
    ensures Answers(ctx, s, op, inv)
  {
    hide SortWindows, Valid, Mutate;
    DeviceBack(s, op, inv);
    var t := Effect(s, op);
    assert t.devices == CanonicalDevices(StepDevices(s.devices, op)) by { EffectDevices(s, op); }
    assert op.device in t.devices;
  }

  lemma EffectDevices(s: Snapshot, op: Operation)
    ensures Effect(s, op).devices == CanonicalDevices(StepDevices(s.devices, op))
  {
  }

  lemma LinkAnswers(ctx: Context, s: Snapshot, op: Operation, inv: Operation)
    requires Accepted(ctx, s, op, inv) && AreaOf(op.kind) == Links
    ensures Answers(ctx, s, op, inv)
  {
    hide Accepted, Answers;
    match op.kind {
      case LinkAdd => LinkAddAnswers(ctx, s, op, inv);
      case LinkRemove => LinkRemoveAnswers(ctx, s, op, inv);
      case LinkSetCapacity => LinkCapacityAnswers(ctx, s, op, inv);
    }
  }

  lemma LinkAddAnswers(ctx: Context, s: Snapshot, op: Operation, inv: Operation)
    requires Accepted(ctx, s, op, inv) && op.kind.LinkAdd?
    ensures Answers(ctx, s, op, inv)
  {
    hide SortUnique, Valid;
    var t := Effect(s, op);
    assert op.link in t.links && op.link !in s.links;
    assert op.link in Effect(t, inv).links;
  }

  lemma LinkRemoveAnswers(ctx: Context, s: Snapshot, op: Operation, inv: Operation)
    requires Accepted(ctx, s, op, inv) && op.kind.LinkRemove?
    ensures Answers(ctx, s, op, inv)
  {
    hide SortUnique, Valid;
    assert op.link in Effect(s, op).links;
  }

  lemma LinkCapacityAnswers(ctx: Context, s: Snapshot, op: Operation, inv: Operation)
    requires Accepted(ctx, s, op, inv) && op.kind.LinkSetCapacity?
    ensures Answers(ctx, s, op, inv)
  {
    hide SortUnique, Canonical, Valid;
    ReservedFits(s, op.link);
    assert StepLinks(StepLinks(s.links, op), inv) == s.links;
    EffectLinks(s, op);
  }

  lemma ReservedFits(s: Snapshot, link: Id)
    requires Valid(s) && link in s.links
    ensures s.links[link].spec.reserved <= s.links[link].spec.capacity
  {
    assert LinkOk(s.devices, s.links[link]);
  }

  lemma EffectLinks(s: Snapshot, op: Operation)
    ensures Effect(s, op).links == CanonicalLinks(StepLinks(s.links, op))
  {
  }

  // ----- routes -----

  /** Route operations leave everything routes refer to alone. */
  lemma EffectRoutes(s: Snapshot, op: Operation)
    requires Canonical(s) == s && AreaOf(op.kind) == Routes
    ensures Effect(s, op) == s.(routes := StepRoutes(s.routes, op))
  {
    hide CanonicalDevices, CanonicalLinks, CanonicalWorkloads;
  }

  /** In a sound snapshot nothing binds a route that does not exist. */
  lemma NeverBound(s: Snapshot, route: Id)
    requires Valid(s) && route !in s.routes
    ensures !Bound(s, route)
  {
    forall w | w in s.workloads ensures !BindsRoute(s.workloads[w].bindings, route) {
      assert WorkloadOk(s.routes, s.workloads[w]);
    }
  }

  lemma RouteAddAnswers(ctx: Context, s: Snapshot, op: Operation, inv: Operation)
    requires Accepted(ctx, s, op, inv) && op.kind.RouteAdd?
    ensures Answers(ctx, s, op, inv)
  {
    hide Canonical, Valid, Walkable, PathKnown;
    EffectRoutes(s, op);
    NeverBound(s, op.route);
    assert StepRoutes(StepRoutes(s.routes, op), inv) == s.routes;
  }

  lemma RouteIsOk(s: Snapshot, route: Id)
    requires Valid(s) && route in s.routes
    ensures RouteOk(s, s.routes[route])
  {
  }

  lemma RouteRemoveAnswers(ctx: Context, s: Snapshot, op: Operation, inv: Operation)
    requires Accepted(ctx, s, op, inv) && op.kind.RouteRemove?
    ensures Answers(ctx, s, op, inv)
  {
    hide Canonical, Valid, Walkable, Bound;
    EffectRoutes(s, op);
    RouteIsOk(s, op.route);
    assert StepRoutes(StepRoutes(s.routes, op), inv) == s.routes;
  }

  lemma RoutePathAnswers(ctx: Context, s: Snapshot, op: Operation, inv: Operation)
    requires Accepted(ctx, s, op, inv) && op.kind.RouteSetPath?
    ensures Answers(ctx, s, op, inv)
  {
    hide Canonical, Valid, Walkable, Bound;
    EffectRoutes(s, op);
    RouteIsOk(s, op.route);
    assert StepRoutes(StepRoutes(s.routes, op), inv) == s.routes;
  }

  lemma RouteStateAnswers(ctx: Context, s: Snapshot, op: Operation, inv: Operation)
    requires Accepted(ctx, s, op, inv) && op.kind.RouteSetState?
    ensures Answers(ctx, s, op, inv)
  {
    hide Canonical, Valid, Walkable, Bound;
    EffectRoutes(s, op);
    RouteIsOk(s, op.route);
    var t := Effect(s, op);
    if op.routeState == s.routes[op.route].state {
      assert StepRoutes(s.routes, op) == s.routes;
      assert StepRoutes(StepRoutes(s.routes, op), inv) == s.routes;
    } else {
      RoutesAfter(t, inv);
      assert Effect(t, inv).routes[op.route].state == op.routeState;
    }
  }

  lemma RoutesAfter(s: Snapshot, op: Operation)
    ensures Effect(s, op).routes == StepRoutes(s.routes, op)
  {
  }

  lemma RouteAnswers(ctx: Context, s: Snapshot, op: Operation, inv: Operation)
    requires Accepted(ctx, s, op, inv) && AreaOf(op.kind) == Routes
    ensures Answers(ctx, s, op, inv)
  {
    hide Accepted, Answers;
    match op.kind {
      case RouteAdd => RouteAddAnswers(ctx, s, op, inv);
      case RouteRemove => RouteRemoveAnswers(ctx, s, op, inv);
      case RouteSetPath => RoutePathAnswers(ctx, s, op, inv);
      case RouteSetState => RouteStateAnswers(ctx, s, op, inv);
    }
  }

  // ----- workloads, policies, configuration -----

  lemma EffectWorkloads(s: Snapshot, op: Operation)
    requires Canonical(s) == s && AreaOf(op.kind) == Workloads
    ensures Effect(s, op) == s.(workloads := CanonicalWorkloads(StepWorkloads(s.workloads, op)))
  {
    hide CanonicalDevices, CanonicalLinks, CanonicalWorkloads;
  }

  lemma WorkloadAnswers(ctx: Context, s: Snapshot, op: Operation, inv: Operation)
    requires Accepted(ctx, s, op, inv) && AreaOf(op.kind) == Workloads
    ensures Answers(ctx, s, op, inv)
  {
    hide Canonical, Valid, CanonicalWorkload, Mutate, Effect;
    EffectWorkloads(s, op);
    if op.workload in s.workloads { WorkloadKnown(s, op.workload); }
    WorkloadBack(s, op, inv);
  }

  lemma WorkloadBack(s: Snapshot, op: Operation, inv: Operation)
    requires AreaOf(op.kind) == Workloads && Inverse(s, op) == Some(inv)
    requires op.kind.WorkloadAdd? <==> op.workload !in s.workloads
    ensures Mutate(Mutate(s, op), inv) == s
  {
    assert StepWorkloads(StepWorkloads(s.workloads, op), inv) == s.workloads;
  }

  lemma WorkloadKnown(s: Snapshot, workload: Id)
    requires Valid(s) && workload in s.workloads
    ensures BindingsKnown(s, s.workloads[workload].bindings)
  {
    assert WorkloadOk(s.routes, s.workloads[workload]);
  }

  lemma PolicyAnswers(ctx: Context, s: Snapshot, op: Operation, inv: Operation)
    requires Accepted(ctx, s, op, inv) && AreaOf(op.kind) == Policies
    ensures Answers(ctx, s, op, inv)
  {
    hide Canonical, Valid, Mutate;
    EffectPolicies(s, op);
    PolicyBack(s, op, inv);
  }

  /** Whatever the step wrote, putting the old policy (or its absence) back restores the map. */
  lemma PolicyPutBack(m: map<Id, Policy>, op: Operation, inv: Operation)
    requires AreaOf(op.kind) == Policies && AreaOf(inv.kind) == Policies && inv.policy == op.policy
    requires NextPolicy(inv) == At(m, op.policy)
    ensures StepPolicies(StepPolicies(m, op), inv) == m
  {
    hide NextPolicy;
  }

  lemma PolicyInverse(s: Snapshot, op: Operation, inv: Operation)
    requires AreaOf(op.kind) == Policies && Inverse(s, op) == Some(inv)
    ensures AreaOf(inv.kind) == Policies && inv.policy == op.policy && NextPolicy(inv) == At(s.policies, op.policy)
  {
  }

  lemma PolicyBack(s: Snapshot, op: Operation, inv: Operation)
    requires AreaOf(op.kind) == Policies && Inverse(s, op) == Some(inv)
    ensures Mutate(Mutate(s, op), inv) == s
  {
    hide Inverse, StepPolicies;
    PolicyInverse(s, op, inv);
    PolicyPutBack(s.policies, op, inv);
  }

  lemma EffectPolicies(s: Snapshot, op: Operation)
    ensures Effect(s, op).policies == StepPolicies(s.policies, op)
  {
  }

  lemma ConfigAnswers(ctx: Context, s: Snapshot, op: Operation, inv: Operation)
    requires Accepted(ctx, s, op, inv) && AreaOf(op.kind) == Configs
    ensures Answers(ctx, s, op, inv)
  {
    hide Canonical, Valid, Mutate;
    var key := (op.device, op.configKey);
    var t := Effect(s, op);
    EffectConfigs(s, op);
    EffectConfigs(t, inv);
    if key in s.configs { ConfigDevice(s, key); }
    if Undoable(ctx, s, op) {
      ConfigBack(ctx, s, op, inv);
    } else {
      assert Effect(t, inv).configs[key].revision != s.configs[key].revision;
    }
  }

  lemma ConfigSetBack(s: Snapshot, op: Operation, inv: Operation)
    requires op.kind.ConfigSet? && inv.kind.ConfigClear? && (inv.device, inv.configKey) == (op.device, op.configKey)
    requires (op.device, op.configKey) !in s.configs
    ensures StepConfigs(StepConfigs(s.configs, op), inv) == s.configs
  {
  }

  lemma ConfigClearBack(s: Snapshot, op: Operation, inv: Operation)
    requires op.kind.ConfigClear? && inv.kind.ConfigSet? && (inv.device, inv.configKey) == (op.device, op.configKey)
    requires (op.device, op.configKey) in s.configs && s.configs[(op.device, op.configKey)] == Config(inv.value, 0)
    ensures StepConfigs(StepConfigs(s.configs, op), inv) == s.configs
  {
  }

  lemma ConfigBack(ctx: Context, s: Snapshot, op: Operation, inv: Operation)
    requires AreaOf(op.kind) == Configs && Inverse(s, op) == Some(inv) && Undoable(ctx, s, op)
    ensures Mutate(Mutate(s, op), inv) == s
  {
    hide StepConfigs;
    if op.kind.ConfigSet? { ConfigSetBack(s, op, inv); } else { ConfigClearBack(s, op, inv); }
  }

  /** Which devices exist is not changed by configuration. */
  lemma EffectConfigs(s: Snapshot, op: Operation)
    ensures Effect(s, op).configs == StepConfigs(s.configs, op)
    ensures AreaOf(op.kind) == Configs ==> Effect(s, op).devices.Keys == s.devices.Keys
  {
    hide CanonicalDevice;
  }

  lemma ConfigDevice(s: Snapshot, key: (Id, Id))
    requires Valid(s) && key in s.configs
    ensures key.0 in s.devices
  {
    assert ConfigOk(s.devices, key, s.configs[key]);
  }

  // ----- the main result -----

  lemma EveryKindAnswers(ctx: Context, s: Snapshot, op: Operation, inv: Operation)
    requires Accepted(ctx, s, op, inv)
    ensures Answers(ctx, s, op, inv)
  {
    hide Accepted, Answers;
    match AreaOf(op.kind) {
      case Devices =>
        match op.kind {
          case DeviceAdd => DeviceAddAnswers(ctx, s, op, inv);
          case DeviceRemove => DeviceRemoveAnswers(ctx, s, op, inv);
          case _ => DeviceAmendAnswers(ctx, s, op, inv);
        }
      case Links => LinkAnswers(ctx, s, op, inv);
      case Routes => RouteAnswers(ctx, s, op, inv);
      case Workloads => WorkloadAnswers(ctx, s, op, inv);
      case Policies => PolicyAnswers(ctx, s, op, inv);
      case Configs => ConfigAnswers(ctx, s, op, inv);
    }
  }

  /** After an accepted step, its compensation restores the snapshot exactly when the gates are
      open for it and the step was undoable to begin with: never for adding or removing devices
      and links, never for a real change of a route's state or of an existing configuration
      value, and otherwise unless one of the guards of the inverse fails. */
  lemma CompensationRestoresExactly(ctx: Context, s: Snapshot, op: Operation, t: Snapshot, inv: Operation)
    requires Done(ctx, s, op, t, inv)
    ensures Apply(ctx, t, inv) == Ok(s) <==> GatesOpen(ctx, t, inv) && Undoable(ctx, s, op)
  {
    hide Undoable, ExclusionGate, WindowGate, KindObjection, Canonical, Mutate, Valid, Inverse;
    EveryKindAnswers(ctx, s, op, inv);
    if Undoable(ctx, s, op) { Restored(s, op, inv); }
  }

  /** Setting back an existing configuration value restores everything but the revision counter,
      which has moved on twice. */
  lemma ConfigValueRestored(ctx: Context, s: Snapshot, op: Operation, t: Snapshot, inv: Operation, u: Snapshot)
    requires Done(ctx, s, op, t, inv) && op.kind.ConfigSet? && (op.device, op.configKey) in s.configs
    requires Apply(ctx, t, inv) == Ok(u)
    ensures var key := (op.device, op.configKey);
      u == s.(configs := s.configs[key := s.configs[key].(revision := s.configs[key].revision + 2)])
  {
    hide ExclusionGate, WindowGate, Valid, CanonicalDevices, CanonicalLinks, CanonicalWorkloads;
    EffectAbsorbs(Mutate(s, op), inv);
    var key := (op.device, op.configKey);
    assert StepConfigs(StepConfigs(s.configs, op), inv)
        == s.configs[key := s.configs[key].(revision := s.configs[key].revision + 2)];
  }

  // ----- what is left where the snapshot is not restored -----

  /** The snapshot before an addition, with a tombstone in place of what was added. */
  function WithTombstone(s: Snapshot, op: Operation): Snapshot {
    if op.kind.DeviceAdd? then
      var d := Device(op.deviceSpec.(state := Removed), op.exclusions, op.maintenance);
      s.(devices := s.devices[op.device := CanonicalDevice(d)])
    else s.(links := s.links[op.link := CanonicalLink(Link(op.linkSpec, Removed))])
  }

  /** The compensation of an addition leaves a tombstone and nothing else, where it is let through: a
      device that is drained first has to be out of use already. */
  lemma AdditionLeavesTombstone(ctx: Context, s: Snapshot, op: Operation, t: Snapshot, inv: Operation)
    requires Done(ctx, s, op, t, inv) && (op.kind.DeviceAdd? || op.kind.LinkAdd?)
    ensures Objection(ctx, t, inv) == None <==>
      GatesOpen(ctx, t, inv) && (op.kind.DeviceAdd? && ctx.drainFirst ==> op.deviceSpec.state != Present)
    ensures Effect(t, inv) == WithTombstone(s, op)
  {
    hide ExclusionGate, WindowGate, Valid, Canonical;
    EffectAbsorbs(Mutate(s, op), inv);
    if op.kind.DeviceAdd? {
      EffectDevices(s, op);
      DeviceTombstone(s, op, inv);
    } else {
      EffectLinks(s, op);
      LinkTombstone(s, op, inv);
    }
  }

  lemma DeviceTombstone(s: Snapshot, op: Operation, inv: Operation)
    requires Canonical(s) == s && op.kind.DeviceAdd? && Inverse(s, op) == Some(inv)
    ensures Canonical(Mutate(Mutate(s, op), inv)) == WithTombstone(s, op)
  {
    hide SortWindows, CanonicalLinks, CanonicalWorkloads;
    var d := Device(op.deviceSpec.(state := Removed), op.exclusions, op.maintenance);
    assert StepDevices(StepDevices(s.devices, op), inv) == s.devices[op.device := d];
    assert CanonicalDevices(s.devices[op.device := d]) == CanonicalDevices(s.devices)[op.device := CanonicalDevice(d)];
  }

  lemma LinkTombstone(s: Snapshot, op: Operation, inv: Operation)
    requires Canonical(s) == s && op.kind.LinkAdd? && Inverse(s, op) == Some(inv)
    ensures Canonical(Mutate(Mutate(s, op), inv)) == WithTombstone(s, op)
  {
    hide SortUnique, CanonicalDevices, CanonicalWorkloads;
    var l := Link(op.linkSpec, Removed);
    assert StepLinks(StepLinks(s.links, op), inv) == s.links[op.link := l];
    assert CanonicalLinks(s.links[op.link := l]) == CanonicalLinks(s.links)[op.link := CanonicalLink(l)];
  }

  /** The compensation of a removal would add what was removed, and is refused because the tombstone is
      still there. */
  lemma RemovalStays(ctx: Context, s: Snapshot, op: Operation, t: Snapshot, inv: Operation)
    requires Done(ctx, s, op, t, inv) && (op.kind.DeviceRemove? || op.kind.LinkRemove?)
    ensures Apply(ctx, t, inv) == Err(if GatesOpen(ctx, t, inv) then Conflict else UnsafeTransition)
    ensures op.kind.DeviceRemove? ==>
      && inv.kind.DeviceAdd? && inv.device == op.device && op.device in s.devices
      && Device(inv.deviceSpec, inv.exclusions, inv.maintenance) == s.devices[op.device]
    ensures op.kind.LinkRemove? ==>
      inv.kind.LinkAdd? && inv.link == op.link && op.link in s.links && inv.linkSpec == s.links[op.link].spec
  {
    hide ExclusionGate, WindowGate, Valid, SortWindows, SortUnique;
    if op.kind.DeviceRemove? { EffectDevices(s, op); } else { EffectLinks(s, op); }
  }

  /** The compensation of a change of a route's state changes nothing, where it is let through. */
  lemma RouteStateStays(ctx: Context, s: Snapshot, op: Operation, t: Snapshot, inv: Operation)
    requires Done(ctx, s, op, t, inv) && op.kind.RouteSetState? && Apply(ctx, t, inv).Ok?
    ensures Apply(ctx, t, inv) == Ok(t)
  {
    hide ExclusionGate, WindowGate, Valid, Canonical, Walkable, PathKnown;
    EffectRoutes(s, op);
    EffectAbsorbs(Mutate(s, op), inv);
    assert StepRoutes(StepRoutes(s.routes, op), inv) == StepRoutes(s.routes, op);
    assert Mutate(Mutate(s, op), inv) == Mutate(s, op);
  }
}
