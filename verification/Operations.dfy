/** The typed operations a plan is made of, and what each one writes, reads and needs support
    from. */
module Operations {
  import opened Snapshots

  datatype Kind =
    | DeviceAdd | DeviceRemove | DeviceSetCapacity | DeviceSetState | DeviceSetWindows
    | LinkAdd | LinkRemove | LinkSetCapacity
    | RouteAdd | RouteRemove | RouteSetPath | RouteSetState
    | WorkloadAdd | WorkloadRemove | WorkloadSetBindings | WorkloadSetRequirements
    | PolicyBind | PolicyUnbind
    | ConfigSet | ConfigClear
    | DrainResource | EnterMaintenance | ExitMaintenance

  /** What planning records about an operation and evaluation never reads. */
  datatype Metadata = Metadata(window: Id, duration: nat, risk: nat, reason: Code)

  /** One record for all kinds; each kind reads the fields it needs. */
  datatype Operation = Operation(
    kind: Kind,
    device: Id, deviceSpec: DeviceSpec, exclusions: seq<Window>, maintenance: seq<Window>,
    entityState: EntityState, capacity: nat,
    link: Id, linkSpec: LinkSpec,
    workload: Id, bindings: seq<Binding>, requirements: Requirements, contract: Code,
    route: Id, routeSpec: RouteSpec, routeState: RouteState,
    policy: Id, policyTarget: PolicyTarget, value: Code, enforced: bool,
    configKey: Id,
    metadata: Metadata)

  /** An operation with every other field at its default. */
  function Blank(kind: Kind): Operation {
    Operation(kind, 0, DeviceSpec(0, Present, 0, 0, 0, 1, ""), [], [], Present, 0,
              0, LinkSpec(0, 0, 0, 0, 0, []),
              0, [], Requirements(false, 0, 0, 0, []), "",
              0, RouteSpec(0, 0, [], 0), Inactive,
              0, PolicyTarget(GlobalScope, 0), "", true,
              0,
              Metadata(0, 0, 0, ""))
  }

  // ----- the canonical order of operations -----

  /** Kinds are compared by their place in the enumeration. */
  function KindRank(k: Kind): nat {
    match k
    case DeviceAdd => 0
    case DeviceRemove => 1
    case DeviceSetCapacity => 2
    case DeviceSetState => 3
    case DeviceSetWindows => 4
    case LinkAdd => 5
    case LinkRemove => 6
    case LinkSetCapacity => 7
    case RouteAdd => 8
    case RouteRemove => 9
    case RouteSetPath => 10
    case RouteSetState => 11
    case WorkloadAdd => 12
    case WorkloadRemove => 13
    case WorkloadSetBindings => 14
    case WorkloadSetRequirements => 15
    case PolicyBind => 16
    case PolicyUnbind => 17
    case ConfigSet => 18
    case ConfigClear => 19
    case DrainResource => 20
    case EnterMaintenance => 21
    case ExitMaintenance => 22
  }

  /** The kind at a place in the enumeration. */
  function KindAt(n: nat): Kind {
    match n
    case 0 => DeviceAdd
    case 1 => DeviceRemove
    case 2 => DeviceSetCapacity
    case 3 => DeviceSetState
    case 4 => DeviceSetWindows
    case 5 => LinkAdd
    case 6 => LinkRemove
    case 7 => LinkSetCapacity
    case 8 => RouteAdd
    case 9 => RouteRemove
    case 10 => RouteSetPath
    case 11 => RouteSetState
    case 12 => WorkloadAdd
    case 13 => WorkloadRemove
    case 14 => WorkloadSetBindings
    case 15 => WorkloadSetRequirements
    case 16 => PolicyBind
    case 17 => PolicyUnbind
    case 18 => ConfigSet
    case 19 => ConfigClear
    case 20 => DrainResource
    case 21 => EnterMaintenance
    case _ => ExitMaintenance
  }

  /** No two kinds share a place. */
  lemma RankDecides(a: Kind, b: Kind)
    ensures KindRank(a) == KindRank(b) <==> a == b
  {
    assert KindAt(KindRank(a)) == a && KindAt(KindRank(b)) == b;
  }

  /** The texts that identify a configuration entry and the content of an operation, as numbers
      that compare like the texts. */
  datatype Naming = Naming(config: (Id, Id) -> nat, digest: Operation -> nat)

  function TargetName(naming: Naming, op: Operation): nat {
    match AreaOf(op.kind)
    case Devices => op.device
    case Links => op.link
    case Routes => op.route
    case Workloads => op.workload
    case Policies => op.policy
    case Configs => naming.config(op.device, op.configKey)
  }

  /** By kind, then by target, then by content. */
  predicate OperationBefore(naming: Naming, a: Operation, b: Operation) {
    if a.kind != b.kind then KindRank(a.kind) < KindRank(b.kind)
    else if TargetName(naming, a) != TargetName(naming, b) then TargetName(naming, a) < TargetName(naming, b)
    else naming.digest(a) < naming.digest(b)
  }

  function CanonicalOrder(naming: Naming): (Operation, Operation) -> bool {
    (a, b) => OperationBefore(naming, a, b)
  }

  /** A reference to an entity of any kind. */
  datatype Ref =
    | GlobalRef | DeviceRef(device: Id) | LinkRef(link: Id) | RouteRef(route: Id) | WorkloadRef(workload: Id)
    | DomainRef(domain: Id) | PolicyRef(policy: Id) | ConfigRef(owner: Id, key: Id)

  /** Which collection of the snapshot an operation changes. */
  datatype Area = Devices | Links | Routes | Workloads | Policies | Configs

  function AreaOf(kind: Kind): Area {
    match kind
    case DeviceAdd | DeviceRemove | DeviceSetCapacity | DeviceSetState | DeviceSetWindows => Devices
    case DrainResource | EnterMaintenance | ExitMaintenance => Devices
    case LinkAdd | LinkRemove | LinkSetCapacity => Links
    case RouteAdd | RouteRemove | RouteSetPath | RouteSetState => Routes
    case WorkloadAdd | WorkloadRemove | WorkloadSetBindings | WorkloadSetRequirements => Workloads
    case PolicyBind | PolicyUnbind => Policies
    case ConfigSet | ConfigClear => Configs
  }

  /** The one entity an operation writes. */
  function WriteRef(op: Operation): Ref {
    match AreaOf(op.kind)
    case Devices => DeviceRef(op.device)
    case Links => LinkRef(op.link)
    case Routes => RouteRef(op.route)
    case Workloads => WorkloadRef(op.workload)
    case Policies => PolicyRef(op.policy)
    case Configs => ConfigRef(op.device, op.configKey)
  }

  predicate EndsAt(spec: LinkSpec, device: Id) { spec.endpointA == device || spec.endpointB == device }

  predicate Terminates(spec: RouteSpec, device: Id) { spec.source == device || spec.sink == device }

  function NonEmpty(id: Id): set<Ref> { if id == 0 then {} else {DeviceRef(id)} }

  function PathRefs(path: seq<Id>): set<Ref> { set i | 0 <= i < |path| :: LinkRef(path[i]) }

  function BindingRefs(bs: seq<Binding>): set<Ref> { set i | 0 <= i < |bs| :: RouteRef(bs[i].route) }

  function ScopeRef(t: PolicyTarget): Ref {
    match t.scope
    case GlobalScope => GlobalRef
    case DeviceScope => DeviceRef(t.identity)
    case LinkScope => LinkRef(t.identity)
    case RouteScope => RouteRef(t.identity)
    case WorkloadScope => WorkloadRef(t.identity)
  }

  /** The entities an operation depends on. */
  function ReadRefs(op: Operation): set<Ref> {
    match op.kind
    case LinkAdd | LinkRemove | LinkSetCapacity => NonEmpty(op.linkSpec.endpointA) + NonEmpty(op.linkSpec.endpointB)
    case RouteAdd | RouteSetPath =>
      NonEmpty(op.routeSpec.source) + NonEmpty(op.routeSpec.sink) + PathRefs(op.routeSpec.path)
    case RouteRemove | RouteSetState => NonEmpty(op.routeSpec.source) + NonEmpty(op.routeSpec.sink)
    case WorkloadAdd | WorkloadRemove | WorkloadSetBindings | WorkloadSetRequirements => BindingRefs(op.bindings)
    case PolicyBind | PolicyUnbind =>
      if op.policyTarget.scope != GlobalScope && op.policyTarget.identity != 0 then {ScopeRef(op.policyTarget)} else {}
    case ConfigSet | ConfigClear => NonEmpty(op.device)
    case _ => {}
  }

  predicate RequiresWindow(kind: Kind) {
    kind.DrainResource? || kind.EnterMaintenance? || kind.ExitMaintenance? || kind.DeviceRemove?
  }

  // ----- the devices whose runtime must support an operation -----

  function Ends(a: Id, b: Id): set<Id> { {a, b} - {0} }

  function LinkEnds(s: Snapshot, link: Id): set<Id> {
    if link in s.links then Ends(s.links[link].spec.endpointA, s.links[link].spec.endpointB) else {}
  }

  function RouteEnds(s: Snapshot, route: Id): set<Id> {
    if route in s.routes then Ends(s.routes[route].spec.source, s.routes[route].spec.sink) else {}
  }

  function BindingEnds(s: Snapshot, bs: seq<Binding>): set<Id> {
    set i, d | 0 <= i < |bs| && d in RouteEnds(s, bs[i].route) :: d
  }

  function Subjects(op: Operation, s: Snapshot): set<Id> {
    match op.kind
    case DeviceAdd => {}
    case DeviceRemove | DeviceSetCapacity | DeviceSetState | DeviceSetWindows => {op.device} - {0}
    case DrainResource | EnterMaintenance | ExitMaintenance | ConfigSet | ConfigClear => {op.device} - {0}
    case LinkAdd | LinkSetCapacity => Ends(op.linkSpec.endpointA, op.linkSpec.endpointB)
    case LinkRemove => Ends(op.linkSpec.endpointA, op.linkSpec.endpointB) + LinkEnds(s, op.link)
    case RouteAdd | RouteSetPath => Ends(op.routeSpec.source, op.routeSpec.sink)
    case RouteRemove | RouteSetState => Ends(op.routeSpec.source, op.routeSpec.sink) + RouteEnds(s, op.route)
    case WorkloadAdd | WorkloadRemove | WorkloadSetBindings | WorkloadSetRequirements =>
      BindingEnds(s, op.bindings) +
      (if op.workload in s.workloads then BindingEnds(s, s.workloads[op.workload].bindings) else {})
    case PolicyBind | PolicyUnbind =>
      match op.policyTarget.scope
      case DeviceScope => {op.policyTarget.identity} - {0}
      case LinkScope => if op.policyTarget.identity == 0 then {} else LinkEnds(s, op.policyTarget.identity)
      case RouteScope => if op.policyTarget.identity == 0 then {} else RouteEnds(s, op.policyTarget.identity)
      case GlobalScope | WorkloadScope => {}
  }
}
