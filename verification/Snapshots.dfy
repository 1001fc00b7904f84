/** The authoritative state of the network: devices, links, routes, workloads, policies and
    configuration, each collection keyed by identity, with its canonical form and its structural
    validity. */
module Snapshots {
  import opened Wrappers
  import opened Sorting

  /** An identity.  Identity texts are at most 128 printable bytes, so their order is the order of
      the numbers they spell; 0 is the empty text, which is not a valid identity. */
  type Id = nat

  /** A short text such as a value or a profile name. */
  type Code = string

  const MAX_TOKEN_BYTES: nat := 512

  datatype EntityState = Absent | Present | Draining | InMaintenance | Removed

  datatype RouteState = Inactive | Active

  datatype Scope = GlobalScope | DeviceScope | LinkScope | RouteScope | WorkloadScope

  /** A half-open interval of instants: an exclusion or a maintenance window. */
  datatype Window = Window(id: Id, begin: int, end: int, note: Code) {
    predicate Contains(instant: int) { begin <= instant < end }
  }

  datatype DeviceSpec = DeviceSpec(
    domain: Id, state: EntityState, capacity: nat, reserved: nat,
    capabilities: nat, maxConcurrent: nat, profile: Code)

  datatype Device = Device(spec: DeviceSpec, exclusions: seq<Window>, maintenance: seq<Window>)

  datatype LinkSpec = LinkSpec(
    endpointA: Id, endpointB: Id, capacity: nat, reserved: nat, latencyClass: nat, transit: seq<Id>)

  datatype Link = Link(spec: LinkSpec, state: EntityState)

  datatype RouteSpec = RouteSpec(source: Id, sink: Id, path: seq<Id>, policy: Id)

  datatype Route = Route(spec: RouteSpec, state: RouteState)

  datatype Binding = Binding(route: Id, active: bool, demand: nat)

  datatype Requirements = Requirements(
    connectivity: bool, minDomains: nat, minPaths: nat, minGuaranteed: nat, forbidden: seq<Id>)

  datatype Workload = Workload(bindings: seq<Binding>, requirements: Requirements, contract: Code)

  datatype PolicyTarget = PolicyTarget(scope: Scope, identity: Id)

  datatype Policy = Policy(target: PolicyTarget, value: Code, enforced: bool)

  datatype Config = Config(value: Code, revision: nat)

  /** Where and when the snapshot was observed. */
  datatype Header = Header(
    topologyGeneration: nat, authority: Id, authorityGeneration: nat, bootIncarnation: nat,
    epoch: nat, observedAt: int)

  datatype Snapshot = Snapshot(
    header: Header,
    devices: map<Id, Device>, links: map<Id, Link>, routes: map<Id, Route>,
    workloads: map<Id, Workload>, policies: map<Id, Policy>, configs: map<(Id, Id), Config>)

  // ----- canonical form -----

  predicate WindowBefore(a: Window, b: Window) {
    if a.begin != b.begin then a.begin < b.begin
    else if a.end != b.end then a.end < b.end
    else a.id < b.id
  }

  function BindingRoute(b: Binding): int { b.route }

  function SortWindows(ws: seq<Window>): seq<Window> { Sort(ws, WindowBefore) }

  function SortBindings(bs: seq<Binding>): seq<Binding> { Sort(bs, ByKey(BindingRoute)) }

  function CanonicalDevice(d: Device): Device {
    d.(exclusions := SortWindows(d.exclusions), maintenance := SortWindows(d.maintenance))
  }

  function CanonicalLink(l: Link): Link {
    l.(spec := l.spec.(transit := SortUnique(l.spec.transit)))
  }

  function CanonicalRequirements(r: Requirements): Requirements {
    r.(forbidden := SortUnique(r.forbidden))
  }

  function CanonicalWorkload(w: Workload): Workload {
    w.(bindings := SortBindings(w.bindings), requirements := CanonicalRequirements(w.requirements))
  }

  function CanonicalDevices(m: map<Id, Device>): map<Id, Device> { map id | id in m :: CanonicalDevice(m[id]) }

  function CanonicalLinks(m: map<Id, Link>): map<Id, Link> { map id | id in m :: CanonicalLink(m[id]) }

  function CanonicalWorkloads(m: map<Id, Workload>): map<Id, Workload> { map id | id in m :: CanonicalWorkload(m[id]) }

  /** Normalises the lists nested inside every entity; the collections themselves are keyed by
      identity, so they need no order. */
  function Canonical(s: Snapshot): Snapshot {
    s.(devices := CanonicalDevices(s.devices),
       links := CanonicalLinks(s.links),
       workloads := CanonicalWorkloads(s.workloads))
  }

  lemma SortWindowsTwice(ws: seq<Window>)
    ensures SortWindows(SortWindows(ws)) == SortWindows(ws)
  {
    SortTwice(ws, WindowBefore);
  }

  lemma SortBindingsTwice(bs: seq<Binding>)
    ensures SortBindings(SortBindings(bs)) == SortBindings(bs)
  {
    SortTwice(bs, ByKey(BindingRoute));
  }

  lemma CanonicalDeviceTwice(d: Device)
    ensures CanonicalDevice(CanonicalDevice(d)) == CanonicalDevice(d)
  {
    SortWindowsTwice(d.exclusions);
    SortWindowsTwice(d.maintenance);
  }

  lemma CanonicalLinkTwice(l: Link)
    ensures CanonicalLink(CanonicalLink(l)) == CanonicalLink(l)
  {
    SortUniqueMeans(l.spec.transit);
  }

  lemma CanonicalWorkloadTwice(w: Workload)
    ensures CanonicalWorkload(CanonicalWorkload(w)) == CanonicalWorkload(w)
  {
    SortBindingsTwice(w.bindings);
    SortUniqueMeans(w.requirements.forbidden);
  }

  lemma CanonicalDevicesTwice(m: map<Id, Device>)
    ensures CanonicalDevices(CanonicalDevices(m)) == CanonicalDevices(m)
  {
    hide CanonicalDevice;
    forall id | id in m ensures CanonicalDevice(CanonicalDevice(m[id])) == CanonicalDevice(m[id]) {
      CanonicalDeviceTwice(m[id]);
    }
  }

  lemma CanonicalLinksTwice(m: map<Id, Link>)
    ensures CanonicalLinks(CanonicalLinks(m)) == CanonicalLinks(m)
  {
    hide CanonicalLink;
    forall id | id in m ensures CanonicalLink(CanonicalLink(m[id])) == CanonicalLink(m[id]) {
      CanonicalLinkTwice(m[id]);
    }
  }

  lemma CanonicalWorkloadsTwice(m: map<Id, Workload>)
    ensures CanonicalWorkloads(CanonicalWorkloads(m)) == CanonicalWorkloads(m)
  {
    hide CanonicalWorkload;
    forall id | id in m ensures CanonicalWorkload(CanonicalWorkload(m[id])) == CanonicalWorkload(m[id]) {
      CanonicalWorkloadTwice(m[id]);
    }
  }

  /** Normalising is done after one pass. */
  lemma CanonicalTwice(s: Snapshot)
    ensures Canonical(Canonical(s)) == Canonical(s)
  {
    hide CanonicalDevices, CanonicalLinks, CanonicalWorkloads;
    CanonicalDevicesTwice(s.devices);
    CanonicalLinksTwice(s.links);
    CanonicalWorkloadsTwice(s.workloads);
  }

  /** The same windows, in order of their beginning, then their end, then their identity. */
  ghost predicate InTime(was: seq<Window>, now: seq<Window>) {
    && multiset(was) == multiset(now)
    && forall i, j :: 0 <= i < j < |now| ==>
         || now[i].begin < now[j].begin
         || (now[i].begin == now[j].begin && now[i].end < now[j].end)
         || (now[i].begin == now[j].begin && now[i].end == now[j].end && now[i].id <= now[j].id)
  }

  /** The same identities, each once, ascending. */
  ghost predicate InTurn(was: seq<Id>, now: seq<Id>) {
    (forall id :: id in now <==> id in was) && forall i, j :: 0 <= i < j < |now| ==> now[i] < now[j]
  }

  /** The same bindings, in order of their routes. */
  ghost predicate ByRoute(was: seq<Binding>, now: seq<Binding>) {
    multiset(was) == multiset(now) && forall i, j :: 0 <= i < j < |now| ==> now[i].route <= now[j].route
  }

  ghost predicate NormalDevice(was: Device, now: Device) {
    was.spec == now.spec && InTime(was.exclusions, now.exclusions) && InTime(was.maintenance, now.maintenance)
  }

  ghost predicate NormalLink(was: Link, now: Link) {
    was == now.(spec := now.spec.(transit := was.spec.transit)) && InTurn(was.spec.transit, now.spec.transit)
  }

  ghost predicate NormalWorkload(was: Workload, now: Workload) {
    && was.contract == now.contract && ByRoute(was.bindings, now.bindings)
    && was.requirements == now.requirements.(forbidden := was.requirements.forbidden)
    && InTurn(was.requirements.forbidden, now.requirements.forbidden)
  }

  lemma SortedInTime(ws: seq<Window>)
    ensures InTime(ws, SortWindows(ws))
  {
    SortKeeps(ws, WindowBefore);
    SortSorts(ws, WindowBefore);
    var now := SortWindows(ws);
    forall i, j | 0 <= i < j < |now| ensures !WindowBefore(now[j], now[i]) { assert SortedBy(now, WindowBefore); }
  }

  lemma SortedByRoute(bs: seq<Binding>)
    ensures ByRoute(bs, SortBindings(bs))
  {
    SortKeeps(bs, ByKey(BindingRoute));
    SortOrdered(bs, BindingRoute);
    var now := SortBindings(bs);
    forall i, j | 0 <= i < j < |now| ensures now[i].route <= now[j].route {
      assert BindingRoute(now[i]) <= BindingRoute(now[j]);
    }
  }

  lemma NormalWorkloads(w: Workload)
    ensures NormalWorkload(w, CanonicalWorkload(w))
  {
    SortedByRoute(w.bindings);
    SortUniqueMeans(w.requirements.forbidden);
  }

  lemma NormalLinks(l: Link)
    ensures NormalLink(l, CanonicalLink(l))
  {
    SortUniqueMeans(l.spec.transit);
  }

  /** Canonical form orders windows by time, domains by identity and bindings by route, drops repeated
      domains, and changes nothing else. */
  lemma CanonicalMeans(s: Snapshot)
    ensures var c := Canonical(s);
      && c.header == s.header && c.routes == s.routes && c.policies == s.policies && c.configs == s.configs
      && c.devices.Keys == s.devices.Keys
      && (forall id :: id in s.devices ==> NormalDevice(s.devices[id], c.devices[id]))
      && c.links.Keys == s.links.Keys && (forall id :: id in s.links ==> NormalLink(s.links[id], c.links[id]))
      && c.workloads.Keys == s.workloads.Keys
      && (forall id :: id in s.workloads ==> NormalWorkload(s.workloads[id], c.workloads[id]))
  {
    hide CanonicalWorkload, CanonicalLink, NormalWorkload, NormalLink, InTime, SortWindows;
    forall id | id in s.devices ensures NormalDevice(s.devices[id], CanonicalDevice(s.devices[id])) {
      SortedInTime(s.devices[id].exclusions);
      SortedInTime(s.devices[id].maintenance);
    }
    forall id | id in s.links { NormalLinks(s.links[id]); }
    forall id | id in s.workloads { NormalWorkloads(s.workloads[id]); }
  }

  // ----- routes -----

  /** Where walking `path` from `at` ends, if every link exists and continues from the last one. */
  function Walk(links: map<Id, Link>, at: Id, path: seq<Id>): Option<Id>
    decreases |path|
  {
    if path == [] then Some(at)
    else if path[0] !in links then None
    else
      var spec := links[path[0]].spec;
      if spec.endpointA == at then Walk(links, spec.endpointB, path[1..])
      else if spec.endpointB == at then Walk(links, spec.endpointA, path[1..])
      else None
  }

  predicate Walkable(links: map<Id, Link>, spec: RouteSpec) {
    spec.path != [] && Walk(links, spec.source, spec.path) == Some(spec.sink)
  }

  /** The link joins the two devices, whichever end is which. */
  predicate Joins(links: map<Id, Link>, link: Id, a: Id, b: Id) {
    link in links &&
    ((links[link].spec.endpointA == a && links[link].spec.endpointB == b)
     || (links[link].spec.endpointB == a && links[link].spec.endpointA == b))
  }

  /** A row of devices in which each link of the path joins the next two. */
  ghost predicate Chain(links: map<Id, Link>, path: seq<Id>, stops: seq<Id>) {
    |stops| == |path| + 1 && forall i :: 0 <= i < |path| ==> Joins(links, path[i], stops[i], stops[i + 1])
  }

  lemma {:induction false} WalkVisits(links: map<Id, Link>, at: Id, path: seq<Id>) returns (stops: seq<Id>)
    requires Walk(links, at, path).Some?
    ensures Chain(links, path, stops) && stops[0] == at && stops[|path|] == Walk(links, at, path).value
    decreases |path|
  {
    if path == [] {
      stops := [at];
    } else {
      var spec := links[path[0]].spec;
      var rest := WalkVisits(links, if spec.endpointA == at then spec.endpointB else spec.endpointA, path[1..]);
      stops := [at] + rest;
      forall i | 0 < i < |path| ensures Joins(links, path[i], stops[i], stops[i + 1]) {
        assert Joins(links, path[1..][i - 1], rest[i - 1], rest[i]);
      }
    }
  }

  lemma {:induction false} ChainIsWalked(links: map<Id, Link>, path: seq<Id>, stops: seq<Id>)
    requires Chain(links, path, stops)
    ensures Walk(links, stops[0], path) == Some(stops[|path|])
    decreases |path|
  {
    if path != [] {
      assert Joins(links, path[0], stops[0], stops[1]);
      forall i | 0 <= i < |path| - 1 ensures Joins(links, path[1..][i], stops[1..][i], stops[1..][i + 1]) {
        assert Joins(links, path[i + 1], stops[i + 1], stops[i + 2]);
      }
      ChainIsWalked(links, path[1..], stops[1..]);
    }
  }

  /** A route can be walked exactly when its links join up, in either direction each, through some
      row of devices from its source to its sink. */
  lemma WalkableMeansJoined(links: map<Id, Link>, spec: RouteSpec)
    ensures Walkable(links, spec) <==>
      spec.path != [] && exists stops ::
        Chain(links, spec.path, stops) && stops[0] == spec.source && stops[|spec.path|] == spec.sink
  {
    if Walkable(links, spec) {
      var stops := WalkVisits(links, spec.source, spec.path);
    }
    if exists stops :: Chain(links, spec.path, stops) && stops[0] == spec.source && stops[|spec.path|] == spec.sink {
      var stops :| Chain(links, spec.path, stops) && stops[0] == spec.source && stops[|spec.path|] == spec.sink;
      ChainIsWalked(links, spec.path, stops);
    }
  }

  /** Walks a route link by link from its source. */
  method RouteIsWalkable(s: Snapshot, route: Route) returns (ok: bool)
    ensures ok == Walkable(s.links, route.spec)
  {
    var path := route.spec.path;
    if path == [] { return false; }
    var current := route.spec.source;
    for i := 0 to |path|
      invariant Walk(s.links, route.spec.source, path) == Walk(s.links, current, path[i..])
    {
      assert path[i..][0] == path[i] && path[i..][1..] == path[i + 1..];
      if path[i] !in s.links { return false; }
      var spec := s.links[path[i]].spec;
      if spec.endpointA == current {
        current := spec.endpointB;
      } else if spec.endpointB == current {
        current := spec.endpointA;
      } else {
        return false;
      }
    }
    ok := current == route.spec.sink;
  }

  // ----- validity -----

  predicate WindowsOk(d: Device) {
    var all := d.exclusions + d.maintenance;
    && (forall i :: 0 <= i < |all| ==> all[i].begin < all[i].end)
    && (forall i, j :: 0 <= i < j < |all| ==> all[i].id != all[j].id)
  }

  predicate DeviceOk(d: Device) { |d.spec.profile| <= MAX_TOKEN_BYTES && WindowsOk(d) }

  predicate LinkOk(devices: map<Id, Device>, l: Link) {
    && l.spec.endpointA != l.spec.endpointB
    && l.spec.endpointA in devices && l.spec.endpointB in devices
    && l.spec.reserved <= l.spec.capacity
  }

  predicate RouteOk(s: Snapshot, r: Route) {
    && r.spec.source in s.devices && r.spec.sink in s.devices
    && r.spec.path != []
    && (forall i :: 0 <= i < |r.spec.path| ==> r.spec.path[i] in s.links)
    && (r.spec.policy == 0 || r.spec.policy in s.policies)
  }

  predicate WorkloadOk(routes: map<Id, Route>, w: Workload) {
    && |w.contract| <= MAX_TOKEN_BYTES
    && (forall i :: 0 <= i < |w.bindings| ==> w.bindings[i].route in routes)
    && (forall i, j :: 0 <= i < j < |w.bindings| ==> w.bindings[i].route != w.bindings[j].route)
  }

  predicate TargetOk(s: Snapshot, t: PolicyTarget) {
    match t.scope
    case GlobalScope => true
    case DeviceScope => t.identity != 0 && t.identity in s.devices
    case LinkScope => t.identity != 0 && t.identity in s.links
    case RouteScope => t.identity != 0 && t.identity in s.routes
    case WorkloadScope => t.identity != 0 && t.identity in s.workloads
  }

  predicate PolicyOk(s: Snapshot, p: Policy) { |p.value| <= MAX_TOKEN_BYTES && TargetOk(s, p.target) }

  predicate ConfigOk(devices: map<Id, Device>, key: (Id, Id), c: Config) {
    key.0 in devices && |c.value| <= MAX_TOKEN_BYTES
  }

  /** Structural validation.  Identities cannot repeat here because collections are keyed by them. */
  predicate Valid(s: Snapshot) {
    && s.header.authority != 0
    && (forall id :: id in s.devices ==> DeviceOk(s.devices[id]))
    && (forall id :: id in s.links ==> LinkOk(s.devices, s.links[id]))
    && (forall id :: id in s.routes ==> RouteOk(s, s.routes[id]))
    && (forall id :: id in s.workloads ==> WorkloadOk(s.routes, s.workloads[id]))
    && (forall id :: id in s.policies ==> PolicyOk(s, s.policies[id]))
    && (forall k :: k in s.configs ==> ConfigOk(s.devices, k, s.configs[k]))
  }

  // ----- windows -----

  predicate ChangePermitted(d: Device, instant: int) {
    forall i :: 0 <= i < |d.exclusions| ==> !d.exclusions[i].Contains(instant)
  }

  predicate MaintenancePermitted(d: Device, instant: int) {
    exists i :: 0 <= i < |d.maintenance| && d.maintenance[i].Contains(instant)
  }

  /** Windows are judged by what they contain, not by how they are listed. */
  lemma CanonicalPermits(d: Device, instant: int)
    ensures ChangePermitted(CanonicalDevice(d), instant) == ChangePermitted(d, instant)
    ensures MaintenancePermitted(CanonicalDevice(d), instant) == MaintenancePermitted(d, instant)
  {
    var c := CanonicalDevice(d);
    forall w ensures w in c.exclusions <==> w in d.exclusions { SortMembers(d.exclusions, WindowBefore, w); }
    forall w ensures w in c.maintenance <==> w in d.maintenance { SortMembers(d.maintenance, WindowBefore, w); }
    assert ChangePermitted(d, instant) <==> forall w :: w in d.exclusions ==> !w.Contains(instant);
    assert ChangePermitted(c, instant) <==> forall w :: w in c.exclusions ==> !w.Contains(instant);
    assert MaintenancePermitted(d, instant) <==> exists w :: w in d.maintenance && w.Contains(instant);
    assert MaintenancePermitted(c, instant) <==> exists w :: w in c.maintenance && w.Contains(instant);
  }
}
