/** Which bound routes count towards what a workload is promised. */
module Eligibility {
  import opened Snapshots
  import opened Dependencies

  datatype Entry = Entry(route: Route, binding: Binding)

  predicate DeviceServiceable(s: Snapshot, id: Id) { id in s.devices && s.devices[id].spec.state == Present }

  predicate LinkServiceable(s: Snapshot, id: Id) { id in s.links && s.links[id].state == Present }

  predicate CarriesTraffic(s: Snapshot, r: Route) {
    && r.state == Active && Walkable(s.links, r.spec)
    && (forall i :: 0 <= i < |r.spec.path| ==> LinkServiceable(s, r.spec.path[i]))
    && DeviceServiceable(s, r.spec.source) && DeviceServiceable(s, r.spec.sink)
  }

  predicate Avoids(s: Snapshot, r: Route, forbidden: seq<Id>) {
    forall d :: d in RouteDomains(s, r.spec) ==> d !in forbidden
  }

  predicate IsEligible(s: Snapshot, w: Workload, b: Binding) {
    && b.active && b.route in s.routes && CarriesTraffic(s, s.routes[b.route])
    && Avoids(s, s.routes[b.route], w.requirements.forbidden)
  }

  function EligibleAmong(s: Snapshot, w: Workload, bs: seq<Binding>): (entries: seq<Entry>)
    ensures |entries| <= |bs|
  {
    if bs == [] then []
    else
      var n := |bs| - 1;
      EligibleAmong(s, w, bs[..n]) + (if IsEligible(s, w, bs[n]) then [Entry(s.routes[bs[n].route], bs[n])] else [])
  }

  /** The bindings that are active and whose route carries traffic without crossing a forbidden
      failure domain, in binding order. */
  method EligibleRoutes(s: Snapshot, w: Workload) returns (entries: seq<Entry>)
    ensures entries == EligibleAmong(s, w, w.bindings)
  {
    entries := [];
    for i := 0 to |w.bindings|
      invariant entries == EligibleAmong(s, w, w.bindings[..i])
    {
      var b := w.bindings[i];
      assert w.bindings[..i + 1][..i] == w.bindings[..i];
      if !b.active { continue; }
      if b.route !in s.routes || !CarriesTraffic(s, s.routes[b.route]) { continue; }
      if !Avoids(s, s.routes[b.route], w.requirements.forbidden) { continue; }
      entries := entries + [Entry(s.routes[b.route], b)];
    }
    assert w.bindings[..|w.bindings|] == w.bindings;
  }

  /** What is listed is exactly the bindings in service: none of their links or endpoints is
      drained, in maintenance or gone, and none is left out. */
  lemma {:induction false} EligibleInService(s: Snapshot, w: Workload, bs: seq<Binding>, e: Entry)
    ensures e in EligibleAmong(s, w, bs) <==>
      e.binding in bs && IsEligible(s, w, e.binding) && e.route == s.routes[e.binding.route]
  {
    if bs != [] {
      var n := |bs| - 1;
      EligibleInService(s, w, bs[..n], e);
      assert bs == bs[..n] + [bs[n]];
    }
  }

  // ----- what that comes to, field by field -----

  /** The device is known and in state present. */
  predicate DevicePresent(s: Snapshot, id: Id) { id in s.devices && s.devices[id].spec.state.Present? }

  /** The failure domain is that of the device, of an end of the link, or one the link passes through. */
  predicate DeviceIn(s: Snapshot, id: Id, domain: Id) { id in s.devices && s.devices[id].spec.domain == domain }

  predicate LinkIn(s: Snapshot, id: Id, domain: Id) {
    && id in s.links
    && var spec := s.links[id].spec;
      DeviceIn(s, spec.endpointA, domain) || DeviceIn(s, spec.endpointB, domain) || domain in spec.transit
  }

  ghost predicate Crosses(s: Snapshot, spec: RouteSpec, domain: Id) {
    || DeviceIn(s, spec.source, domain) || DeviceIn(s, spec.sink, domain)
    || exists link :: link in spec.path && LinkIn(s, link, domain)
  }

  /** The route is active, its links join up from its source to its sink, and both ends and all links
      are in service. */
  ghost predicate InService(s: Snapshot, r: Route) {
    && r.state.Active? && DevicePresent(s, r.spec.source) && DevicePresent(s, r.spec.sink)
    && r.spec.path != [] && (forall link :: link in r.spec.path ==> link in s.links && s.links[link].state.Present?)
    && exists stops ::
         Chain(s.links, r.spec.path, stops) && stops[0] == r.spec.source && stops[|r.spec.path|] == r.spec.sink
  }

  lemma CrossesMeans(s: Snapshot, spec: RouteSpec, domain: Id)
    ensures domain in RouteDomains(s, spec) <==> Crosses(s, spec, domain)
  {
    if link :| link in spec.path && LinkIn(s, link, domain) {
      var i :| 0 <= i < |spec.path| && spec.path[i] == link;
      assert domain in LinkDomains(s, spec.path[i]);
    }
    if i :| 0 <= i < |spec.path| && domain in LinkDomains(s, spec.path[i]) { assert LinkIn(s, spec.path[i], domain); }
  }

  lemma TrafficMeans(s: Snapshot, r: Route)
    ensures CarriesTraffic(s, r) <==> InService(s, r)
  {
    hide Walkable, Chain;
    WalkableMeansJoined(s.links, r.spec);
    if CarriesTraffic(s, r) {
      forall link | link in r.spec.path ensures link in s.links && s.links[link].state.Present? {
        var i :| 0 <= i < |r.spec.path| && r.spec.path[i] == link;
        assert LinkServiceable(s, r.spec.path[i]);
      }
    }
  }

  /** A route counts exactly if it is actively bound and in service, and crosses no failure domain the
      workload forbids. */
  lemma EligibleExactly(s: Snapshot, w: Workload, e: Entry)
    ensures e in EligibleAmong(s, w, w.bindings) <==>
      && e.binding in w.bindings && e.binding.active
      && e.binding.route in s.routes && e.route == s.routes[e.binding.route] && InService(s, e.route)
      && forall domain :: domain in w.requirements.forbidden ==> !Crosses(s, e.route.spec, domain)
  {
    hide CarriesTraffic, InService, RouteDomains, Crosses;
    EligibleInService(s, w, w.bindings, e);
    TrafficMeans(s, e.route);
    forall domain: Id ensures domain in RouteDomains(s, e.route.spec) <==> Crosses(s, e.route.spec, domain) {
      CrossesMeans(s, e.route.spec, domain);
    }
  }
}
