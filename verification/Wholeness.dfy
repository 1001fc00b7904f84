/** What makes a snapshot valid: everything its entities refer to is there, and each makes sense by itself. */
module Wholeness {
  import opened Snapshots
  import opened Operations
  import opened Gates

  /** The entity refers to another: a link to its ends, a route to its ends, links and policy, a workload to
      the routes it is bound to, a policy to what it is for, and configuration to its device. */
  ghost predicate RefersTo(s: Snapshot, holder: Ref, r: Ref) {
    match holder
    case LinkRef(id) => id in s.links && r.DeviceRef? && EndsAt(s.links[id].spec, r.device)
    case RouteRef(id) =>
      id in s.routes &&
        var spec := s.routes[id].spec;
        || (r.DeviceRef? && Terminates(spec, r.device)) || (r.LinkRef? && r.link in spec.path)
        || (r.PolicyRef? && spec.policy == r.policy != 0)
    case WorkloadRef(id) =>
      id in s.workloads && r.RouteRef? && exists b :: b in s.workloads[id].bindings && b.route == r.route
    case PolicyRef(id) =>
      id in s.policies &&
        var t := s.policies[id].target;
        || (t.scope.DeviceScope? && r == DeviceRef(t.identity)) || (t.scope.LinkScope? && r == LinkRef(t.identity))
        || (t.scope.RouteScope? && r == RouteRef(t.identity))
        || (t.scope.WorkloadScope? && r == WorkloadRef(t.identity))
    case ConfigRef(owner, key) => (owner, key) in s.configs && r == DeviceRef(owner)
    case GlobalRef | DeviceRef(_) | DomainRef(_) => false
  }

  ghost predicate NothingDangles(s: Snapshot) {
    forall holder, r :: RefersTo(s, holder, r) ==> Exists(s, r)
  }

  /** Every window lasts, and no two windows of the device share an identity. */
  ghost predicate SoundWindows(d: Device) {
    && (forall w :: w in d.exclusions + d.maintenance ==> w.begin < w.end)
    && (forall i, j :: 0 <= i < j < |d.exclusions| ==> d.exclusions[i].id != d.exclusions[j].id)
    && (forall i, j :: 0 <= i < j < |d.maintenance| ==> d.maintenance[i].id != d.maintenance[j].id)
    && (forall v, w :: v in d.exclusions && w in d.maintenance ==> v.id != w.id)
  }

  /** Devices have sound windows, links join two devices and reserve no more than they have, routes lead
      somewhere, workloads are bound to a route once, policies are for somebody, and texts are short. */
  ghost predicate Sensible(s: Snapshot) {
    && s.header.authority != 0
    && (forall id :: id in s.devices ==> SoundWindows(s.devices[id]) && |s.devices[id].spec.profile| <= 512)
    && (forall id :: id in s.links ==>
          var spec := s.links[id].spec;
          spec.endpointA != spec.endpointB && spec.capacity >= spec.reserved)
    && (forall id :: id in s.routes ==> s.routes[id].spec.path != [])
    && (forall id :: id in s.workloads ==>
          var w := s.workloads[id];
          && |w.contract| <= 512
          && forall i, j :: 0 <= i < j < |w.bindings| ==> w.bindings[i].route != w.bindings[j].route)
    && (forall id :: id in s.policies ==>
          var p := s.policies[id];
          |p.value| <= 512 && (p.target.scope.GlobalScope? || p.target.identity != 0))
    && (forall key :: key in s.configs ==> |s.configs[key].value| <= 512)
  }

  lemma SoundWindowsMean(d: Device)
    ensures WindowsOk(d) <==> SoundWindows(d)
  {
    var all, n := d.exclusions + d.maintenance, |d.exclusions|;
    if WindowsOk(d) {
      forall w | w in all ensures w.begin < w.end { var i :| 0 <= i < |all| && all[i] == w; }
      forall i, j | 0 <= i < j < n ensures d.exclusions[i].id != d.exclusions[j].id {
        assert all[i] == d.exclusions[i] && all[j] == d.exclusions[j];
      }
      forall i, j | 0 <= i < j < |d.maintenance| ensures d.maintenance[i].id != d.maintenance[j].id {
        assert all[n + i] == d.maintenance[i] && all[n + j] == d.maintenance[j];
      }
      forall v, w | v in d.exclusions && w in d.maintenance ensures v.id != w.id {
        var i :| 0 <= i < n && d.exclusions[i] == v;
        assert all[i] == v;
        var j :| 0 <= j < |d.maintenance| && d.maintenance[j] == w;
        assert all[n + j] == w;
      }
    }
    if SoundWindows(d) {
      forall i, j | 0 <= i < j < |all| ensures all[i].id != all[j].id {
        if i < n <= j { assert all[i] == d.exclusions[i] && all[j] == d.maintenance[j - n]; }
      }
    }
  }

  /** What one entity refers to is there. */
  ghost predicate Held(s: Snapshot, holder: Ref) {
    forall r :: RefersTo(s, holder, r) ==> Exists(s, r)
  }

  lemma LinkHeld(s: Snapshot, id: Id)
    requires id in s.links
    ensures Held(s, LinkRef(id)) <==> s.links[id].spec.endpointA in s.devices && s.links[id].spec.endpointB in s.devices
  {
    if Held(s, LinkRef(id)) {
      assert RefersTo(s, LinkRef(id), DeviceRef(s.links[id].spec.endpointA));
      assert RefersTo(s, LinkRef(id), DeviceRef(s.links[id].spec.endpointB));
    }
  }

  lemma RouteHeld(s: Snapshot, id: Id)
    requires id in s.routes
    ensures RouteOk(s, s.routes[id]) <==> Held(s, RouteRef(id)) && s.routes[id].spec.path != []
  {
    var h, spec := RouteRef(id), s.routes[id].spec;
    if Held(s, h) && spec.path != [] {
      assert RefersTo(s, h, DeviceRef(spec.source)) && RefersTo(s, h, DeviceRef(spec.sink));
      forall i | 0 <= i < |spec.path| ensures spec.path[i] in s.links { assert RefersTo(s, h, LinkRef(spec.path[i])); }
      if spec.policy != 0 { assert RefersTo(s, h, PolicyRef(spec.policy)); }
    }
    if RouteOk(s, s.routes[id]) {
      forall r | RefersTo(s, h, r) ensures Exists(s, r) {
        if r.LinkRef? { var i :| 0 <= i < |spec.path| && spec.path[i] == r.link; }
      }
    }
  }

  lemma WorkloadHeld(s: Snapshot, id: Id)
    requires id in s.workloads
    ensures Held(s, WorkloadRef(id)) <==>
      var bs := s.workloads[id].bindings; forall i :: 0 <= i < |bs| ==> bs[i].route in s.routes
  {
    var h, bs := WorkloadRef(id), s.workloads[id].bindings;
    if Held(s, h) {
      forall i | 0 <= i < |bs| ensures bs[i].route in s.routes {
        assert bs[i] in bs;
        assert RefersTo(s, h, RouteRef(bs[i].route));
      }
    }
    if forall i :: 0 <= i < |bs| ==> bs[i].route in s.routes {
      forall r | RefersTo(s, h, r) ensures Exists(s, r) {
        var b :| b in bs && b.route == r.route;
        var i :| 0 <= i < |bs| && bs[i] == b;
      }
    }
  }

  lemma PolicyHeld(s: Snapshot, id: Id)
    requires id in s.policies
    ensures var t := s.policies[id].target;
      TargetOk(s, t) <==> Held(s, PolicyRef(id)) && (t.scope.GlobalScope? || t.identity != 0)
  {
    var h, t := PolicyRef(id), s.policies[id].target;
    if Held(s, h) && !t.scope.GlobalScope? { assert RefersTo(s, h, ScopeRef(t)); }
  }

  lemma ConfigHeld(s: Snapshot, key: (Id, Id))
    requires key in s.configs
    ensures Held(s, ConfigRef(key.0, key.1)) <==> key.0 in s.devices
  {
    assert RefersTo(s, ConfigRef(key.0, key.1), DeviceRef(key.0));
  }

  /** A snapshot is valid exactly if nothing in it dangles and each entity makes sense by itself. */
  lemma ValidIffWhole(s: Snapshot)
    ensures Valid(s) <==> NothingDangles(s) && Sensible(s)
  {
    hide RefersTo, Exists, SoundWindows, WindowsOk, RouteOk, TargetOk, Held;
    forall id | id in s.devices { SoundWindowsMean(s.devices[id]); }
    forall id | id in s.links { LinkHeld(s, id); }
    forall id | id in s.routes { RouteHeld(s, id); }
    forall id | id in s.workloads { WorkloadHeld(s, id); }
    forall id | id in s.policies { PolicyHeld(s, id); }
    forall key | key in s.configs { ConfigHeld(s, key); }
    HeldTogether(s);
  }

  /** Only entities that are there refer to anything. */
  lemma HeldTogether(s: Snapshot)
    ensures NothingDangles(s) <==>
      && (forall id :: id in s.links ==> Held(s, LinkRef(id)))
      && (forall id :: id in s.routes ==> Held(s, RouteRef(id)))
      && (forall id :: id in s.workloads ==> Held(s, WorkloadRef(id)))
      && (forall id :: id in s.policies ==> Held(s, PolicyRef(id)))
      && (forall key :: key in s.configs ==> Held(s, ConfigRef(key.0, key.1)))
  {
    hide Exists, EndsAt, Terminates;
    if NothingDangles(s) {
      forall holder ensures Held(s, holder) {}
    } else {
      var holder, r :| RefersTo(s, holder, r) && !Exists(s, r);
      assert !Held(s, holder);
      if holder.ConfigRef? { assert (holder.owner, holder.key) in s.configs; }
    }
  }
}
