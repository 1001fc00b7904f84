/** Load accounting and capacity headroom, in saturating 64-bit arithmetic. */
module Capacity {
  import opened Wrappers
  import opened Checked
  import opened Snapshots
  import opened Eligibility

  /** The true load on a link: every occurrence of the link on every path adds the demand. */
  ghost function PathLoad(path: seq<Id>, link: Id, demand: nat): nat {
    if path == [] then 0
    else PathLoad(path[..|path| - 1], link, demand) + (if path[|path| - 1] == link then demand else 0)
  }

  /** What a list of entries adds up to, each contributing its share. */
  ghost function Load(entries: seq<Entry>, share: Entry -> nat): nat {
    if entries == [] then 0
    else Load(entries[..|entries| - 1], share) + share(entries[|entries| - 1])
  }

  ghost function LinkShare(link: Id): Entry -> nat { (e: Entry) => PathLoad(e.route.spec.path, link, e.binding.demand) }

  ghost function DeviceShare(device: Id): Entry -> nat { (e: Entry) => EndLoad(e, device) }

  /** The true load on a link. */
  ghost function LinkLoad(entries: seq<Entry>, link: Id): nat { Load(entries, LinkShare(link)) }

  /** The true load terminating on a device. */
  ghost function DeviceLoad(entries: seq<Entry>, device: Id): nat { Load(entries, DeviceShare(device)) }

  function EndLoad(e: Entry, device: Id): nat {
    (if e.route.spec.source == device then e.binding.demand else 0)
    + (if e.route.spec.sink == device then e.binding.demand else 0)
  }

  function Saturated(n: nat): nat { if n <= MAX_U64 then n else MAX_U64 }

  function Slot(m: map<Id, nat>, id: Id): nat { if id in m then m[id] else 0 }

  ghost predicate Fits(entries: seq<Entry>) {
    forall i :: 0 <= i < |entries| ==> entries[i].binding.demand <= MAX_U64
  }

  /** Adding to a slot: checked addition, sticking at the largest value. */
  method AddTo(m: map<Id, nat>, id: Id, demand: nat) returns (r: map<Id, nat>)
    requires demand <= MAX_U64 && forall k :: Slot(m, k) <= MAX_U64
    ensures forall k :: Slot(r, k) == if k == id then Saturated(Slot(m, id) + demand) else Slot(m, k)
  {
    var total := CheckedAdd(Slot(m, id), demand);
    r := m[id := if total.Some? then total.value else MAX_U64];
  }

  method AddPath(m: map<Id, nat>, path: seq<Id>, demand: nat) returns (r: map<Id, nat>)
    requires demand <= MAX_U64 && forall k :: Slot(m, k) <= MAX_U64
    ensures forall k :: Slot(r, k) == Saturated(Slot(m, k) + PathLoad(path, k, demand))
  {
    r := m;
    for i := 0 to |path|
      invariant forall k :: Slot(r, k) == Saturated(Slot(m, k) + PathLoad(path[..i], k, demand))
    {
      assert path[..i + 1][..i] == path[..i];
      r := AddTo(r, path[i], demand);
    }
    assert path[..|path|] == path;
  }

  ghost predicate TracksLinks(m: map<Id, nat>, entries: seq<Entry>) {
    forall k :: Slot(m, k) == Saturated(LinkLoad(entries, k))
  }

  ghost predicate TracksDevices(m: map<Id, nat>, entries: seq<Entry>) {
    forall k :: Slot(m, k) == Saturated(DeviceLoad(entries, k))
  }

  method AddLinks(m: map<Id, nat>, e: Entry, ghost before: seq<Entry>) returns (r: map<Id, nat>)
    requires e.binding.demand <= MAX_U64 && TracksLinks(m, before)
    ensures TracksLinks(r, before + [e])
  {
    r := AddPath(m, e.route.spec.path, e.binding.demand);
    assert (before + [e])[..|before|] == before;
  }

  method AddEnds(m: map<Id, nat>, e: Entry, ghost before: seq<Entry>) returns (r: map<Id, nat>)
    requires e.binding.demand <= MAX_U64 && TracksDevices(m, before)
    ensures TracksDevices(r, before + [e])
  {
    var m' := AddTo(m, e.route.spec.source, e.binding.demand);
    r := AddTo(m', e.route.spec.sink, e.binding.demand);
    forall k ensures Slot(r, k) == Saturated(DeviceLoad(before + [e], k)) {
      assert (before + [e])[..|before|] == before;
      assert Slot(m, k) == Saturated(DeviceLoad(before, k));
      assert Slot(r, k) == Saturated(Slot(m, k) + EndLoad(e, k));
    }
  }

  /** Accumulates the loads of all eligible routes.  Whatever overflows on the way, each slot ends
      as the true sum capped at the largest 64-bit value. */
  method AccumulateLoads(entries: seq<Entry>) returns (links: map<Id, nat>, devices: map<Id, nat>)
    requires Fits(entries)
    ensures TracksLinks(links, entries) && TracksDevices(devices, entries)
  {
    links, devices := map[], map[];
    for i := 0 to |entries|
      invariant TracksLinks(links, entries[..i]) && TracksDevices(devices, entries[..i])
    {
      assert entries[..i + 1] == entries[..i] + [entries[i]];
      links := AddLinks(links, entries[i], entries[..i]);
      devices := AddEnds(devices, entries[i], entries[..i]);
    }
    assert entries[..|entries|] == entries;
  }

  // ----- the order of the entries does not matter -----

  lemma {:induction false} LoadMove(entries: seq<Entry>, i: nat, share: Entry -> nat)
    requires i < |entries|
    ensures Load(entries, share) == Load(entries[..i] + entries[i + 1..], share) + share(entries[i])
  {
    var n := |entries| - 1;
    if i < n {
      LoadMove(entries[..n], i, share);
      assert entries[..n][..i] + entries[..n][i + 1..] == (entries[..i] + entries[i + 1..])[..n - 1];
    } else {
      assert entries[..i] + entries[i + 1..] == entries[..n];
    }
  }

  lemma TakeOut(b: seq<Entry>, i: nat)
    requires i < |b|
    ensures multiset(b) == multiset(b[..i] + b[i + 1..]) + multiset{b[i]}
  {
    assert b == b[..i] + [b[i]] + b[i + 1..];
  }

  /** Where the last entry of one list stands in the other, and that the others are the same. */
  lemma Partner(a: seq<Entry>, b: seq<Entry>) returns (i: nat)
    requires a != [] && multiset(a) == multiset(b)
    ensures i < |b| && b[i] == a[|a| - 1] && multiset(b[..i] + b[i + 1..]) == multiset(a[..|a| - 1])
  {
    var n := |a| - 1;
    assert a == a[..n] + [a[n]];
    assert a[n] in multiset(b);
    i :| 0 <= i < |b| && b[i] == a[n];
    TakeOut(b, i);
    calc {
      multiset(b[..i] + b[i + 1..]);
      multiset(b) - multiset{b[i]};
      multiset(a) - multiset{a[n]};
      multiset(a[..n]);
    }
  }

  lemma {:induction false} LoadAnyOrder(a: seq<Entry>, b: seq<Entry>, share: Entry -> nat)
    requires multiset(a) == multiset(b)
    ensures Load(a, share) == Load(b, share)
    decreases |a|
  {
    if a == [] {
      assert |multiset(b)| == |b|;
    } else {
      var i := Partner(a, b);
      LoadMove(b, i, share);
      LoadAnyOrder(a[..|a| - 1], b[..i] + b[i + 1..], share);
    }
  }

  /** Loads depend on which entries there are, not on the order workloads are listed in. */
  lemma LoadsAnyOrder(a: seq<Entry>, b: seq<Entry>, id: Id)
    requires multiset(a) == multiset(b)
    ensures LinkLoad(a, id) == LinkLoad(b, id) && DeviceLoad(a, id) == DeviceLoad(b, id)
  {
    LoadAnyOrder(a, b, LinkShare(id));
    LoadAnyOrder(a, b, DeviceShare(id));
  }

  // ----- headroom -----

  function Usable(capacity: nat, reserved: nat): nat { if capacity > reserved then capacity - reserved else 0 }

  function Kept(headroom: nat): nat { 1000 - (if headroom < 1000 then headroom else 1000) }

  /** The load the policy allows; where the scaled capacity overflows, the headroom is dropped. */
  function Limit(usable: nat, headroom: nat): nat
    requires usable <= MAX_U64
  {
    match CheckedMul(usable, Kept(headroom))
    case Some(allowed) => allowed / 1000
    case None => usable
  }

  predicate ScaleFits(usable: nat, headroom: nat) { usable * Kept(headroom) <= MAX_U64 }

  lemma FloorBound(n: nat, p: nat)
    ensures n <= p / 1000 <==> n * 1000 <= p
  {
  }

  /** When no violation is raised for a true load of `n` on a resource: where the scaled capacity
      fits 64 bits, exactly when the load times 1000 is within the share the headroom leaves;
      where it does not fit, exactly when the load is within the whole capacity, or the capacity is
      the largest value there is. */
  lemma HeadroomExact(n: nat, usable: nat, headroom: nat)
    requires usable <= MAX_U64
    ensures ScaleFits(usable, headroom) ==>
      (Saturated(n) <= Limit(usable, headroom) <==> n * 1000 <= usable * Kept(headroom))
    ensures !ScaleFits(usable, headroom) ==>
      (Saturated(n) <= Limit(usable, headroom) <==> n <= usable || usable == MAX_U64)
  {
    if ScaleFits(usable, headroom) {
      FloorBound(Saturated(n), usable * Kept(headroom));
    }
  }

  /** Half of the capacity is to be kept free, yet a full link passes: the scaled capacity does
      not fit 64 bits. */
  lemma HeadroomCanBeDropped()
    ensures var usable: nat := 0x1000_0000_0000_0000;
      !ScaleFits(usable, 500) && Saturated(usable) <= Limit(usable, 500) && usable * 1000 > usable * Kept(500)
  {
  }

  ghost predicate LinkCommitted(s: Snapshot, entries: seq<Entry>, headroom: nat, link: Id)
    requires link in s.links && s.links[link].spec.capacity <= MAX_U64
  {
    var spec := s.links[link].spec;
    Saturated(LinkLoad(entries, link)) <= Limit(Usable(spec.capacity, spec.reserved), headroom)
  }

  ghost predicate DeviceCommitted(s: Snapshot, entries: seq<Entry>, headroom: nat, device: Id)
    requires device in s.devices && s.devices[device].spec.capacity <= MAX_U64
  {
    var spec := s.devices[device].spec;
    Saturated(DeviceLoad(entries, device)) <= Limit(Usable(spec.capacity, spec.reserved), headroom)
  }

  ghost predicate Widths(s: Snapshot) {
    && (forall id :: id in s.links ==> s.links[id].spec.capacity <= MAX_U64)
    && (forall id :: id in s.devices ==> s.devices[id].spec.capacity <= MAX_U64)
  }

  method OverCommittedLinks(s: Snapshot, entries: seq<Entry>, load: map<Id, nat>, headroom: nat)
    returns (links: set<Id>)
    requires Widths(s) && TracksLinks(load, entries)
    ensures forall id :: id in links <==>
      id in s.links && s.links[id].state != Removed && !LinkCommitted(s, entries, headroom, id)
  {
    hide Limit, LinkLoad, Saturated;
    links := {};
    var left := s.links.Keys;
    while left != {}
      invariant left <= s.links.Keys
      invariant forall id :: id in links <==>
        id in s.links.Keys - left && s.links[id].state != Removed && !LinkCommitted(s, entries, headroom, id)
      decreases |left|
    {
      var id :| id in left;
      left := left - {id};
      if s.links[id].state == Removed { continue; }
      var spec := s.links[id].spec;
      if Slot(load, id) > Limit(Usable(spec.capacity, spec.reserved), headroom) { links := links + {id}; }
    }
  }

  method OverCommittedDevices(s: Snapshot, entries: seq<Entry>, load: map<Id, nat>, headroom: nat)
    returns (devices: set<Id>)
    requires Widths(s) && TracksDevices(load, entries)
    ensures forall id :: id in devices <==>
      id in s.devices && s.devices[id].spec.state != Removed && !DeviceCommitted(s, entries, headroom, id)
  {
    hide Limit, DeviceLoad, Saturated;
    devices := {};
    var left := s.devices.Keys;
    while left != {}
      invariant left <= s.devices.Keys
      invariant forall id :: id in devices <==>
        id in s.devices.Keys - left && s.devices[id].spec.state != Removed && !DeviceCommitted(s, entries, headroom, id)
      decreases |left|
    {
      var id :| id in left;
      left := left - {id};
      if s.devices[id].spec.state == Removed { continue; }
      var spec := s.devices[id].spec;
      if Slot(load, id) > Limit(Usable(spec.capacity, spec.reserved), headroom) { devices := devices + {id}; }
    }
  }

  /** The links and devices that are over-committed; removed ones are not looked at.  With
      `HeadroomExact`, a resource is reported exactly when its true load exceeds its share. */
  method CheckHeadroom(s: Snapshot, entries: seq<Entry>, headroom: nat) returns (links: set<Id>, devices: set<Id>)
    requires Widths(s) && Fits(entries)
    ensures forall id :: id in links <==>
      id in s.links && s.links[id].state != Removed && !LinkCommitted(s, entries, headroom, id)
    ensures forall id :: id in devices <==>
      id in s.devices && s.devices[id].spec.state != Removed && !DeviceCommitted(s, entries, headroom, id)
  {
    var linkLoad, deviceLoad := AccumulateLoads(entries);
    links := OverCommittedLinks(s, entries, linkLoad, headroom);
    devices := OverCommittedDevices(s, entries, deviceLoad, headroom);
  }

  /** The true total, times 1000, is within the share of the usable capacity the headroom leaves; or,
      where that product overflows, the total is within the whole usable capacity, unless that is as
      far as loads are counted. */
  ghost predicate Within(load: nat, capacity: nat, reserved: nat, headroom: nat) {
    var usable := if reserved < capacity then capacity - reserved else 0;
    var share := if headroom < 1000 then usable * (1000 - headroom) else 0;
    if share <= MAX_U64 then load * 1000 <= share else load <= usable || usable == MAX_U64
  }

  lemma CommittedMeans(s: Snapshot, entries: seq<Entry>, headroom: nat, id: Id)
    requires Widths(s)
    ensures id in s.links ==>
      (LinkCommitted(s, entries, headroom, id) <==>
       Within(LinkLoad(entries, id), s.links[id].spec.capacity, s.links[id].spec.reserved, headroom))
    ensures id in s.devices ==>
      (DeviceCommitted(s, entries, headroom, id) <==>
       Within(DeviceLoad(entries, id), s.devices[id].spec.capacity, s.devices[id].spec.reserved, headroom))
  {
    hide Limit, LinkLoad, DeviceLoad, Saturated;
    if id in s.links {
      HeadroomExact(LinkLoad(entries, id), Usable(s.links[id].spec.capacity, s.links[id].spec.reserved), headroom);
    }
    if id in s.devices {
      HeadroomExact(DeviceLoad(entries, id), Usable(s.devices[id].spec.capacity, s.devices[id].spec.reserved),
                    headroom);
    }
  }

  /** No headroom violation is raised exactly when every link and device still there carries, in
      true total, no more than its headroom leaves, or, where the scaled capacity overflows, than it
      can carry at all. */
  lemma NothingReported(s: Snapshot, entries: seq<Entry>, headroom: nat, links: set<Id>, devices: set<Id>)
    requires Widths(s)
    requires forall id :: id in links <==>
      id in s.links && s.links[id].state != Removed && !LinkCommitted(s, entries, headroom, id)
    requires forall id :: id in devices <==>
      id in s.devices && s.devices[id].spec.state != Removed && !DeviceCommitted(s, entries, headroom, id)
    ensures links == {} && devices == {} <==>
      && (forall id :: id in s.links && s.links[id].state != Removed ==>
            Within(LinkLoad(entries, id), s.links[id].spec.capacity, s.links[id].spec.reserved, headroom))
      && (forall id :: id in s.devices && s.devices[id].spec.state != Removed ==>
            Within(DeviceLoad(entries, id), s.devices[id].spec.capacity, s.devices[id].spec.reserved, headroom))
  {
    hide Within, LinkCommitted, DeviceCommitted, LinkLoad, DeviceLoad;
    forall id { CommittedMeans(s, entries, headroom, id); }
    if links == {} {
      forall id | id in s.links && s.links[id].state != Removed ensures LinkCommitted(s, entries, headroom, id) {
        assert id !in links;
      }
    }
    if devices == {} {
      forall id | id in s.devices && s.devices[id].spec.state != Removed
        ensures DeviceCommitted(s, entries, headroom, id)
      {
        assert id !in devices;
      }
    }
  }
}
