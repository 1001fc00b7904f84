/** Obligations of a whole snapshot: capacity with its headroom, and a list of obligations some of which
    are switched off. */
module Obligations {
  import opened Wrappers
  import opened Checked
  import opened Snapshots
  import opened Eligibility
  import opened Capacity

  // ----- capacity -----

  /** The eligible routes of the workloads below `n`, in the order of their identities. */
  ghost function EntriesUpTo(s: Snapshot, n: nat): seq<Entry> {
    if n == 0 then []
    else
      EntriesUpTo(s, n - 1)
      + if n - 1 in s.workloads then EligibleAmong(s, s.workloads[n - 1], s.workloads[n - 1].bindings) else []
  }

  /** Some link or device still there is over-committed. */
  ghost predicate OverCommitted(s: Snapshot, headroom: nat) {
    exists n: nat, id :: Covers(s, n) && (LinkOver(s, n, headroom, id) || DeviceOver(s, n, headroom, id))
  }

  /** All workloads are below `n`. */
  ghost predicate Covers(s: Snapshot, n: nat) { forall w :: w in s.workloads ==> w < n }

  ghost predicate LinkOver(s: Snapshot, n: nat, headroom: nat, id: Id) {
    && id in s.links && s.links[id].state != Removed && s.links[id].spec.capacity <= MAX_U64
    && !LinkCommitted(s, EntriesUpTo(s, n), headroom, id)
  }

  ghost predicate DeviceOver(s: Snapshot, n: nat, headroom: nat, id: Id) {
    && id in s.devices && s.devices[id].spec.state != Removed && s.devices[id].spec.capacity <= MAX_U64
    && !DeviceCommitted(s, EntriesUpTo(s, n), headroom, id)
  }

  lemma LimitFalls(usable: nat, less: nat, more: nat)
    requires usable <= MAX_U64 && less <= more
    ensures Limit(usable, more) <= Limit(usable, less)
  {
    var a, b := usable * Kept(more), usable * Kept(less);
    assert Kept(more) <= Kept(less) <= 1000;
    Scaled(usable, Kept(more), Kept(less));
  }

  lemma Scaled(n: nat, less: nat, more: nat)
    requires less <= more <= 1000
    ensures n * less <= n * more
    ensures n * more / 1000 <= n && n * less / 1000 <= n * more / 1000
  {
    assert n * less <= n * more <= n * 1000;
  }

  /** Keeping more free is never easier. */
  lemma MoreIsStricter(s: Snapshot, less: nat, more: nat)
    requires less <= more && OverCommitted(s, less)
    ensures OverCommitted(s, more)
  {
    hide EntriesUpTo, LinkLoad, DeviceLoad, Limit;
    var n: nat, id :| Covers(s, n) && (LinkOver(s, n, less, id) || DeviceOver(s, n, less, id));
    if LinkOver(s, n, less, id) {
      LimitFalls(Usable(s.links[id].spec.capacity, s.links[id].spec.reserved), less, more);
      assert LinkOver(s, n, more, id);
    } else {
      LimitFalls(Usable(s.devices[id].spec.capacity, s.devices[id].spec.reserved), less, more);
      assert DeviceOver(s, n, more, id);
    }
  }

  lemma {:induction false} LoadAppend(a: seq<Entry>, b: seq<Entry>, share: Entry -> nat)
    ensures Load(a + b, share) == Load(a, share) + Load(b, share)
  {
    if b == [] {
      assert a + b == a;
    } else {
      var n := |b| - 1;
      assert (a + b)[..|a + b| - 1] == a + b[..n];
      LoadAppend(a, b[..n], share);
    }
  }

  lemma LoadOfOne(e: Entry, share: Entry -> nat)
    ensures Load([e], share) == share(e)
  {
    assert [e][..0] == [];
    assert Load([e][..0], share) == 0;
  }

  lemma PathOfOne(route: Id, link: Id, demand: nat)
    ensures PathLoad([route], link, demand) == if route == link then demand else 0
  {
    assert [route][..0] == [];
    assert PathLoad([route][..0], link, demand) == 0;
  }

  // ----- a list of obligations -----

  /** An obligation: to keep a share of every capacity free, or one of another kind. */
  datatype Item = Headroom(permille: nat) | Other(kind: nat)

  /** The share to keep free: the one the first headroom obligation not switched off asks for. */
  function FirstHeadroom(items: seq<Item>, off: set<nat>, from: nat): Option<nat>
    decreases |items| - from
  {
    if from >= |items| then None
    else if from !in off && items[from].Headroom? then Some(items[from].permille)
    else FirstHeadroom(items, off, from + 1)
  }

  /** The snapshot breaks an obligation that is not switched off.  Of the headroom obligations only
      the first that is on counts; `broken` says what breaks the others. */
  ghost predicate Breaks(items: seq<Item>, broken: (nat, Snapshot) -> bool, off: set<nat>, s: Snapshot) {
    || (exists i :: 0 <= i < |items| && i !in off && items[i].Other? && broken(items[i].kind, s))
    || (FirstHeadroom(items, off, 0).Some? && OverCommitted(s, FirstHeadroom(items, off, 0).value))
  }

  /** No headroom obligation asks for more than one listed before it. */
  ghost predicate Relaxing(items: seq<Item>) {
    forall i, j :: 0 <= i < j < |items| && items[i].Headroom? && items[j].Headroom? ==>
      items[j].permille <= items[i].permille
  }

  lemma {:induction false} FirstIsListed(items: seq<Item>, off: set<nat>, from: nat) returns (i: nat)
    requires FirstHeadroom(items, off, from).Some?
    ensures from <= i < |items| && i !in off && items[i] == Headroom(FirstHeadroom(items, off, from).value)
    decreases |items| - from
  {
    i := from;
    if from in off || !items[from].Headroom? { i := FirstIsListed(items, off, from + 1); }
  }

  /** With more switched off, the headroom asked for can only fall. */
  lemma {:induction false} FirstFalls(items: seq<Item>, less: set<nat>, more: set<nat>, from: nat)
    requires Relaxing(items) && less <= more && FirstHeadroom(items, more, from).Some?
    ensures FirstHeadroom(items, less, from).Some?
    ensures FirstHeadroom(items, more, from).value <= FirstHeadroom(items, less, from).value
    decreases |items| - from
  {
    if from in more || !items[from].Headroom? {
      var i := FirstIsListed(items, more, from + 1);
      FirstFalls(items, less, more, from + 1);
    }
  }

  lemma BreaksLess(items: seq<Item>, broken: (nat, Snapshot) -> bool, less: set<nat>, more: set<nat>, s: Snapshot)
    requires Relaxing(items) && less <= more && Breaks(items, broken, more, s)
    ensures Breaks(items, broken, less, s)
  {
    hide OverCommitted;
    if FirstHeadroom(items, more, 0).Some? && OverCommitted(s, FirstHeadroom(items, more, 0).value) {
      FirstFalls(items, less, more, 0);
      MoreIsStricter(s, FirstHeadroom(items, more, 0).value, FirstHeadroom(items, less, 0).value);
    }
  }

  // ----- one route with a given load -----

  /** Two devices, a link, a route over it that carries `load` for workload 1, and a workload 2 that is
      bound to nothing. */
  function Loaded(load: nat): Snapshot {
    var unit := Device(DeviceSpec(1, Present, 1000, 0, 0, 1, ""), [], []);
    Snapshot(Header(1, 1, 1, 1, 1, 0), map[1 := unit, 2 := unit],
             map[1 := Link(LinkSpec(1, 2, 1000, 0, 0, []), Present)],
             map[1 := Route(RouteSpec(1, 2, [1], 0), Active)],
             map[1 := Workload([Binding(1, true, load)], Requirements(false, 0, 0, 0, []), ""),
                 2 := Workload([], Requirements(true, 0, 0, 0, []), "")], map[], map[])
  }

  lemma LoadedIsEligible(load: nat)
    ensures var s := Loaded(load);
      EligibleAmong(s, s.workloads[1], s.workloads[1].bindings) == [Entry(s.routes[1], Binding(1, true, load))]
  {
    hide Avoids;
    var s := Loaded(load);
    var bs, r := s.workloads[1].bindings, s.routes[1];
    assert r.spec.path == [1] && r.spec.path[1..] == [];
    assert Walk(s.links, 2, []) == Some(2);
    assert Walkable(s.links, r.spec);
    assert Avoids(s, r, []) by { NothingForbidden(s, r); }
    assert bs[..0] == [] && EligibleAmong(s, s.workloads[1], []) == [];
  }

  lemma NothingForbidden(s: Snapshot, r: Route)
    ensures Avoids(s, r, [])
  {
  }

  lemma {:induction false} LoadedEntries(load: nat, n: nat)
    requires n >= 3
    ensures EntriesUpTo(Loaded(load), n) == [Entry(Loaded(load).routes[1], Binding(1, true, load))]
  {
    var s := Loaded(load);
    if n > 3 {
      LoadedEntries(load, n - 1);
    } else {
      LoadedIsEligible(load);
      assert EntriesUpTo(s, 1) == [] && EntriesUpTo(s, 2) == EligibleAmong(s, s.workloads[1], s.workloads[1].bindings);
      assert EligibleAmong(s, s.workloads[2], []) == [];
    }
  }

  lemma LoadedLoads(load: nat, n: nat, id: Id)
    requires n >= 3
    ensures LinkLoad(EntriesUpTo(Loaded(load), n), 1) == load
    ensures DeviceLoad(EntriesUpTo(Loaded(load), n), id) == if id in {1, 2} then load else 0
  {
    LoadedEntries(load, n);
    var e := Entry(Loaded(load).routes[1], Binding(1, true, load));
    LoadOfOne(e, LinkShare(1));
    LoadOfOne(e, DeviceShare(id));
    PathOfOne(1, 1, load);
  }

  lemma LoadedOver(load: nat, headroom: nat)
    requires headroom <= 1000
    ensures OverCommitted(Loaded(load), headroom) <==> load > 1000 - headroom
  {
    hide EntriesUpTo, LinkLoad, DeviceLoad;
    var s := Loaded(load);
    HeadroomExact(load, 1000, headroom);
    if load > 1000 - headroom {
      LoadedLoads(load, 3, 1);
      assert LinkOver(s, 3, headroom, 1);
    }
    if n: nat, id :| Covers(s, n) && (LinkOver(s, n, headroom, id) || DeviceOver(s, n, headroom, id)) {
      assert 2 in s.workloads;
      LoadedLoads(load, n, id);
    }
  }
}
