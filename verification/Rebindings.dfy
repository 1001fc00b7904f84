/** Targets that remove routes and ask for other bindings: when a plan for them ends with the bindings
    asked for. */
module Rebindings {
  import opened Wrappers
  import opened Sorting
  import opened Snapshots
  import opened Operations
  import opened Evaluate
  import opened Derivation
  import opened Goals
  import opened Convergence
  import opened Executions
  import opened RemovedRoutes

  /** Every workload ensured that holds a removed route is bound anew, by a change listed after each
      release of it that differs. */
  ghost predicate RebindsLast(naming: Naming, s: Snapshot, t: Target) {
    forall workload, route ::
      HoldsRoute(s, t, workload, route) && workload in t.workloads && t.workloads[workload].Ensure? ==>
      ReboundAfter(naming, s, t, workload, route)
  }

  ghost predicate ReboundAfter(naming: Naming, s: Snapshot, t: Target, workload: Id, route: Id) {
    Rebound(s, t, workload) &&
      (ReleaseOp(s, workload, route) == RebindOp(t, workload)
       || OperationBefore(naming, ReleaseOp(s, workload, route), RebindOp(t, workload)))
  }

  // ----- the bindings a release leaves are in canonical form -----

  lemma {:induction false} UnbindingOrdered(bs: seq<Binding>, route: Id)
    requires Ordered(bs, BindingRoute)
    ensures Ordered(Unbinding(bs, route), BindingRoute)
    ensures forall b :: b in Unbinding(bs, route) ==> b in bs
  {
    if bs != [] {
      forall i, j | 0 <= i < j < |bs[1..]| ensures BindingRoute(bs[1..][i]) <= BindingRoute(bs[1..][j]) {
        assert BindingRoute(bs[i + 1]) <= BindingRoute(bs[j + 1]);
      }
      UnbindingOrdered(bs[1..], route);
      var rest := Unbinding(bs[1..], route);
      forall b | b in rest ensures BindingRoute(bs[0]) <= BindingRoute(b) {
        var j :| 0 <= j < |bs[1..]| && bs[1..][j] == b;
        assert bs[j + 1] == b;
      }
    }
  }

  lemma ReleaseIsSorted(s: Snapshot, workload: Id, route: Id)
    requires Canonical(s) == s && workload in s.workloads
    ensures SortBindings(ReleaseOp(s, workload, route).bindings) == ReleaseOp(s, workload, route).bindings
  {
    hide Unbinding, SortUnique, CanonicalDevices, CanonicalLinks;
    CanonicalParts(s);
    var bs := s.workloads[workload].bindings;
    assert SortBindings(bs) == bs;
    SortOrdered(bs, BindingRoute);
    UnbindingOrdered(bs, route);
    SortFixed(Unbinding(bs, route), BindingRoute);
  }

  lemma {:induction false} UnbindingDiffers(bs: seq<Binding>, route: Id)
    requires BindsRoute(bs, route)
    ensures Unbinding(bs, route) != bs
  {
    UnbindingBinds(bs, route, route);
  }

  // ----- what settles -----

  lemma PlainBindings(t: Target, workload: Id)
    requires Plain(t) && workload in t.workloads && t.workloads[workload].Ensure?
    ensures SortBindings(RebindOp(t, workload).bindings) == RebindOp(t, workload).bindings
    ensures RebindOp(t, workload).bindings == t.workloads[workload].value.bindings
  {
    hide SortBindings, SortUnique, DevicePlain, LinkPlain;
  }

  lemma SettlesFor(ctx: Context, s: Snapshot, t: Target, naming: Naming, ops: seq<Operation>, workload: Id)
    requires Derives(ctx, s, t, naming, ops) && Plain(t) && RebindsLast(naming, s, t)
    ensures BindingsSettleFor(s, t, ops, workload)
  {
    hide Derivable, DerivedOps, SortedBy, Plain, OperationBefore, HoldsRoute, SortBindings, LastBindings;
    if workload in t.workloads && t.workloads[workload].Ensure? && workload in s.workloads {
      PlainBindings(t, workload);
      if Rebound(s, t, workload) {
        RebindDerived(ctx, s, t, workload);
        assert Binds(RebindOp(t, workload), workload);
      }
      if exists op :: op in ops && Binds(op, workload) {
        var k := LastThere(ops, workload);
        LastIs(ops, workload, k);
        assert ops[k] in ops;
        BindingForms(ctx, s, t, ops[k]);
        if route :| HoldsRoute(s, t, workload, route) && ops[k] == ReleaseOp(s, workload, route) {
          assert ReboundAfter(naming, s, t, workload, route);
          if ops[k] != RebindOp(t, workload) {
            var j := Place(ops, RebindOp(t, workload));
            BeforeIsEarlier(naming, ops, k, j);
          }
        }
      } else {
        NoneIsLast(ops, workload);
      }
    }
  }

  lemma SettledIsRebound(ctx: Context, s: Snapshot, t: Target, naming: Naming, ops: seq<Operation>, workload: Id,
                         route: Id)
    requires Derives(ctx, s, t, naming, ops) && Plain(t) && Canonical(s) == s && NamesApart(naming, ops)
    requires BindingsSettleFor(s, t, ops, workload) && HoldsRoute(s, t, workload, route)
    requires workload in t.workloads && t.workloads[workload].Ensure?
    ensures ReboundAfter(naming, s, t, workload, route)
  {
    hide Derivable, DerivedOps, SortedBy, Plain, OperationBefore, Canonical, BindsRoute, SortBindings, LastBindings,
      NamesApart, Unbinding;
    PlainBindings(t, workload);
    ReleaseDerived(ctx, s, t, workload, route);
    var i := Place(ops, ReleaseOp(s, workload, route));
    assert ops[i] in ops && Binds(ops[i], workload);
    var k := LastThere(ops, workload);
    LastIs(ops, workload, k);
    LastRebinds(ctx, s, t, naming, ops, workload, k);
    if i < k { EarlierIsBefore(naming, ops, i, k); }
  }

  /** Where the bindings settle, the last change of them is the one the target asks for. */
  lemma LastRebinds(ctx: Context, s: Snapshot, t: Target, naming: Naming, ops: seq<Operation>, workload: Id, k: nat)
    requires Derives(ctx, s, t, naming, ops) && Plain(t) && Canonical(s) == s && k < |ops| && Binds(ops[k], workload)
    requires workload in t.workloads && t.workloads[workload].Ensure?
    requires SortBindings(ops[k].bindings) == t.workloads[workload].value.bindings
    ensures Rebound(s, t, workload) && ops[k] == RebindOp(t, workload)
  {
    hide Derivable, DerivedOps, SortedBy, Plain, Canonical, BindsRoute, SortBindings, Unbinding;
    assert ops[k] in ops;
    BindingForms(ctx, s, t, ops[k]);
    if route :| HoldsRoute(s, t, workload, route) && ops[k] == ReleaseOp(s, workload, route) {
      ReleaseIsSorted(s, workload, route);
      UnbindingDiffers(s.workloads[workload].bindings, route);
    }
  }

  /** The condition a caller can check beforehand, for target, snapshot and the canonical order: the
      bindings settle, in every execution of a plan, if and only if every workload ensured that holds a
      removed route is bound anew by a change that is listed after each release of it that differs. */
  lemma SettlesIffRebindsLast(ctx: Context, s: Snapshot, t: Target, naming: Naming, ops: seq<Operation>)
    requires Derives(ctx, s, t, naming, ops) && Plain(t) && Canonical(s) == s
    ensures RebindsLast(naming, s, t) ==> BindingsSettle(s, t, ops)
    ensures NamesApart(naming, ops) && BindingsSettle(s, t, ops) ==> RebindsLast(naming, s, t)
  {
    hide Derives, Plain, Canonical, NamesApart, BindingsSettleFor, HoldsRoute, ReboundAfter;
    if RebindsLast(naming, s, t) {
      forall id ensures BindingsSettleFor(s, t, ops, id) { SettlesFor(ctx, s, t, naming, ops, id); }
    }
    if NamesApart(naming, ops) && BindingsSettle(s, t, ops) {
      forall workload, route
        | HoldsRoute(s, t, workload, route) && workload in t.workloads && t.workloads[workload].Ensure?
        ensures ReboundAfter(naming, s, t, workload, route)
      {
        SettledIsRebound(ctx, s, t, naming, ops, workload, route);
      }
    }
  }

  // ----- a route that is replaced -----

  function Over(link: Id): Route { Route(RouteSpec(1, 2, [link], 0), Active) }

  function To(route: Id): seq<Binding> { [Binding(route, true, 0)] }

  function Client(bs: seq<Binding>): Workload { Workload(bs, Requirements(false, 0, 0, 0, []), "") }

  /** Two devices joined by a link, routes over it and one workload. */
  function Served(routes: map<Id, Route>, bs: seq<Binding>): Snapshot {
    var device := Device(DeviceSpec(1, Present, 1, 0, 0, 1, ""), [], []);
    Snapshot(Header(1, 1, 1, 1, 1, 0), map[1 := device, 2 := device],
             map[1 := Link(LinkSpec(1, 2, 1, 0, 0, []), Present)],
             routes, map[1 := Client(bs)], map[], map[])
  }

  function Both(): map<Id, Route> { map[1 := Over(1), 2 := Over(1)] }

  /** Route 1 goes, and the workload bound to it is to be bound to route 2. */
  function Replacement(): Target {
    Target(map[], map[], map[1 := Desired.Remove], map[1 := Ensure(Client(To(2)))], map[], map[])
  }

  function Rebinding(): Operation { BindingsOp(1, To(2)) }

  function Releasing(): Operation { BindingsOp(1, []) }

  lemma ReplacementDerived(ctx: Context)
    ensures Derivable(ctx, Served(Both(), To(1)), Replacement())
    ensures DerivedOps(ctx, Served(Both(), To(1)), Replacement()) == {Rebinding(), Releasing(), RouteRemoveOp(1)}
  {
    hide EntryOps, Entries, Served, Replacement, Releasing, Rebinding, RouteRemoveOp;
    var s, t := Served(Both(), To(1)), Replacement();
    ReplacementEntries(ctx);
    forall op | op in {Rebinding(), Releasing(), RouteRemoveOp(1)} ensures op in DerivedOps(ctx, s, t) {
      var r := if op == Rebinding() then WorkloadRef(1) else RouteRef(1);
      assert r in Entries(t) && op in EntryOps(ctx, s, t, r).value;
    }
  }

  lemma ReplacementEntries(ctx: Context)
    ensures Entries(Replacement()) == {RouteRef(1), WorkloadRef(1)}
    ensures var s, t := Served(Both(), To(1)), Replacement();
      && EntryOps(ctx, s, t, RouteRef(1)) == Some({Releasing(), RouteRemoveOp(1)})
      && EntryOps(ctx, s, t, WorkloadRef(1)) == Some({Rebinding()})
  {
    hide RouteRemoveOp, Releasing, Rebinding, RouteEntry, WorkloadEntry;
    RouteEntryHere();
    WorkloadEntryHere();
  }

  lemma RouteEntryHere()
    ensures RouteEntry(Served(Both(), To(1)), Replacement(), 1, Desired.Remove) == Some({Releasing(), RouteRemoveOp(1)})
  {
    hide BindingsOp, RouteRemoveOp;
    var s := Served(Both(), To(1));
    assert Unbinding(To(1), 1) == [] by { assert To(1)[1..] == []; }
    assert To(1)[0].route == 1;
    assert BindsRoute(To(1), 1);
    assert s.workloads[1].bindings == To(1);
    forall op ensures op in ReleaseOps(s, 1) <==> op == Releasing() {}
    assert ReleaseOps(s, 1) == {Releasing()};
    assert {Releasing()} + {RouteRemoveOp(1)} == {Releasing(), RouteRemoveOp(1)};
  }

  lemma WorkloadEntryHere()
    ensures WorkloadEntry(Served(Both(), To(1)), Replacement(), 1, Ensure(Client(To(2)))) == Some({Rebinding()})
  {
    hide BindingsOp, RequirementsOp;
    assert To(1)[0] != To(2)[0];
    assert {Rebinding()} + {} == {Rebinding()};
  }

  lemma ServedIsCanonical(routes: map<Id, Route>, bs: seq<Binding>)
    requires |bs| <= 1
    ensures Canonical(Served(routes, bs)) == Served(routes, bs)
  {
    var s := Served(routes, bs);
    assert SortWindows([]) == [] && SortUnique([]) == [];
    assert SortBindings(bs) == bs by { if bs != [] { assert bs == [bs[0]] && bs[1..] == []; } }
    assert CanonicalWorkload(s.workloads[1]) == s.workloads[1];
    assert CanonicalDevices(s.devices) == s.devices && CanonicalLinks(s.links) == s.links;
    assert CanonicalWorkloads(s.workloads) == s.workloads;
  }

  lemma ServedIsValid(routes: map<Id, Route>, bs: seq<Binding>)
    requires |bs| <= 1 && (forall i :: 0 <= i < |bs| ==> bs[i].route in routes) && forall id :: id in routes ==>
      routes[id] == Over(1)
    ensures Valid(Served(routes, bs))
  {
    hide DeviceOk, RouteOk, WorkloadOk;
    var s := Served(routes, bs);
    forall id | id in s.devices ensures DeviceOk(s.devices[id]) { DeviceIsOk(s.devices[id]); }
    forall id | id in s.routes ensures RouteOk(s, s.routes[id]) { RouteIsOk(routes, bs, id); }
    forall id | id in s.workloads ensures WorkloadOk(s.routes, s.workloads[id]) { ClientIsOk(routes, bs); }
  }

  lemma DeviceIsOk(d: Device)
    requires d == Device(DeviceSpec(1, Present, 1, 0, 0, 1, ""), [], [])
    ensures DeviceOk(d)
  {
  }

  lemma RouteIsOk(routes: map<Id, Route>, bs: seq<Binding>, id: Id)
    requires id in routes && routes[id] == Over(1)
    ensures RouteOk(Served(routes, bs), routes[id])
  {
  }

  lemma ClientIsOk(routes: map<Id, Route>, bs: seq<Binding>)
    requires |bs| <= 1 && forall i :: 0 <= i < |bs| ==> bs[i].route in routes
    ensures WorkloadOk(routes, Client(bs))
  {
  }

  lemma NothingExcluded(ctx: Context, s: Snapshot, op: Operation)
    requires s.devices == Served(map[], []).devices && !RequiresWindow(op.kind)
    ensures ExclusionGate(ctx, s, op) && WindowGate(ctx, s, op)
  {
  }

  lemma BindStep(ctx: Context, routes: map<Id, Route>, bs: seq<Binding>, more: seq<Binding>)
    requires |more| <= 1 && (forall i :: 0 <= i < |more| ==> more[i].route in routes)
    requires forall id :: id in routes ==> routes[id] == Over(1)
    ensures Apply(ctx, Served(routes, bs), BindingsOp(1, more)) == Ok(Served(routes, more))
  {
    hide ExclusionGate, WindowGate, Canonical, Valid;
    var s, op := Served(routes, bs), BindingsOp(1, more);
    NothingExcluded(ctx, s, op);
    assert Mutate(s, op) == Served(routes, more) by { assert NextWorkload(op, Some(Client(bs))) == Some(Client(more)); }
    ServedIsCanonical(routes, more);
    ServedIsValid(routes, more);
  }

  lemma RemoveStep(ctx: Context, bs: seq<Binding>)
    requires |bs| <= 1 && forall i :: 0 <= i < |bs| ==> bs[i].route == 2
    ensures Apply(ctx, Served(Both(), bs), RouteRemoveOp(1)) == Ok(Served(map[2 := Over(1)], bs))
  {
    hide ExclusionGate, WindowGate, Canonical, Valid;
    var s, op := Served(Both(), bs), RouteRemoveOp(1);
    NothingExcluded(ctx, s, op);
    assert !Bound(s, 1);
    assert Both() - {1} == map[2 := Over(1)];
    assert Mutate(s, op) == Served(map[2 := Over(1)], bs);
    ServedIsCanonical(map[2 := Over(1)], bs);
    ServedIsValid(map[2 := Over(1)], bs);
  }

  /** Two changes of the bindings and then the removal. */
  lemma RunOfThree(ctx: Context, a: seq<Binding>, b: seq<Binding>)
    requires |a| <= 1 && |b| <= 1 && (forall i :: 0 <= i < |a| ==> a[i].route == 2) && forall i :: 0 <= i < |b| ==>
      b[i].route == 2
    ensures Applied(ctx, Served(Both(), To(1)), [BindingsOp(1, a), BindingsOp(1, b), RouteRemoveOp(1)])
      == Some(Served(map[2 := Over(1)], b))
  {
    hide Apply, BindingsOp, RouteRemoveOp, Served;
    var x, y, z := BindingsOp(1, a), BindingsOp(1, b), RouteRemoveOp(1);
    BindStep(ctx, Both(), To(1), a);
    BindStep(ctx, Both(), a, b);
    RemoveStep(ctx, b);
    var s := Served(Both(), To(1));
    assert [x, y, z][..2] == [x, y] && [x, y][..1] == [x] && [x][..0] == [];
    assert Applied(ctx, s, [x]) == Some(Served(Both(), a));
    assert Applied(ctx, s, [x, y]) == Some(Served(Both(), b));
  }

  lemma ReplacementIsPlain()
    ensures Plain(Replacement()) && Reachable(Served(Both(), To(1)), Replacement())
  {
    assert To(2)[1..] == [] && SortBindings(To(2)) == To(2) && SortUnique([]) == [];
  }

  lemma LastOfThree(a: seq<Binding>, b: seq<Binding>)
    ensures LastBindings([BindingsOp(1, a), BindingsOp(1, b), RouteRemoveOp(1)], 1) == Some(b)
  {
    LastIs([BindingsOp(1, a), BindingsOp(1, b), RouteRemoveOp(1)], 1, 1);
  }

  lemma OnlyClient(xs: seq<Operation>)
    requires LastBindings(xs, 1).Some?
    ensures BindingsSettle(Served(Both(), To(1)), Replacement(), xs) <==>
      SortBindings(LastBindings(xs, 1).value) == To(2)
  {
    hide LastBindings, SortBindings;
    var s, t := Served(Both(), To(1)), Replacement();
    assert BindingsSettleFor(s, t, xs, 1) <==> SortBindings(LastBindings(xs, 1).value) == To(2);
  }

  /** Replacing a route: all three derived operations are accepted in either order of the two changes of
      the bindings, and the target is reached only if the release comes first.  Which of them is listed
      first, and so comes first in every execution, their digests decide. */
  lemma ReplacementCanBeUndone(ctx: Context, naming: Naming)
    ensures var s, t := Served(Both(), To(1)), Replacement();
      && Valid(s) && Canonical(s) == s && Plain(t) && Reachable(s, t) && Derivable(ctx, s, t)
      && DerivedOps(ctx, s, t) == {Rebinding(), Releasing(), RouteRemoveOp(1)}
      && (RebindsLast(naming, s, t) <==> naming.digest(Releasing()) < naming.digest(Rebinding()))
    ensures var s, t := Served(Both(), To(1)), Replacement();
      var u := Applied(ctx, s, [Rebinding(), Releasing(), RouteRemoveOp(1)]);
      u.Some? && !Meets(u.value, t)
    ensures var s, t := Served(Both(), To(1)), Replacement();
      var u := Applied(ctx, s, [Releasing(), Rebinding(), RouteRemoveOp(1)]);
      u.Some? && Meets(u.value, t)
  {
    hide Valid, Canonical, Plain, Reachable, Derivable, DerivedOps, Applied, LastBindings, BindingsSettle, SortBindings,
      Served, Replacement, RebindsLast, Meets;
    var s, t := Served(Both(), To(1)), Replacement();
    ReplacementDerived(ctx);
    ReplacementIsPlain();
    ServedIsCanonical(Both(), To(1));
    ServedIsValid(Both(), To(1));
    RebindingDecided(naming);
    RunOfThree(ctx, To(2), []);
    RunOfThree(ctx, [], To(2));
    LastOfThree(To(2), []);
    LastOfThree([], To(2));
    var bad, good := [Rebinding(), Releasing(), RouteRemoveOp(1)], [Releasing(), Rebinding(), RouteRemoveOp(1)];
    OnlyClient(bad);
    OnlyClient(good);
    SortedAlready();
    ThreeOnce();
    ConvergesIffReachable(ctx, s, t, bad, Applied(ctx, s, bad).value);
    ConvergesIffReachable(ctx, s, t, good, Applied(ctx, s, good).value);
  }

  lemma SortedAlready()
    ensures SortBindings([]) == [] && SortBindings(To(2)) == To(2) && To(2) != []
  {
    assert To(2)[1..] == [];
  }

  lemma ThreeOnce()
    ensures NoRepeat([Rebinding(), Releasing(), RouteRemoveOp(1)])
    ensures NoRepeat([Releasing(), Rebinding(), RouteRemoveOp(1)])
    ensures forall op :: op in [Rebinding(), Releasing(), RouteRemoveOp(1)] <==>
      op in {Rebinding(), Releasing(), RouteRemoveOp(1)}
    ensures forall op :: op in [Releasing(), Rebinding(), RouteRemoveOp(1)] <==>
      op in {Rebinding(), Releasing(), RouteRemoveOp(1)}
  {
    assert |To(2)| == 1;
    assert Rebinding() != Releasing() by { assert Rebinding().bindings == To(2) && Releasing().bindings == []; }
  }

  lemma RebindingDecided(naming: Naming)
    ensures RebindsLast(naming, Served(Both(), To(1)), Replacement()) <==>
      naming.digest(Releasing()) < naming.digest(Rebinding())
  {
    var s, t := Served(Both(), To(1)), Replacement();
    assert s.workloads[1].bindings == To(1);
    assert Unbinding(To(1), 1) == [] by { assert To(1)[1..] == []; }
    assert To(1)[0].route == 1 && BindsRoute(To(1), 1);
    assert To(1)[0] != To(2)[0];
    assert HoldsRoute(s, t, 1, 1) && Rebound(s, t, 1);
    assert ReleaseOp(s, 1, 1) == Releasing() && RebindOp(t, 1) == Rebinding();
    assert Rebinding().bindings == To(2) && Releasing().bindings == [];
    assert ReboundAfter(naming, s, t, 1, 1) <==> naming.digest(Releasing()) < naming.digest(Rebinding());
    forall w, route | HoldsRoute(s, t, w, route) ensures w == 1 && route == 1 {}
  }
}
