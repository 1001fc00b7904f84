/** Targets that remove routes: which changes of bindings are derived for them, and when the derived
    edges of a target form a cycle. */
module RemovedRoutes {
  import opened Sorting
  import opened Worlds
  import opened Kahn
  import opened Generate
  import opened Snapshots
  import opened Operations
  import opened Evaluate
  import opened Tangles
  import opened RouteTangles
  import opened Conditions
  import opened Derivation
  import opened Convergence
  import opened Networks
  import opened TangledTargets

  // ----- the changes of bindings a target asks for -----

  /** The workload binds a route that is to be removed. */
  predicate HoldsRoute(s: Snapshot, t: Target, workload: Id, route: Id) {
    workload in s.workloads && Withdrawn(s, t, route) && BindsRoute(s.workloads[workload].bindings, route)
  }

  function ReleaseOp(s: Snapshot, workload: Id, route: Id): Operation
    requires workload in s.workloads
  {
    BindingsOp(workload, Unbinding(s.workloads[workload].bindings, route))
  }

  /** The target asks for other bindings of a workload there is. */
  predicate Rebound(s: Snapshot, t: Target, workload: Id) {
    && workload in t.workloads && t.workloads[workload].Ensure? && workload in s.workloads
    && s.workloads[workload].bindings != t.workloads[workload].value.bindings
  }

  function RebindOp(t: Target, workload: Id): Operation
    requires workload in t.workloads && t.workloads[workload].Ensure?
  {
    BindingsOp(workload, t.workloads[workload].value.bindings)
  }

  predicate Required(s: Snapshot, t: Target, workload: Id) {
    && workload in t.workloads && t.workloads[workload].Ensure? && workload in s.workloads
    && (s.workloads[workload].requirements != t.workloads[workload].value.requirements
        || s.workloads[workload].contract != t.workloads[workload].value.contract)
  }

  lemma ReleaseDerived(ctx: Context, s: Snapshot, t: Target, workload: Id, route: Id)
    requires Derivable(ctx, s, t) && HoldsRoute(s, t, workload, route)
    ensures ReleaseOp(s, workload, route) in DerivedOps(ctx, s, t)
  {
    hide BindsRoute, Unbinding, BindingsOp;
    assert RouteRef(route) in Entries(t);
    assert ReleaseOp(s, workload, route) in ReleaseOps(s, route);
    assert ReleaseOp(s, workload, route) in EntryOps(ctx, s, t, RouteRef(route)).value;
  }

  lemma RebindDerived(ctx: Context, s: Snapshot, t: Target, workload: Id)
    requires Derivable(ctx, s, t) && Rebound(s, t, workload)
    ensures RebindOp(t, workload) in DerivedOps(ctx, s, t)
  {
    hide BindingsOp, RequirementsOp;
    assert WorkloadRef(workload) in Entries(t);
    assert RebindOp(t, workload) in EntryOps(ctx, s, t, WorkloadRef(workload)).value;
  }

  lemma RequirementsDerived(ctx: Context, s: Snapshot, t: Target, workload: Id)
    requires Derivable(ctx, s, t) && Required(s, t, workload)
    ensures RequirementsOp(workload, t.workloads[workload].value) in DerivedOps(ctx, s, t)
  {
    hide BindingsOp, RequirementsOp;
    assert WorkloadRef(workload) in Entries(t);
    assert RequirementsOp(workload, t.workloads[workload].value) in EntryOps(ctx, s, t, WorkloadRef(workload)).value;
  }

  lemma RemovalDerived(ctx: Context, s: Snapshot, t: Target, route: Id)
    requires Derivable(ctx, s, t) && Withdrawn(s, t, route)
    ensures RouteRemoveOp(route) in DerivedOps(ctx, s, t)
  {
    hide RouteRemoveOp, ReleaseOps;
    assert RouteRef(route) in Entries(t);
    assert RouteRemoveOp(route) in EntryOps(ctx, s, t, RouteRef(route)).value;
  }

  /** Where a derived change of bindings comes from. */
  ghost predicate IsBindingChange(s: Snapshot, t: Target, op: Operation) {
    || (exists route :: HoldsRoute(s, t, op.workload, route) && op == ReleaseOp(s, op.workload, route))
    || (Rebound(s, t, op.workload) && op == RebindOp(t, op.workload))
  }

  lemma BindingForms(ctx: Context, s: Snapshot, t: Target, op: Operation)
    requires Derivable(ctx, s, t) && op in DerivedOps(ctx, s, t) && op.kind.WorkloadSetBindings?
    ensures IsBindingChange(s, t, op)
  {
    hide Derivable, DerivedOps, OwnOps, BindsRoute, Unbinding, BindingsOp, ReleaseOps;
    Origin(ctx, s, t, op);
    if Released(s, t, op) {
      var route :| Withdrawn(s, t, route) && op in ReleaseOps(s, route);
      ReleaseMeans(s, route, op);
      assert HoldsRoute(s, t, op.workload, route);
    } else {
      OwnRebinds(ctx, s, t, op);
    }
  }

  lemma OwnRebinds(ctx: Context, s: Snapshot, t: Target, op: Operation)
    requires op in OwnOps(ctx, s, t, WorkloadRef(op.workload)) && op.kind.WorkloadSetBindings?
    ensures Rebound(s, t, op.workload) && op == RebindOp(t, op.workload)
  {
    hide HasBindings, BindingsOp, RequirementsOp, WorkloadAddOp, WorkloadRemoveOp;
  }

  lemma RequirementForms(ctx: Context, s: Snapshot, t: Target, op: Operation)
    requires Derivable(ctx, s, t) && op in DerivedOps(ctx, s, t) && op.kind.WorkloadSetRequirements?
    ensures Required(s, t, op.workload) && op.bindings == []
  {
    hide Derivable, DerivedOps, OwnOps;
    OwnUnlessBindings(ctx, s, t, op);
    OwnRequires(ctx, s, t, op);
  }

  lemma OwnRequires(ctx: Context, s: Snapshot, t: Target, op: Operation)
    requires op in OwnOps(ctx, s, t, WorkloadRef(op.workload)) && op.kind.WorkloadSetRequirements?
    ensures Required(s, t, op.workload) && op.bindings == []
  {
    hide HasBindings, BindingsOp, WorkloadAddOp, WorkloadRemoveOp;
  }

  lemma OnlyWithdrawnAreRemoved(ctx: Context, s: Snapshot, t: Target, op: Operation)
    requires Derivable(ctx, s, t) && op in DerivedOps(ctx, s, t) && op.kind.RouteRemove?
    ensures Withdrawn(s, t, op.route)
  {
    hide Derivable, DerivedOps, OwnOps;
    OwnUnlessBindings(ctx, s, t, op);
    OwnRemoves(ctx, s, t, op);
  }

  lemma OwnRemoves(ctx: Context, s: Snapshot, t: Target, op: Operation)
    requires op in OwnOps(ctx, s, t, RouteRef(op.route)) && op.kind.RouteRemove?
    ensures Withdrawn(s, t, op.route)
  {
    hide HasDevice, HasPath, BindingsOp, Unbinding, BindsRoute;
  }

  // ----- which removed routes a change of bindings keeps -----

  ghost function KeptBy(s: Snapshot, t: Target, bs: seq<Binding>): set<Id> {
    set route | route in t.routes && Withdrawn(s, t, route) && BindsRoute(bs, route) :: route
  }

  lemma KeepsIs(ctx: Context, s: Snapshot, t: Target, naming: Naming, ops: seq<Operation>, k: nat)
    requires Derives(ctx, s, t, naming, ops) && k < |ops|
    ensures Keeps(ops, k) == KeptBy(s, t, ops[k].bindings)
  {
    hide Derivable, DerivedOps, SortedBy, BindsRoute;
    forall route | route in Keeps(ops, k) ensures route in KeptBy(s, t, ops[k].bindings) {
      var i :| 0 <= i < |ops| && ops[i].kind.RouteRemove? && ops[i].route == route
        && BindsRoute(ops[k].bindings, route);
      assert ops[i] in ops;
      OnlyWithdrawnAreRemoved(ctx, s, t, ops[i]);
    }
    forall route | route in KeptBy(s, t, ops[k].bindings) ensures route in Keeps(ops, k) {
      RemovalDerived(ctx, s, t, route);
      var i :| 0 <= i < |ops| && ops[i] == RouteRemoveOp(route);
    }
  }

  lemma {:induction false} UnbindingBinds(bs: seq<Binding>, route: Id, other: Id)
    ensures BindsRoute(Unbinding(bs, route), other) <==> other != route && BindsRoute(bs, other)
  {
    hide BindsRoute;
    if bs == [] {
      BindsNothing(other);
    } else {
      var rest := Unbinding(bs[1..], route);
      UnbindingBinds(bs[1..], route, other);
      BindsFirst(bs, other);
      if bs[0].route == route {
        assert Unbinding(bs, route) == rest;
      } else {
        BindsFirst([bs[0]] + rest, other);
        assert ([bs[0]] + rest)[1..] == rest;
      }
    }
  }

  lemma BindsNothing(route: Id)
    ensures !BindsRoute([], route)
  {
  }

  lemma BindsFirst(bs: seq<Binding>, route: Id)
    requires bs != []
    ensures BindsRoute(bs, route) <==> bs[0].route == route || BindsRoute(bs[1..], route)
  {
    if BindsRoute(bs, route) {
      var i :| 0 <= i < |bs| && bs[i].route == route;
      if i > 0 { assert bs[1..][i - 1] == bs[i]; }
    }
  }

  /** A release keeps the other removed routes the workload holds. */
  lemma ReleaseKeeps(s: Snapshot, t: Target, workload: Id, route: Id)
    requires workload in s.workloads
    ensures forall other :: other in KeptBy(s, t, ReleaseOp(s, workload, route).bindings) <==>
      other != route && HoldsRoute(s, t, workload, other)
  {
    hide BindsRoute, Unbinding;
    forall other { UnbindingBinds(s.workloads[workload].bindings, route, other); }
  }

  // ----- the condition on target and snapshot -----

  /** A workload binds two of the routes that are to be removed. */
  ghost predicate HoldsTwo(s: Snapshot, t: Target) {
    exists workload, x, y :: x != y && HoldsRoute(s, t, workload, x) && HoldsRoute(s, t, workload, y)
  }

  ghost function RebindingKeeps(s: Snapshot, t: Target, workload: Id): set<Id>
    requires Rebound(s, t, workload)
  {
    KeptBy(s, t, t.workloads[workload].value.bindings)
  }

  /** Two workloads are to be bound to different removed routes. */
  ghost predicate Crossed(s: Snapshot, t: Target) {
    exists v, w :: Rebound(s, t, v) && Rebound(s, t, w) && Apart(RebindingKeeps(s, t, v), RebindingKeeps(s, t, w))
  }

  ghost predicate Apart(a: set<Id>, b: set<Id>) { !(a <= b) && !(b <= a) }

  /** A workload is to be bound to a removed route, by a change that is listed before another one of
      the same workload which frees it. */
  ghost predicate KeptTooEarly(naming: Naming, s: Snapshot, t: Target) {
    exists workload ::
      Rebound(s, t, workload) && RebindingKeeps(s, t, workload) != {} && FreedLater(naming, s, t, workload)
  }

  /** The last clause concerns a workload without an identity alone: bindings and requirements of any
      other are independent fields. */
  ghost predicate FreedLater(naming: Naming, s: Snapshot, t: Target, workload: Id)
    requires Rebound(s, t, workload)
  {
    || (exists route :: HoldsRoute(s, t, workload, route)
          && OperationBefore(naming, RebindOp(t, workload), ReleaseOp(s, workload, route)))
    || (workload == 0 && Required(s, t, workload))
  }

  ghost predicate RouteTargetTangled(naming: Naming, s: Snapshot, t: Target) {
    HoldsTwo(s, t) || Crossed(s, t) || KeptTooEarly(naming, s, t)
  }

  /** Digests of different operations differ. */
  ghost predicate NamesApart(naming: Naming, ops: seq<Operation>) {
    forall a, b :: a in ops && b in ops && naming.digest(a) == naming.digest(b) ==> a == b
  }

  // ----- it is the condition on the derived list -----

  lemma Place(ops: seq<Operation>, op: Operation) returns (i: nat)
    requires op in ops
    ensures i < |ops| && ops[i] == op
  {
    i :| i < |ops| && ops[i] == op;
  }

  lemma HoldsTwoIsTangled(ctx: Context, s: Snapshot, t: Target, naming: Naming, ops: seq<Operation>)
    requires Derives(ctx, s, t, naming, ops) && HoldsTwo(s, t)
    ensures RouteTangled(ops)
  {
    hide Derivable, DerivedOps, SortedBy, HoldsRoute, Keeps, KeptBy;
    var workload, x, y :| x != y && HoldsRoute(s, t, workload, x) && HoldsRoute(s, t, workload, y);
    assert workload in s.workloads by { HolderIsThere(s, t, workload, x); }
    ReleaseDerived(ctx, s, t, workload, x);
    ReleaseDerived(ctx, s, t, workload, y);
    var i := Place(ops, ReleaseOp(s, workload, x));
    var j := Place(ops, ReleaseOp(s, workload, y));
    KeepsIs(ctx, s, t, naming, ops, i);
    KeepsIs(ctx, s, t, naming, ops, j);
    ReleaseKeeps(s, t, workload, x);
    ReleaseKeeps(s, t, workload, y);
    assert y in Keeps(ops, i) && y !in Keeps(ops, j) && x in Keeps(ops, j) && x !in Keeps(ops, i);
    assert RouteTangle(ops, i, j);
  }

  lemma HolderIsThere(s: Snapshot, t: Target, workload: Id, route: Id)
    requires HoldsRoute(s, t, workload, route)
    ensures workload in s.workloads
  {
  }

  lemma CrossedIsTangled(ctx: Context, s: Snapshot, t: Target, naming: Naming, ops: seq<Operation>)
    requires Derives(ctx, s, t, naming, ops) && Crossed(s, t)
    ensures RouteTangled(ops)
  {
    hide Derivable, DerivedOps, SortedBy, Keeps, KeptBy;
    var v, w :| Rebound(s, t, v) && Rebound(s, t, w) && Apart(RebindingKeeps(s, t, v), RebindingKeeps(s, t, w));
    RebindDerived(ctx, s, t, v);
    RebindDerived(ctx, s, t, w);
    var i := Place(ops, RebindOp(t, v));
    var j := Place(ops, RebindOp(t, w));
    KeepsIs(ctx, s, t, naming, ops, i);
    KeepsIs(ctx, s, t, naming, ops, j);
    assert RouteTangle(ops, i, j);
  }

  lemma ReleaseTangles(ctx: Context, s: Snapshot, t: Target, naming: Naming, ops: seq<Operation>, w: Id, route: Id,
                       i: nat)
    requires Derives(ctx, s, t, naming, ops) && !HoldsTwo(s, t) && HoldsRoute(s, t, w, route)
    requires i < |ops| && Rebound(s, t, w) && ops[i] == RebindOp(t, w) && Keeps(ops, i) != {}
    requires OperationBefore(naming, RebindOp(t, w), ReleaseOp(s, w, route))
    ensures RouteTangled(ops)
  {
    hide Derivable, DerivedOps, OperationBefore, Keeps, KeptBy, HoldsRoute, SortedBy, HoldsTwo;
    ReleaseDerived(ctx, s, t, w, route);
    var j := Place(ops, ReleaseOp(s, w, route));
    KeepsIs(ctx, s, t, naming, ops, j);
    ReleaseKeepsNone(s, t, w, route);
    BeforeIsEarlier(naming, ops, i, j);
    assert RouteTangle(ops, i, j);
  }

  lemma KeptTooEarlyIsTangled(ctx: Context, s: Snapshot, t: Target, naming: Naming, ops: seq<Operation>)
    requires Derives(ctx, s, t, naming, ops) && KeptTooEarly(naming, s, t) && !HoldsTwo(s, t)
    ensures RouteTangled(ops)
  {
    hide Derivable, DerivedOps, OperationBefore, Keeps, KeptBy, HoldsRoute, Required, SortedBy;
    var w :| Rebound(s, t, w) && RebindingKeeps(s, t, w) != {} && FreedLater(naming, s, t, w);
    RebindDerived(ctx, s, t, w);
    var i := Place(ops, RebindOp(t, w));
    KeepsIs(ctx, s, t, naming, ops, i);
    if route :| HoldsRoute(s, t, w, route) && OperationBefore(naming, RebindOp(t, w), ReleaseOp(s, w, route)) {
      ReleaseTangles(ctx, s, t, naming, ops, w, route, i);
    } else {
      RequirementsDerived(ctx, s, t, w);
      var j := Place(ops, RequirementsOp(w, t.workloads[w].value));
      KeepsIs(ctx, s, t, naming, ops, j);
      NothingKept(s, t);
      LowerFirst(naming, ops, i, j);
      assert RouteTangle(ops, i, j);
    }
  }

  lemma ReleaseKeepsNone(s: Snapshot, t: Target, workload: Id, route: Id)
    requires HoldsRoute(s, t, workload, route) && !HoldsTwo(s, t)
    ensures KeptBy(s, t, ReleaseOp(s, workload, route).bindings) == {}
  {
    hide BindsRoute, Unbinding, KeptBy;
    ReleaseKeeps(s, t, workload, route);
  }

  lemma NothingKept(s: Snapshot, t: Target)
    ensures KeptBy(s, t, []) == {}
  {
  }

  lemma BeforeIsEarlier(naming: Naming, ops: seq<Operation>, i: nat, j: nat)
    requires SortedBy(ops, CanonicalOrder(naming)) && i < |ops| && j < |ops| && OperationBefore(naming, ops[i], ops[j])
    ensures i < j
  {
    assert CanonicalOrder(naming)(ops[i], ops[j]);
  }

  /** Of two listed changes of one workload's bindings the earlier one comes before. */
  lemma EarlierIsBefore(naming: Naming, ops: seq<Operation>, i: nat, j: nat)
    requires SortedBy(ops, CanonicalOrder(naming)) && NamesApart(naming, ops) && NoRepeat(ops) && i < j < |ops|
    requires ops[i].kind == ops[j].kind == WorkloadSetBindings && ops[i].workload == ops[j].workload
    ensures OperationBefore(naming, ops[i], ops[j])
  {
    assert !CanonicalOrder(naming)(ops[j], ops[i]);
    assert ops[i] in ops && ops[j] in ops && ops[i] != ops[j];
  }

  /** A change that keeps a removed route although no workload holds two is the one the target asks
      for. */
  lemma KeeperRebinds(ctx: Context, s: Snapshot, t: Target, naming: Naming, ops: seq<Operation>, x: nat)
    requires Derives(ctx, s, t, naming, ops) && !HoldsTwo(s, t) && x < |ops| && Frees(ops[x]) && Keeps(ops, x) != {}
    ensures Rebound(s, t, ops[x].workload) && ops[x] == RebindOp(t, ops[x].workload)
    ensures Keeps(ops, x) == RebindingKeeps(s, t, ops[x].workload)
  {
    hide Derivable, DerivedOps, SortedBy, Keeps, KeptBy, HoldsTwo, BindsRoute;
    var op := ops[x];
    assert op in ops;
    KeepsIs(ctx, s, t, naming, ops, x);
    NothingKept(s, t);
    if op.kind.WorkloadSetRequirements? {
      RequirementForms(ctx, s, t, op);
    } else {
      BindingForms(ctx, s, t, op);
      if route :| HoldsRoute(s, t, op.workload, route) && op == ReleaseOp(s, op.workload, route) {
        ReleaseKeepsNone(s, t, op.workload, route);
      }
    }
  }

  lemma TangleComesFromRoutes(ctx: Context, s: Snapshot, t: Target, naming: Naming, ops: seq<Operation>, x: nat, y: nat)
    requires Derives(ctx, s, t, naming, ops) && NamesApart(naming, ops) && !HoldsTwo(s, t) && RouteTangle(ops, x, y)
    ensures Crossed(s, t) || KeptTooEarly(naming, s, t)
  {
    hide Derivable, DerivedOps, SortedBy, Keeps, KeptBy, HoldsTwo, HoldsRoute, OperationBefore, NamesApart,
      SameWorkload, Rebound, Required, RebindOp;
    KeeperRebinds(ctx, s, t, naming, ops, x);
    var w := ops[x].workload;
    if !(Keeps(ops, y) <= Keeps(ops, x)) {
      KeeperRebinds(ctx, s, t, naming, ops, y);
      assert Crossed(s, t);
    } else {
      FollowerFrees(ctx, s, t, naming, ops, x, y);
    }
  }

  lemma FollowerFrees(ctx: Context, s: Snapshot, t: Target, naming: Naming, ops: seq<Operation>, x: nat, y: nat)
    requires Derives(ctx, s, t, naming, ops) && NamesApart(naming, ops)
    requires x < y < |ops| && Frees(ops[x]) && Frees(ops[y]) && SameWorkload(ops[x], ops[y])
    requires Rebound(s, t, ops[x].workload) && ops[x] == RebindOp(t, ops[x].workload)
    ensures FreedLater(naming, s, t, ops[x].workload)
  {
    hide Derivable, DerivedOps, SortedBy, HoldsRoute, OperationBefore, NamesApart, Required;
    var w := ops[x].workload;
    assert ops[y] in ops && ops[y].workload == w;
    if ops[y].kind.WorkloadSetRequirements? {
      RequirementForms(ctx, s, t, ops[y]);
    } else {
      BindingForms(ctx, s, t, ops[y]);
      EarlierIsBefore(naming, ops, x, y);
      assert ops[x] != ops[y];
    }
  }

  /** For every derived list: it is tangled in its routes if and only if target and snapshot are. */
  lemma RouteTangledIffTarget(ctx: Context, s: Snapshot, t: Target, naming: Naming, ops: seq<Operation>)
    requires Derives(ctx, s, t, naming, ops) && NamesApart(naming, ops)
    ensures RouteTangled(ops) <==> RouteTargetTangled(naming, s, t)
  {
    hide Derives, NamesApart, RouteTangle, HoldsTwo, Crossed, KeptTooEarly;
    if HoldsTwo(s, t) {
      HoldsTwoIsTangled(ctx, s, t, naming, ops);
    } else if Crossed(s, t) {
      CrossedIsTangled(ctx, s, t, naming, ops);
    } else if KeptTooEarly(naming, s, t) {
      KeptTooEarlyIsTangled(ctx, s, t, naming, ops);
    } else if x: nat, y: nat :| RouteTangle(ops, x, y) {
      TangleComesFromRoutes(ctx, s, t, naming, ops, x, y);
    }
  }

  /** The exact condition on targets: the edges derived for them form a cycle if and only if the target
      drains a device away and asks, at the same time, for something that is caught between the removal
      and the drain; or a workload holds two routes that are to be removed; or the target binds
      workloads to routes it removes in one of two ways that cannot be ordered. */
  lemma CyclicIffTargetTangled(change: Change, req: PlanRequest<Snapshot, Operation, Condition>, instant: int,
                               ops: seq<Operation>)
    requires PlansFor(req, instant, change, ops) && NamesApart(change.naming, ops)
    requires Unrepeated(ops, req.base.worldAt(instant).stepId)
    ensures var w, s := req.base.worldAt(instant), req.base.state;
      (exists t :: Trapped(OpIds(ops, w.stepId), req.dependencies(instant, ops), t))
      <==> TargetTangled(change.ctx, s, change.target) || RouteTargetTangled(change.naming, s, change.target)
  {
    hide Derives, Regular, Tangled, TargetTangled, RouteTangled, RouteTargetTangled, DerivedEdges, Trapped, NamesApart;
    var w, s := req.base.worldAt(instant), req.base.state;
    DerivedIsRegular(change.ctx, s, change.target, change.naming, ops);
    TangledIffTarget(change.ctx, s, change.target, change.naming, ops);
    RouteTangledIffTarget(change.ctx, s, change.target, change.naming, ops);
    CyclicIffTangled(s, change.contracts, change.naming, w.stepId, ops, req.dependencies(instant, ops));
  }
}
