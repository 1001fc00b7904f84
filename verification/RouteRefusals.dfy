/** Targets that remove routes and can never be planned. */
module RouteRefusals {
  import opened Wrappers
  import opened Sorting
  import opened Worlds
  import opened Kahn
  import opened Plans
  import opened Verification
  import opened Interleavings
  import opened Generate
  import opened Snapshots
  import opened Operations
  import opened Evaluate
  import D = Dependencies
  import opened Tangles
  import opened RouteTangles
  import opened Conditions
  import opened Derivation
  import opened Convergence
  import opened Networks
  import opened Executions
  import opened TangledTargets
  import opened RemovedRoutes

  /** Two routes of one workload can never be removed by one plan: each release keeps the route the
      other removal waits for. */
  lemma TwoRoutesOfAWorkloadAreRefused(change: Change, plan: Plan<Operation, Condition>,
                                       req: PlanRequest<Snapshot, Operation, Condition>, ops: seq<Operation>)
    requires PlansFor(req, plan.instant, change, ops) && HoldsTwo(req.base.state, change.target)
    ensures !Sound(plan, req)
  {
    hide Sound, HoldsTwo, RouteTangled, DerivedEdges, Trapped, SortedBy;
    var w, s := req.base.worldAt(plan.instant), req.base.state;
    var edges := req.dependencies(plan.instant, ops);
    HoldsTwoIsTangled(change.ctx, s, change.target, change.naming, ops);
    RouteTangledIsCyclic(s, change.contracts, change.naming, w.stepId, ops, edges);
    var t :| Trapped(OpIds(ops, w.stepId), edges, t);
    CyclicIsRefused(plan, req, ops, t);
  }

  /** Every sound plan has an execution, which is accepted step by step. */
  lemma SomeExecution(change: Change, plan: Plan<Operation, Condition>,
                      req: PlanRequest<Snapshot, Operation, Condition>, ops: seq<Operation>)
    returns (r: seq<StepId>, xs: seq<Operation>)
    requires Sound(plan, req) && PlansFor(req, plan.instant, change, ops)
    ensures Execution(plan, |plan.stages|, r) && Found(plan, r) && xs == Ops(ActionsOf(plan, r))
    ensures Applied(change.ctx, req.base.state, xs).Some? && NoRepeat(xs) && forall op :: op in xs <==> op in ops
  {
    hide Execution, Performs, Walks, PassUpTo, Derives, IsNetwork, DerivedEdges, StructureOk;
    var w := req.base.worldAt(plan.instant);
    StructureHasStages(plan, w.stepId);
    r := Written(plan, |plan.stages|);
    WrittenIsExecution(plan, |plan.stages|);
    ReturnedPlansAreSafe(plan, req, r);
    ExecutedOps(plan, w.stepId, r, ops);
    xs := Ops(ActionsOf(plan, r));
    RunReplays(w, req.base.state, ActionsOf(plan, r));
    ReplayIsApplied(w, change.ctx, req.base.state, xs);
  }

  /** What removes an entity for good. */
  predicate TakesAway(op: Operation, r: Ref) { op.kind in {RouteRemove, WorkloadRemove} && WriteRef(op) == r }

  predicate BringsBack(op: Operation, r: Ref) { op.kind in {RouteAdd, WorkloadAdd} && WriteRef(op) == r }

  predicate Missing(m: Snapshot, r: Ref) {
    match r
    case RouteRef(id) => id !in m.routes
    case WorkloadRef(id) => id !in m.workloads
    case _ => false
  }

  lemma MissingStep(ctx: Context, m: Snapshot, op: Operation, r: Ref)
    requires Apply(ctx, m, op).Ok? && (TakesAway(op, r) || (Missing(m, r) && !BringsBack(op, r)))
    ensures Missing(Apply(ctx, m, op).value, r)
  {
    hide Valid, ExclusionGate, WindowGate, CanonicalDevices, CanonicalLinks, CanonicalWorkload, Walk, BindingsKnown;
  }

  /** Once taken away, and not brought back, it is missing from then on. */
  lemma {:induction false} MissingAfter(ctx: Context, s: Snapshot, xs: seq<Operation>, r: Ref, i: nat)
    requires Applied(ctx, s, xs).Some? && i < |xs| && TakesAway(xs[i], r)
    requires forall op :: op in xs ==> !BringsBack(op, r)
    ensures Missing(Applied(ctx, s, xs).value, r)
  {
    hide Apply, Missing, TakesAway, BringsBack;
    var n := |xs| - 1;
    assert xs == xs[..n] + [xs[n]];
    assert xs[n] in xs;
    if i < n { MissingAfter(ctx, s, xs[..n], r, i); }
    MissingStep(ctx, Applied(ctx, s, xs[..n]).value, xs[n], r);
  }

  lemma {:induction false} AppliedAt(ctx: Context, s: Snapshot, xs: seq<Operation>, j: nat) returns (m: Snapshot)
    requires Applied(ctx, s, xs).Some? && j < |xs|
    ensures Applied(ctx, s, xs[..j]) == Some(m) && Apply(ctx, m, xs[j]).Ok?
  {
    hide Apply;
    var n := |xs| - 1;
    if j == n {
      m := Applied(ctx, s, xs[..n]).value;
    } else {
      m := AppliedAt(ctx, s, xs[..n], j);
      assert xs[..n][..j] == xs[..j];
    }
  }

  /** A change of bindings is refused where its workload is missing, or a route it binds is. */
  lemma NeedsBoth(ctx: Context, m: Snapshot, op: Operation, r: Ref)
    requires op.kind.WorkloadSetBindings? && Apply(ctx, m, op).Ok?
    requires r == WorkloadRef(op.workload) || (r.RouteRef? && BindsRoute(op.bindings, r.route))
    ensures !Missing(m, r)
  {
    hide Valid, ExclusionGate, WindowGate;
  }

  lemma NotBroughtBack(ctx: Context, s: Snapshot, t: Target, op: Operation, r: Ref)
    requires Derivable(ctx, s, t) && op in DerivedOps(ctx, s, t) && !Missing(s, r)
    ensures !BringsBack(op, r)
  {
    hide Derivable, DerivedOps, OwnOps;
    if op.kind.RouteAdd? || op.kind.WorkloadAdd? {
      OwnUnlessBindings(ctx, s, t, op);
      AddedIsNew(ctx, s, t, op);
    }
  }

  lemma AddedIsNew(ctx: Context, s: Snapshot, t: Target, op: Operation)
    requires op in OwnOps(ctx, s, t, WriteRef(op)) && op.kind in {RouteAdd, WorkloadAdd}
    ensures Missing(s, WriteRef(op))
  {
    hide HasDevice, HasPath, HasBindings;
    if op.kind.RouteAdd? { RouteAddedIsNew(ctx, s, t, op); }
  }

  lemma RouteAddedIsNew(ctx: Context, s: Snapshot, t: Target, op: Operation)
    requires op in OwnOps(ctx, s, t, RouteRef(op.route)) && op.kind.RouteAdd?
    ensures op.route !in s.routes
  {
    hide HasDevice, HasPath, Unbinding, BindsRoute;
  }

  /** Where the edges put the removal of an entity before a change of bindings that needs it, nothing is
      planned. */
  lemma NeededIsRemovedFirst(change: Change, plan: Plan<Operation, Condition>,
                             req: PlanRequest<Snapshot, Operation, Condition>, ops: seq<Operation>, r: Ref, i: nat,
                             j: nat)
    requires PlansFor(req, plan.instant, change, ops) && !Missing(req.base.state, r)
    requires Arrow(req.base.state, change.contracts, ops, i, j) && TakesAway(ops[i], r)
    requires ops[j].kind.WorkloadSetBindings?
    requires r == WorkloadRef(ops[j].workload) || (r.RouteRef? && BindsRoute(ops[j].bindings, r.route))
    ensures !Sound(plan, req)
  {
    hide Sound, D.OrderFor, TakesAway, BringsBack, Apply, DerivedEdges, Missing, IsNetwork, Derivable, DerivedOps,
      SortedBy, Execution;
    if Sound(plan, req) {
      var e, xs := SomeExecution(change, plan, req, ops);
      ExecutedInOrder(change, plan, req, ops, e, i, j);
      var a, b :| 0 <= a < b < |xs| && xs[a] == ops[i] && xs[b] == ops[j];
      var m := AppliedAt(change.ctx, req.base.state, xs, b);
      forall op | op in xs[..b] ensures !BringsBack(op, r) {
        assert op in xs;
        NotBroughtBack(change.ctx, req.base.state, change.target, op, r);
      }
      MissingAfter(change.ctx, req.base.state, xs[..b], r, a);
      NeedsBoth(change.ctx, m, xs[b], r);
    }
  }

  /** The target binds a workload to a route it removes. */
  ghost predicate BindsGone(s: Snapshot, t: Target) {
    exists workload :: Rebound(s, t, workload) && RebindingKeeps(s, t, workload) != {}
  }

  /** The target removes a workload together with a route it is bound to. */
  ghost predicate RemovesHolder(s: Snapshot, t: Target) {
    exists workload, route ::
      HoldsRoute(s, t, workload, route) && workload in t.workloads && t.workloads[workload].Remove?
  }

  lemma GoneBindingsAreRefused(change: Change, plan: Plan<Operation, Condition>,
                               req: PlanRequest<Snapshot, Operation, Condition>, ops: seq<Operation>)
    requires PlansFor(req, plan.instant, change, ops) && BindsGone(req.base.state, change.target)
    ensures !Sound(plan, req)
  {
    hide Sound, PlansFor, BindsGone, BindsRoute, Arrow, SortedBy, Derivable, DerivedOps;
    var s := req.base.state;
    DerivedForChange(change, req, plan.instant, ops);
    var route, i, j := GonePlaces(change.ctx, s, change.target, change.naming, ops);
    RemovalArrow(s, change.contracts, change.naming, ops, i, j);
    NeededIsRemovedFirst(change, plan, req, ops, RouteRef(route), i, j);
  }

  lemma DerivedForChange(change: Change, req: PlanRequest<Snapshot, Operation, Condition>, instant: int,
                         ops: seq<Operation>)
    requires PlansFor(req, instant, change, ops)
    ensures Derives(change.ctx, req.base.state, change.target, change.naming, ops)
  {
    hide Derives, DerivedEdges, IsNetwork;
  }

  lemma GonePlaces(ctx: Context, s: Snapshot, t: Target, naming: Naming, ops: seq<Operation>)
    returns (route: Id, i: nat, j: nat)
    requires Derives(ctx, s, t, naming, ops) && BindsGone(s, t)
    ensures i < |ops| && j < |ops| && ops[i] == RouteRemoveOp(route) && route in s.routes
    ensures ops[j].kind.WorkloadSetBindings? && BindsRoute(ops[j].bindings, route)
  {
    hide Derivable, DerivedOps, SortedBy, BindsRoute;
    var w :| Rebound(s, t, w) && RebindingKeeps(s, t, w) != {};
    route :| route in RebindingKeeps(s, t, w);
    RebindDerived(ctx, s, t, w);
    RemovalDerived(ctx, s, t, route);
    i := Place(ops, RouteRemoveOp(route));
    j := Place(ops, RebindOp(t, w));
  }

  lemma RemovedHoldersAreRefused(change: Change, plan: Plan<Operation, Condition>,
                                 req: PlanRequest<Snapshot, Operation, Condition>, ops: seq<Operation>)
    requires PlansFor(req, plan.instant, change, ops) && RemovesHolder(req.base.state, change.target)
    ensures !Sound(plan, req)
  {
    hide Sound, PlansFor, RemovesHolder, BindsRoute, Arrow, SortedBy, Derivable, DerivedOps;
    DerivedForChange(change, req, plan.instant, ops);
    var w, i, j := HolderPlaces(change.ctx, req.base.state, change.target, change.naming, ops);
    RemovedBeforeBound(req.base.state, change.contracts, ops, i, j);
    NeededIsRemovedFirst(change, plan, req, ops, WorkloadRef(w), i, j);
  }

  lemma HolderPlaces(ctx: Context, s: Snapshot, t: Target, naming: Naming, ops: seq<Operation>)
    returns (w: Id, i: nat, j: nat)
    requires Derives(ctx, s, t, naming, ops) && RemovesHolder(s, t)
    ensures i < j < |ops| && ops[i] == WorkloadRemoveOp(w) && w in s.workloads
    ensures ops[j].kind.WorkloadSetBindings? && ops[j].workload == w
  {
    hide Derivable, DerivedOps, SortedBy, BindsRoute;
    var route;
    w, route :| HoldsRoute(s, t, w, route) && w in t.workloads && t.workloads[w].Remove?;
    HolderRemoved(ctx, s, t, w);
    ReleaseDerived(ctx, s, t, w, route);
    i := Place(ops, WorkloadRemoveOp(w));
    j := Place(ops, ReleaseOp(s, w, route));
    LowerFirst(naming, ops, i, j);
  }

  lemma HolderRemoved(ctx: Context, s: Snapshot, t: Target, w: Id)
    requires Derivable(ctx, s, t) && w in s.workloads && w in t.workloads && t.workloads[w].Remove?
    ensures WorkloadRemoveOp(w) in DerivedOps(ctx, s, t)
  {
    assert WorkloadRef(w) in Entries(t) && WorkloadRemoveOp(w) in EntryOps(ctx, s, t, WorkloadRef(w)).value;
  }

  lemma RemovedBeforeBound(s: Snapshot, contracts: seq<D.Contract>, ops: seq<Operation>, i: nat, j: nat)
    requires i < j < |ops| && ops[i].kind.WorkloadRemove? && ops[j].kind.WorkloadSetBindings?
    requires ops[i].workload == ops[j].workload
    ensures Arrow(s, contracts, ops, i, j)
  {
    hide D.ContractConflict, D.SameDomain, D.Reads, BindsRoute;
  }
}
