/** Planning a change of the network from end to end: derivation, dependencies, window shift,
    scheduling and verification put together, and what comes of it. */
module PlannedChanges {
  import opened Wrappers
  import opened Worlds
  import opened Kahn
  import opened Plans
  import opened Verification
  import opened Interleavings
  import opened Search
  import opened Schedule
  import opened ScheduleProperties
  import opened Generate
  import opened Planner
  import opened Snapshots
  import opened Operations
  import opened Evaluate
  import D = Dependencies
  import T = Tangles
  import opened Commutation
  import opened Conditions
  import opened DerivedSchedules
  import opened Derivation
  import opened Goals
  import opened Convergence
  import opened Networks
  import opened Executions
  import opened TangledTargets
  import opened RemovedRoutes
  import opened RouteRefusals
  import opened Rebindings
  import opened Windows

  // ----- the network keeps to its side -----

  lemma AlwaysConditions(ctx: Context, s: Snapshot, op: Operation)
    ensures Preconditions(s, op) != [] && Postconditions(op) != []
  {
  }

  /** Derived operations and edges never make a candidate malformed. */
  lemma ChangesAreWellPosed(change: Change, req: PlanRequest<Snapshot, Operation, Condition>, instant: int,
                            ops: seq<Operation>)
    requires PlansFor(req, instant, change, ops)
    ensures WellPosed(req, instant)
  {
    hide Derives, Preconditions, Postconditions, T.Arrow;
    var w := req.base.worldAt(instant);
    forall i | 0 <= i < |ops| ensures w.stepId(ops[i]) != 0 { assert ops[i] in ops; }
    forall e | e in EdgesOf(req, instant) ensures NamesTwo(ops, w.stepId, e) {
      EdgeNamesTwo(change, req, instant, ops, e);
    }
    forall i, s: Snapshot | 0 <= i < |ops| ensures HasConditions(w, s, ops[i]) {
      AlwaysConditions(change.ctx, s, ops[i]);
    }
  }

  lemma EdgeNamesTwo(change: Change, req: PlanRequest<Snapshot, Operation, Condition>, instant: int,
                     ops: seq<Operation>, e: Edge)
    requires PlansFor(req, instant, change, ops) && e in EdgesOf(req, instant)
    ensures NamesTwo(ops, req.base.worldAt(instant).stepId, e)
  {
    hide Derives, IsNetwork, D.OrderFor;
    assert T.FromArrow(req.base.state, change.contracts, req.base.worldAt(instant).stepId, ops, e);
  }

  /** Every candidate has all derived pairs recorded as linked. */
  lemma CandidateCovers(change: Change, req: PlanRequest<Snapshot, Operation, Condition>, instant: int,
                        ops: seq<Operation>, nodes: seq<Node<Operation>>, linked: set<(StepId, StepId)>,
                        t: Timetable<Snapshot, Operation, Condition>, plan: Plan<Operation, Condition>)
    requires PlansFor(req, instant, change, ops) && IsCandidate(req, instant, nodes, linked, t, plan)
    ensures Covers(req.base.state, change.contracts, nodes, linked)
    ensures NodesMatch(nodes, plan.edges, linked, req.base.worldAt(instant).stepId)
    ensures |plan.stages| == |t.batches|
    ensures Applies(req.base.worldAt(instant), change.ctx)
  {
    hide Derives, IsNetwork, T.Arrow, WellPosed, PlansFor, D.Linked;
    var w := req.base.worldAt(instant);
    ChangesAreWellPosed(change, req, instant, ops);
    assert IsNetwork(w, change.ctx) && req.derive(instant) == Some(ops) by { PlansForMeans(change, req, instant, ops); }
    CandidateMatches(req, instant, nodes, linked, t, plan);
    NetworkApplies(w, change.ctx);
    if ops != [] {
      PlansForMeans(change, req, instant, ops);
      DerivationCovers(req.base.state, change.contracts, w.stepId, ops, plan.edges, nodes, linked);
    }
  }

  lemma PlansForMeans(change: Change, req: PlanRequest<Snapshot, Operation, Condition>, instant: int,
                      ops: seq<Operation>)
    requires PlansFor(req, instant, change, ops)
    ensures IsNetwork(req.base.worldAt(instant), change.ctx) && req.derive(instant) == Some(ops)
    ensures T.DerivedEdges(req.base.state, change.contracts, req.base.worldAt(instant).stepId, ops,
                           req.dependencies(instant, ops))
  {
  }

  /** With derived edges, no candidate of any strategy is ever found to depend on the order inside
      a stage. */
  lemma OrderNeverMattersToChanges(change: Change, req: PlanRequest<Snapshot, Operation, Condition>, instant: int,
                                   ops: seq<Operation>)
    requires PlansFor(req, instant, change, ops)
    ensures req.derive(instant).Some? && OrderNeverMatters(req, instant)
  {
    hide PlansFor, IsCandidate, Diverges, Covers, NodesMatch, Applies, StageOk;
    PlansForMeans(change, req, instant, ops);
    var w := req.base.worldAt(instant);
    forall nodes, linked, t, plan, k: Option<nat>, entry | IsCandidate(req, instant, nodes, linked, t, plan)
      ensures !OrderDependence(w, plan, k, entry)
    {
      if k.Some? && k.value < |plan.stages| && StageOk(plan, k.value) {
        CandidateCovers(change, req, instant, ops, nodes, linked, t, plan);
        CandidateIsFinished(req, instant, nodes, linked, t, plan);
        StagesNeverDiverge(Task(w, nodes, linked, req.limits.maxStageWidth, req.base.state), t, plan.edges, plan,
                           change.ctx, req.base.state, change.contracts, k.value, entry);
      }
    }
  }

  lemma CandidateIsFinished<S, O, C>(req: PlanRequest<S, O, C>, instant: int, nodes: seq<Node<O>>,
                                     linked: set<(StepId, StepId)>, t: Timetable<S, O, C>, plan: Plan<O, C>)
    requires req.derive(instant).Some? && IsCandidate(req, instant, nodes, linked, t, plan)
    ensures Finished(Task(req.base.worldAt(instant), nodes, linked, req.limits.maxStageWidth, req.base.state), t)
    ensures Carries(plan, t)
  {
  }

  /** The state an accepted candidate ends in, which every execution of it ends in, is the state
      the search reached, step by step, in its linear order. */
  lemma CandidatesEndWhereTheSearchDid(change: Change, req: PlanRequest<Snapshot, Operation, Condition>, instant: int,
                                       ops: seq<Operation>, nodes: seq<Node<Operation>>, linked: set<(StepId, StepId)>,
                                       t: Timetable<Snapshot, Operation, Condition>, plan: Plan<Operation, Condition>)
    requires PlansFor(req, instant, change, ops) && IsCandidate(req, instant, nodes, linked, t, plan)
    requires Verified(plan, req.base, true) && InRange(nodes, Concat(t.batches))
    requires Follow(req.base.worldAt(instant), nodes, req.base.state, Concat(t.batches)).Some?
    ensures var w, s := req.base.worldAt(instant), req.base.state;
      StagesOk(plan) && CanonicalState(w, plan, s, |plan.stages|) == Follow(w, nodes, s, Concat(t.batches))
  {
    hide PlansFor, Covers, NodesMatch, Applies, StageOk, Finished, Follow, StructureOk, CanonicalState;
    PlansForMeans(change, req, instant, ops);
    var w := req.base.worldAt(instant);
    CandidateCovers(change, req, instant, ops, nodes, linked, t, plan);
    StructureHasStages(plan, w.stepId);
    PassedState(w, plan, req.base.state);
    PlanFinalState(Task(w, nodes, linked, req.limits.maxStageWidth, req.base.state), t, plan.edges, plan, change.ctx,
                   req.base.state, change.contracts);
  }

  lemma PassedState<S, O, C>(w: World<S, O, C>, plan: Plan<O, C>, s: S)
    requires StagesOk(plan) && PassUpTo(w, plan, s, |plan.stages|, true)
    ensures CanonicalState(w, plan, s, |plan.stages|).Some?
  {
    if |plan.stages| > 0 { assert StagePasses(w, plan, s, |plan.stages| - 1, true); }
  }

  // ----- planning a change -----

  /** The change as it is evaluated at an instant. */
  function AtInstant(change: Change, instant: int): Change { change.(ctx := change.ctx.(instant := instant)) }

  function NetworkAt(ctx: Context, violated: (int, Snapshot) -> bool, stepId: Operation -> StepId)
    : int -> World<Snapshot, Operation, Condition>
  {
    instant => NetworkWorld(ctx.(instant := instant), s => violated(instant, s), stepId)
  }

  lemma EntriesTimeless(ctx: Context, instant: int, s: Snapshot, t: Target, r: Ref)
    ensures EntryOps(ctx.(instant := instant), s, t, r) == EntryOps(ctx, s, t, r)
  {
    hide LinkEntry, RouteEntry, WorkloadEntry, PolicyEntry, ConfigEntry;
  }

  /** Derivation does not depend on the instant. */
  lemma DerivationTimeless(change: Change, instant: int, s: Snapshot, ops: seq<Operation>)
    requires Derives(change.ctx, s, change.target, change.naming, ops)
    ensures Derives(AtInstant(change, instant).ctx, s, change.target, change.naming, ops)
  {
    hide EntryOps, Entries;
    var ctx, t := change.ctx, change.target;
    forall r ensures EntryOps(ctx.(instant := instant), s, t, r) == EntryOps(ctx, s, t, r) {
      EntriesTimeless(ctx, instant, s, t, r);
    }
    assert DerivedOps(ctx.(instant := instant), s, t) == DerivedOps(ctx, s, t);
  }

  /** What no plan is ever returned for: a new route, a removal that no drain is derived for, a device
      drained away while something is caught between, two removed routes of one workload, a binding to
      a removed route, or the removal of a workload together with a route it is bound to. */
  ghost predicate Unplannable(ctx: Context, s: Snapshot, t: Target) {
    || (exists id :: id in t.routes && t.routes[id].Ensure? && id !in s.routes)
    || (exists id :: StrandedRemoval(ctx, s, t, id))
    || TargetTangled(ctx, s, t)
    || HoldsTwo(s, t) || BindsGone(s, t) || RemovesHolder(s, t)
  }

  predicate StrandedRemoval(ctx: Context, s: Snapshot, t: Target, id: Id) {
    && Removes(s, t, id) && s.devices[id].spec.state !in {Draining, InMaintenance}
    && !(ctx.drainFirst && s.devices[id].spec.state == Present)
  }

  lemma UnplannableIsRefused(change: Change, plan: Plan<Operation, Condition>,
                             req: PlanRequest<Snapshot, Operation, Condition>, ops: seq<Operation>)
    requires PlansFor(req, plan.instant, change, ops) && Unplannable(change.ctx, req.base.state, change.target)
    ensures !Sound(plan, req)
  {
    hide PlansFor, Sound, TargetTangled, HoldsTwo, BindsGone, RemovesHolder;
    var ctx, s, t := change.ctx, req.base.state, change.target;
    if id :| id in t.routes && t.routes[id].Ensure? && id !in s.routes {
      NewRoutesAreRefused(change, plan, req, ops, id);
    } else if id :| StrandedRemoval(ctx, s, t, id) {
      UndrainedRemovalsAreRefused(change, plan, req, ops, id);
    } else if TargetTangled(ctx, s, t) {
      TangledTargetsAreRefused(change, plan, req, ops);
    } else if HoldsTwo(s, t) {
      TwoRoutesOfAWorkloadAreRefused(change, plan, req, ops);
    } else if BindsGone(s, t) {
      GoneBindingsAreRefused(change, plan, req, ops);
    } else {
      RemovedHoldersAreRefused(change, plan, req, ops);
    }
  }

  /** The execution is safe throughout and ends with everything as the target asks for. */
  ghost predicate Reaches(change: Change, req: PlanRequest<Snapshot, Operation, Condition>,
                          plan: Plan<Operation, Condition>, r: seq<StepId>) {
    Found(plan, r) &&
    match Run(req.base.worldAt(plan.instant), req.base.state, ActionsOf(plan, r))
    case None => false
    case Some(u) => Meets(u, change.target)
  }

  /** Plans a change.  A plan that comes back is sound for the operations derived from the target and
      the edges between them, at the first permitted instant if a shift is allowed; every execution
      of it reaches a target that can be reached, unless a change of bindings is listed before the
      release it should undo.  No plan comes back for an unplannable target.
      Candidates set aside by verification are never malformed and never order dependent. */
  method PlanChange(given: PlanRequest<Snapshot, Operation, Condition>, change: Change,
                    violated: (int, Snapshot) -> bool, stepId: Operation -> StepId, stop: nat -> bool,
                    digest: Plan<Operation, Condition> -> nat)
    returns (r: Result<Plan<Operation, Condition>, Refusal>, rejected: seq<Rejection>,
             posed: PlanRequest<Snapshot, Operation, Condition>, ops: seq<Operation>,
             ghost made: Record<Snapshot, Operation, Condition>)
    requires given.valid ==> 0 < given.limits.maxStageWidth && given.id != 0 && BindingOk(given.base.binding)
    requires forall op :: stepId(op) != 0
    ensures posed.base == given.base.(worldAt := NetworkAt(change.ctx, violated, stepId))
    ensures r.Ok? ==> Sound(r.value, posed) && PlansFor(posed, r.value.instant, AtInstant(change, r.value.instant), ops)
    ensures r.Ok? && given.allowShift ==>
      && given.base.instant <= r.value.instant && Permitted(given.base.state, ops, r.value.instant)
      && forall j :: given.base.instant <= j < r.value.instant ==> !Permitted(given.base.state, ops, j)
    ensures r.Ok? && Canonical(given.base.state) == given.base.state && Plain(change.target) ==>
      forall e :: Execution(r.value, |r.value.stages|, e) ==>
        (Reaches(AtInstant(change, r.value.instant), posed, r.value, e)
         <==> Reachable(given.base.state, change.target) && BindingsSettle(given.base.state, change.target, ops))
    ensures var s := given.base.state;
      r.Ok? && Canonical(s) == s && Plain(change.target) && NamesApart(change.naming, ops) ==>
        (BindingsSettle(s, change.target, ops) <==> RebindsLast(change.naming, s, change.target))
    ensures Unplannable(change.ctx, given.base.state, change.target) ==> r.Err?
    ensures Concluded(posed, r, rejected, made)
    ensures posed.strategies == given.strategies && posed.maxCandidates == given.maxCandidates
    ensures r.Ok? ==> ops == [] || (posed.derive(r.value.instant).Some? && SomeSearchSucceeds(posed, r.value.instant))
    ensures forall i :: 0 <= i < |rejected| && rejected[i].NotVerified? ==>
      rejected[i].report.failingStage.Some? && rejected[i].report.fault != Some(OrderDependent)
  {
    hide Sound, PlansFor, Derives, Permitted, T.DerivedEdges, Unplannable, Plain, Reachable, BindingsSettle, Canonical,
      Reaches, Execution, WellPosed, OrderNeverMatters, NetworkAt, Found, Run, ActionsOf, RebindsLast, NamesApart,
      SomeSearchSucceeds, Concluded;
    var s := given.base.state;
    var derived := DeriveOperations(change.ctx, s, change.target, change.naming);
    var found: seq<D.Dependency>, shifted: Option<int> := [], None;
    ops := [];
    if derived.Some? {
      ops := derived.value;
      found := D.DeriveDependencies(s, change.contracts, stepId, ops);
      T.DerivationGivesEdges(s, change.contracts, stepId, ops, found);
      shifted := ShiftInstant(s, ops, given.base.instant);
    }
    var edges := T.EdgesAlone(found);
    posed := given.(base := given.base.(worldAt := NetworkAt(change.ctx, violated, stepId)),
                    derive := _ => derived, dependencies := (_, _) => edges, shift := _ => shifted);
    if derived.Some? { Poses(change, violated, stepId, posed, ChosenInstant(posed), ops); }
    r, rejected, made := GeneratePlan(posed, stop, digest);
    if r.Ok? {
      var plan, here := r.value, AtInstant(change, r.value.instant);
      assert derived.Some? by { SoundDerives(plan, posed); }
      if Unplannable(change.ctx, s, change.target) {
        UnplannableTimeless(change, plan.instant, s);
        UnplannableIsRefused(here, plan, posed, ops);
      }
      if Canonical(s) == s && Plain(change.target) {
        SettlesIffRebindsLast(change.ctx, s, change.target, change.naming, ops);
        forall e | Execution(plan, |plan.stages|, e)
          ensures Reaches(here, posed, plan, e) <==>
            Reachable(s, change.target) && BindingsSettle(s, change.target, ops)
        {
          PlanReaches(here, plan, posed, ops, e);
        }
      }
    }
  }

  lemma SoundDerives<S, O, C>(plan: Plan<O, C>, req: PlanRequest<S, O, C>)
    requires Sound(plan, req)
    ensures req.derive(plan.instant).Some?
  {
  }

  lemma PlanReaches(change: Change, plan: Plan<Operation, Condition>, req: PlanRequest<Snapshot, Operation, Condition>,
                    ops: seq<Operation>, r: seq<StepId>)
    requires Sound(plan, req) && PlansFor(req, plan.instant, change, ops)
    requires Canonical(req.base.state) == req.base.state && Plain(change.target)
    requires Execution(plan, |plan.stages|, r)
    ensures Reaches(change, req, plan, r)
      <==> Reachable(req.base.state, change.target) && BindingsSettle(req.base.state, change.target, ops)
  {
    hide Sound, PlansFor, Canonical, Plain, Reachable, BindingsSettle, Execution, Found, Run, ActionsOf, DerivedOps;
    var u := PlansReachTheirTarget(change, plan, req, ops, r);
  }

  lemma UnplannableTimeless(change: Change, instant: int, s: Snapshot)
    requires Unplannable(change.ctx, s, change.target)
    ensures Unplannable(AtInstant(change, instant).ctx, s, change.target)
  {
    hide Removes, LinkEntry, ConfigEntry, HoldsTwo, BindsGone, RemovesHolder;
    var ctx, t := change.ctx, change.target;
    var here := AtInstant(change, instant).ctx;
    if id :| StrandedRemoval(ctx, s, t, id) { assert StrandedRemoval(here, s, t, id); }
    if device, r :| DrainedAway(ctx, s, t, device) && r in Entries(t) && Caught(ctx, s, t, r, device) {
      assert DrainedAway(here, s, t, device) && Caught(here, s, t, r, device);
    }
  }

  /** What the methods of the components return makes a request for the change. */
  lemma Poses(change: Change, violated: (int, Snapshot) -> bool, stepId: Operation -> StepId,
              req: PlanRequest<Snapshot, Operation, Condition>, instant: int, ops: seq<Operation>)
    requires req.base.worldAt == NetworkAt(change.ctx, violated, stepId) && forall op :: stepId(op) != 0
    requires req.derive(instant) == Some(ops)
    requires Derives(change.ctx, req.base.state, change.target, change.naming, ops)
    requires T.DerivedEdges(req.base.state, change.contracts, stepId, ops, req.dependencies(instant, ops))
    ensures PlansFor(req, instant, AtInstant(change, instant), ops)
    ensures WellPosed(req, instant) && OrderNeverMatters(req, instant)
  {
    hide Derives, T.DerivedEdges, WellPosed, OrderNeverMatters;
    DerivationTimeless(change, instant, req.base.state, ops);
    var w := req.base.worldAt(instant);
    assert w.stepId == stepId;
    assert IsNetwork(w, AtInstant(change, instant).ctx);
    ChangesAreWellPosed(AtInstant(change, instant), req, instant, ops);
    OrderNeverMattersToChanges(AtInstant(change, instant), req, instant, ops);
  }
}
