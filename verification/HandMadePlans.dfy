/** A plan for a change of the network, put together by hand, that verification accepts although one
    of its executions is unsafe. */
module HandMadePlans {
  import opened Wrappers
  import opened Worlds
  import opened Plans
  import opened Verification
  import opened Interleavings
  import opened Search
  import opened Snapshots
  import opened Operations
  import opened Evaluate
  import opened Conditions
  import opened Networks
  import opened Strategies

  /** An operation with the conditions planning derives for it before the first step. */
  function Derived(s: Snapshot, op: Operation): Action<Operation, Condition> {
    Action(op, Preconditions(s, op), Postconditions(op))
  }

  function Moving(): Action<Operation, Condition> { Derived(TwoLinks(), RerouteOps()[1]) }

  function Removing(): Action<Operation, Condition> { Derived(TwoLinks(), RerouteOps()[0]) }

  lemma PathNow(ctx: Context)
    ensures AllTrue(ctx, AfterMove(), Postconditions(RerouteOps()[1]))
    ensures AllTrue(ctx, AfterBoth(), Postconditions(RerouteOps()[0]))
  {
    hide Walk;
    RouteWalks(AfterMove().links, 2);
  }

  lemma RemovalStillReady(ctx: Context)
    ensures AllTrue(ctx, AfterMove(), Removing().pre)
  {
  }

  /** Moving first and removing then is safe. */
  lemma MovingFirst(w: World<Snapshot, Operation, Condition>, ctx: Context)
    requires IsNetwork(w, ctx) && forall s :: !w.violated(s)
    ensures Run(w, TwoLinks(), [Moving(), Removing()]) == Some(AfterBoth())
  {
    hide Preconditions, Postconditions, Try, TwoLinks, AfterMove, AfterBoth, RerouteOps, Apply, Holds;
    BothTried(w, ctx);
    PathNow(ctx);
    MoveReady(ctx);
    RemovalStillReady(ctx);
    TriedIsSafe(w, ctx, TwoLinks(), Moving(), AfterMove());
    TriedIsSafe(w, ctx, AfterMove(), Removing(), AfterBoth());
    assert [Moving(), Removing()][1..] == [Removing()] && [Removing()][1..] == [];
    assert Run(w, AfterMove(), [Removing()]) == Some(AfterBoth());
  }

  lemma TriedIsSafe(w: World<Snapshot, Operation, Condition>, ctx: Context, s: Snapshot,
                    a: Action<Operation, Condition>, t: Snapshot)
    requires IsNetwork(w, ctx) && AllTrue(ctx, s, a.pre) && Try(w, s, a.op) == Some(t)
    requires AllTrue(ctx, t, a.post)
    ensures SafeStep(w, s, a) == Some(t)
  {
    hide Preconditions, Apply, Holds;
  }

  /** Removing first leaves the route that runs over the link where it is. */
  lemma RemovingFirst(w: World<Snapshot, Operation, Condition>, ctx: Context)
    requires IsNetwork(w, ctx)
    ensures Run(w, TwoLinks(), [Removing(), Moving()]) == None
  {
    hide Preconditions, Postconditions, Apply, Holds, TwoLinks, RerouteOps;
    assert [Removing(), Moving()][1..] == [Moving()];
    if SafeStep(w, TwoLinks(), Removing()).Some? {
      var m := SafeStep(w, TwoLinks(), Removing()).value;
      RemovalHolds(ctx, m);
      assert !AllHold(w, m, Moving().pre);
    }
  }

  lemma RemovalHolds(ctx: Context, m: Snapshot)
    requires Apply(ctx, TwoLinks(), RerouteOps()[0]) == Ok(m)
    ensures !AllTrue(ctx, m, Preconditions(TwoLinks(), RerouteOps()[1]))
  {
    hide Preconditions, Apply, Holds;
    RemovedLink(ctx, TwoLinks(), RerouteOps()[0], m);
    assert 1 in TwoLinks().routes[1].spec.path;
    GoneLinkHoldsRoute(ctx, TwoLinks(), m, 1, RerouteOps()[1]);
  }

  /** One stage that lists the removal of a link and the change of the path of the route over it, the
      second before the first: verification accepts it, and an execution of it is unsafe. */
  lemma RerouteEscapes(id: nat, request: Request<Snapshot, Operation, Condition>, ctx: Context)
    requires var w := request.worldAt(request.instant);
      && IsNetwork(w, ctx) && (forall s :: !w.violated(s))
      && 0 < w.stepId(RerouteOps()[1]) < w.stepId(RerouteOps()[0])
    requires request.state == TwoLinks() && HeaderOk(Backwards(id, request, Moving(), Removing()))
    ensures var w, plan := request.worldAt(request.instant), Backwards(id, request, Moving(), Removing());
      && Verified(plan, request, true)
      && Execution(plan, 1, plan.stages[0].steps) && Found(plan, plan.stages[0].steps)
      && Run(w, request.state, ActionsOf(plan, plan.stages[0].steps)) == None
  {
    hide Verified, Execution, Run, TwoLinks, RerouteOps;
    var w := request.worldAt(request.instant);
    AlwaysAsked(RerouteOps()[0]);
    AlwaysAsked(RerouteOps()[1]);
    DescendingListEscapes(id, request, Moving(), Removing());
    MovingFirst(w, ctx);
    RemovingFirst(w, ctx);
  }

  lemma AlwaysAsked(op: Operation)
    ensures Preconditions(TwoLinks(), op) != [] && Postconditions(op) != []
  {
  }
}
