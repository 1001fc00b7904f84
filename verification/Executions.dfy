/** What executions of a plan for a change of the network come to: the operations in an order that
    honours the edges, and whether the target is reached. */
module Executions {
  import opened Wrappers
  import opened Permutations
  import opened Sorting
  import opened Worlds
  import opened Kahn
  import opened Plans
  import opened Verification
  import opened Interleavings
  import opened Generate
  import opened Snapshots
  import opened Operations
  import opened Evaluate
  import opened Conditions
  import opened Derivation
  import opened Goals
  import opened Convergence
  import D = Dependencies
  import T = Tangles
  import opened Networks

  // ----- the operations of an execution -----

  lemma {:induction false} ReplayIsApplied(w: World<Snapshot, Operation, Condition>, ctx: Context, s: Snapshot,
                                           xs: seq<Operation>)
    requires IsNetwork(w, ctx)
    ensures Replay(w, s, xs) == Applied(ctx, s, xs)
  {
    hide Apply, IsNetwork;
    if xs != [] {
      var n := |xs| - 1;
      NetworkApplies(w, ctx);
      ReplayIsApplied(w, ctx, s, xs[..n]);
      assert xs == xs[..n] + [xs[n]];
      ReplayAppend(w, s, xs[..n], [xs[n]]);
      if Applied(ctx, s, xs[..n]).Some? { ReplayOne(w, Applied(ctx, s, xs[..n]).value, xs[n]); }
    }
  }

  /** A complete execution performs every step of the plan, each once. */
  lemma ExecutionCovers<O, C>(plan: Plan<O, C>, stepId: O -> StepId, r: seq<StepId>)
    requires StructureOk(plan, stepId) && Execution(plan, |plan.stages|, r)
    ensures forall i :: 0 <= i < |plan.steps| ==> plan.steps[i].id in r
    ensures forall i :: 0 <= i < |r| ==> FindStep(plan, r[i]).Some? && stepId(FindStep(plan, r[i]).value.op) == r[i]
  {
    forall i | 0 <= i < |plan.steps| ensures plan.steps[i].id in r {
      FindOwn(plan, i);
      StagedMeans(plan, |plan.stages|, plan.steps[i].id);
      assert Listed(plan, plan.steps[i]);
      assert plan.steps[i].id in Elements(r);
    }
    forall i | 0 <= i < |r| ensures FindStep(plan, r[i]).Some? && stepId(FindStep(plan, r[i]).value.op) == r[i] {
      assert r[i] in Elements(r);
      StagedMeans(plan, |plan.stages|, r[i]);
    }
  }

  lemma ExecutedAll(plan: Plan<Operation, Condition>, r: seq<StepId>, ops: seq<Operation>, q: seq<nat>, m: nat)
    requires Found(plan, r) && Distinct(Ids(plan.steps)) && PerformsInOrder(plan, ops, q) && m < |ops|
    requires forall i :: 0 <= i < |plan.steps| ==> plan.steps[i].id in r
    ensures ops[m] in Ops(ActionsOf(plan, r))
  {
    assert Identity(|ops|)[m] == m;
    assert m in Elements(Identity(|ops|)) && m in Elements(q);
    var k :| 0 <= k < |q| && q[k] == m;
    var i :| 0 <= i < |r| && r[i] == plan.steps[k].id;
    FindOwn(plan, k);
    assert Ops(ActionsOf(plan, r))[i] == ops[m];
  }

  lemma ExecutedOnly(plan: Plan<Operation, Condition>, r: seq<StepId>, ops: seq<Operation>, q: seq<nat>, i: nat)
    requires Found(plan, r) && PerformsInOrder(plan, ops, q) && i < |r|
    ensures Ops(ActionsOf(plan, r))[i] in ops
  {
    var k := IndexOf(plan.steps, r[i]);
    OrderInRange(q, |ops|);
    assert plan.steps[k].op == ops[q[k]];
  }

  /** The operations of an execution are those the plan performs, each once. */
  lemma ExecutedOps(plan: Plan<Operation, Condition>, stepId: Operation -> StepId, r: seq<StepId>, ops: seq<Operation>)
    requires StructureOk(plan, stepId) && Execution(plan, |plan.stages|, r) && Performs(plan, ops)
    ensures Found(plan, r)
    ensures var xs := Ops(ActionsOf(plan, r)); NoRepeat(xs) && forall op :: op in xs <==> op in ops
    ensures var xs := Ops(ActionsOf(plan, r)); forall i :: 0 <= i < |r| ==> stepId(xs[i]) == r[i]
  {
    hide StructureOk, Execution, PerformsInOrder, IndexOf;
    ExecutionCovers(plan, stepId, r);
    StructureDistinct(plan, stepId);
    var q :| PerformsInOrder(plan, ops, q);
    var xs := Ops(ActionsOf(plan, r));
    forall i, j | 0 <= i < j < |xs| ensures xs[i] != xs[j] {
      ExecutionDistinct(plan, r, i, j);
      assert stepId(xs[i]) == r[i] && stepId(xs[j]) == r[j];
    }
    forall i | 0 <= i < |xs| ensures xs[i] in ops { ExecutedOnly(plan, r, ops, q, i); }
    forall m | 0 <= m < |ops| ensures ops[m] in xs { ExecutedAll(plan, r, ops, q, m); }
  }

  lemma ExecutionDistinct<O, C>(plan: Plan<O, C>, r: seq<StepId>, i: nat, j: nat)
    requires Execution(plan, |plan.stages|, r) && i < j < |r|
    ensures r[i] != r[j]
  {
  }

  lemma StructureDistinct<O, C>(plan: Plan<O, C>, stepId: O -> StepId)
    requires StructureOk(plan, stepId)
    ensures Distinct(Ids(plan.steps))
  {
  }

  // ----- in the order of the edges -----

  /** One operation is performed before the other. */
  ghost predicate Precedes(xs: seq<Operation>, a: Operation, b: Operation) {
    exists i, j :: 0 <= i < j < |xs| && xs[i] == a && xs[j] == b
  }

  /** What an edge orders comes in that order in every execution. */
  lemma ExecutedInOrder(change: Change, plan: Plan<Operation, Condition>,
                        req: PlanRequest<Snapshot, Operation, Condition>, ops: seq<Operation>, r: seq<StepId>, i: nat,
                        j: nat)
    requires Sound(plan, req) && PlansFor(req, plan.instant, change, ops) && Execution(plan, |plan.stages|, r)
    requires T.Arrow(req.base.state, change.contracts, ops, i, j)
    ensures Found(plan, r) && Precedes(Ops(ActionsOf(plan, r)), ops[i], ops[j])
  {
    hide Walks, PassUpTo, Execution, StructureOk, Derives, IsNetwork, T.Arrow;
    var w := req.base.worldAt(plan.instant);
    T.EdgeOfArrow(req.base.state, change.contracts, w.stepId, ops, req.dependencies(plan.instant, ops), i, j);
    var e := Edge(w.stepId(ops[i]), w.stepId(ops[j]));
    ReturnedPlansAreSafe(plan, req, r);
    ExecutedOps(plan, w.stepId, r, ops);
    var xs := Ops(ActionsOf(plan, r));
    PerformsSomething(plan, ops);
    assert e in plan.edges;
    var a, b :| 0 <= a < b < |r| && r[a] == e.from && r[b] == e.to;
    PlaceOf(plan, w.stepId, r, xs, ops[i], a);
    PlaceOf(plan, w.stepId, r, xs, ops[j], b);
  }

  lemma PerformsSomething<O, C>(plan: Plan<O, C>, ops: seq<O>)
    requires Performs(plan, ops) && ops != []
    ensures plan.steps != []
  {
  }

  /** The operation stands where its identity does. */
  lemma PlaceOf(plan: Plan<Operation, Condition>, stepId: Operation -> StepId, r: seq<StepId>, xs: seq<Operation>,
                op: Operation, a: nat)
    requires Execution(plan, |plan.stages|, r) && |xs| == |r| && forall i :: 0 <= i < |r| ==> stepId(xs[i]) == r[i]
    requires op in xs && a < |r| && r[a] == stepId(op)
    ensures xs[a] == op
  {
    hide Execution;
    var k: nat :| k < |xs| && xs[k] == op;
    if k < a { ExecutionDistinct(plan, r, k, a); }
    if a < k { ExecutionDistinct(plan, r, a, k); }
  }

  // ----- the bindings an execution ends with -----

  predicate Binds(op: Operation, workload: Id) { op.kind.WorkloadSetBindings? && op.workload == workload }

  lemma {:induction false} LastIs(xs: seq<Operation>, workload: Id, k: nat)
    requires k < |xs| && Binds(xs[k], workload) && forall j :: k < j < |xs| ==> !Binds(xs[j], workload)
    ensures LastBindings(xs, workload) == Some(xs[k].bindings)
  {
    var n := |xs| - 1;
    if k < n {
      assert !Binds(xs[n], workload);
      assert forall j :: k < j < n ==> xs[..n][j] == xs[j];
      LastIs(xs[..n], workload, k);
    }
  }

  lemma {:induction false} LastThere(xs: seq<Operation>, workload: Id) returns (k: nat)
    requires exists op :: op in xs && Binds(op, workload)
    ensures k < |xs| && Binds(xs[k], workload) && forall j :: k < j < |xs| ==> !Binds(xs[j], workload)
  {
    var n := |xs| - 1;
    assert xs == xs[..n] + [xs[n]];
    if Binds(xs[n], workload) {
      k := n;
    } else {
      k := LastThere(xs[..n], workload);
      forall j | k < j < |xs| ensures !Binds(xs[j], workload) { if j < n { assert xs[..n][j] == xs[j]; } }
    }
  }

  lemma NothingBehindLast(xs: seq<Operation>, workload: Id, m: nat, op: Operation)
    requires NoRepeat(xs) && m < |xs| && forall j :: m < j < |xs| ==> !Binds(xs[j], workload)
    requires Binds(op, workload)
    ensures !Precedes(xs, xs[m], op)
  {
  }

  lemma {:induction false} NoneIsLast(xs: seq<Operation>, workload: Id)
    requires forall op :: op in xs ==> !Binds(op, workload)
    ensures LastBindings(xs, workload) == None
  {
    if xs != [] {
      var n := |xs| - 1;
      assert xs[n] in xs;
      NoneIsLast(xs[..n], workload);
    }
  }

  /** Changes of the bindings of one workload are ordered as they are listed. */
  lemma BindingsInListOrder(s: Snapshot, contracts: seq<D.Contract>, ops: seq<Operation>, workload: Id, i: nat, j: nat)
    requires i < j < |ops| && Binds(ops[i], workload) && Binds(ops[j], workload)
    ensures T.Arrow(s, contracts, ops, i, j)
  {
    hide D.ContractConflict, D.SameDomain, D.Reads, BindsRoute;
  }

  lemma LastIsNotOvertaken(change: Change, plan: Plan<Operation, Condition>,
                           req: PlanRequest<Snapshot, Operation, Condition>, ops: seq<Operation>, r: seq<StepId>,
                           workload: Id, n: nat, k: nat, m: nat)
    requires Sound(plan, req) && PlansFor(req, plan.instant, change, ops) && Execution(plan, |plan.stages|, r)
    requires n < |ops| && k < |ops| && Binds(ops[n], workload) && Binds(ops[k], workload)
    requires Found(plan, r)
    requires var xs := Ops(ActionsOf(plan, r));
      NoRepeat(xs) && m < |xs| && xs[m] == ops[n] && forall j :: m < j < |xs| ==> !Binds(xs[j], workload)
    ensures k <= n
  {
    hide Sound, PlansFor, Execution, T.Arrow, Binds, ActionsOf, Ops, Found, Precedes;
    if n < k {
      BindingsInListOrder(req.base.state, change.contracts, ops, workload, n, k);
      NothingBehindLast(Ops(ActionsOf(plan, r)), workload, m, ops[k]);
      ExecutedInOrder(change, plan, req, ops, r, n, k);
    }
  }

  lemma ExecutesAll(change: Change, plan: Plan<Operation, Condition>,
                    req: PlanRequest<Snapshot, Operation, Condition>, ops: seq<Operation>, r: seq<StepId>)
    requires Sound(plan, req) && PlansFor(req, plan.instant, change, ops) && Execution(plan, |plan.stages|, r)
    ensures Found(plan, r)
    ensures var xs := Ops(ActionsOf(plan, r)); NoRepeat(xs) && forall op :: op in xs <==> op in ops
  {
    hide Verified, Walks, Performs, Execution, Derivable, DerivedOps, IsNetwork, T.DerivedEdges, SortedBy;
    ReturnedPlansAreSafe(plan, req, r);
    SoundStructure(plan, req);
    ExecutedOps(plan, req.base.worldAt(plan.instant).stepId, r, ops);
  }

  lemma SameLastBindings(change: Change, plan: Plan<Operation, Condition>,
                         req: PlanRequest<Snapshot, Operation, Condition>, ops: seq<Operation>, r: seq<StepId>,
                         workload: Id)
    requires Sound(plan, req) && PlansFor(req, plan.instant, change, ops) && Execution(plan, |plan.stages|, r)
    ensures Found(plan, r) && LastBindings(Ops(ActionsOf(plan, r)), workload) == LastBindings(ops, workload)
  {
    hide Sound, PlansFor, Execution, Binds, LastBindings, ActionsOf, Ops, Found, T.Arrow;
    ExecutesAll(change, plan, req, ops, r);
    var xs := Ops(ActionsOf(plan, r));
    if exists op :: op in ops && Binds(op, workload) {
      var k := LastThere(ops, workload);
      var m := LastThere(xs, workload);
      assert xs[m] in ops && ops[k] in xs;
      var n: nat :| n < |ops| && ops[n] == xs[m];
      LastIsNotOvertaken(change, plan, req, ops, r, workload, n, k, m);
      LastIs(ops, workload, k);
      LastIs(xs, workload, m);
    } else {
      NoneIsLast(ops, workload);
      NoneIsLast(xs, workload);
    }
  }

  lemma SoundStructure<S, O, C>(plan: Plan<O, C>, req: PlanRequest<S, O, C>)
    requires Sound(plan, req)
    ensures StructureOk(plan, req.base.worldAt(plan.instant).stepId) && Performs(plan, req.derive(plan.instant).value)
  {
  }

  /** Whatever order a runtime chooses inside the stages of a returned plan, it ends with
      everything as the target asks for, if and only if the target can be reached and the last change of
      the bindings of every workload ensured, in canonical order, asks for the wanted ones. */
  lemma PlansReachTheirTarget(change: Change, plan: Plan<Operation, Condition>,
                              req: PlanRequest<Snapshot, Operation, Condition>, ops: seq<Operation>, r: seq<StepId>)
    returns (u: Snapshot)
    requires Sound(plan, req) && PlansFor(req, plan.instant, change, ops)
    requires Canonical(req.base.state) == req.base.state && Plain(change.target)
    requires Execution(plan, |plan.stages|, r)
    ensures Found(plan, r) && Run(req.base.worldAt(plan.instant), req.base.state, ActionsOf(plan, r)) == Some(u)
    ensures Meets(u, change.target) <==>
      Reachable(req.base.state, change.target) && BindingsSettle(req.base.state, change.target, ops)
  {
    hide IsNetwork, Plain, Reachable, Canonical, Walks, Performs, StructureOk, Execution, PassUpTo, EntryOps, Entries,
      SortedBy, T.DerivedEdges, Applied, FinalBindings, Meets;
    var w, s := req.base.worldAt(plan.instant), req.base.state;
    ReturnedPlansAreSafe(plan, req, r);
    ExecutedOps(plan, w.stepId, r, ops);
    var acts := ActionsOf(plan, r);
    u := Run(w, s, acts).value;
    RunReplays(w, s, acts);
    ReplayIsApplied(w, change.ctx, s, Ops(acts));
    ConvergesIffReachable(change.ctx, s, change.target, Ops(acts), u);
    forall id
      ensures BindingsSettleFor(s, change.target, Ops(acts), id) <==> BindingsSettleFor(s, change.target, ops, id)
    {
      SameLastBindings(change, plan, req, ops, r, id);
      SameFinalBindings(s, Ops(acts), ops, id);
    }
  }

  lemma SameFinalBindings(s: Snapshot, xs: seq<Operation>, ys: seq<Operation>, id: Id)
    requires LastBindings(xs, id) == LastBindings(ys, id)
    ensures id in s.workloads ==> FinalBindings(s, xs, id) == FinalBindings(s, ys, id)
  {
  }
}
