/** Schedules built from derived dependencies: their stages are order free, so the scheduler's
    final state is the replay of the linear order and verification never blames the order. */
module DerivedSchedules {
  import opened Wrappers
  import opened Permutations
  import opened Worlds
  import opened Kahn
  import opened Plans
  import opened Verification
  import opened Search
  import opened Schedule
  import opened ScheduleProperties
  import opened Snapshots
  import opened Operations
  import opened Evaluate
  import D = Dependencies
  import T = Tangles
  import opened Commutation

  /** Every pair the derivation links is recorded as linked, both ways round. */
  ghost predicate Covers(s0: Snapshot, contracts: seq<D.Contract>, nodes: seq<Node<Operation>>,
                         linked: set<(StepId, StepId)>) {
    forall a, b ::
      0 <= a < |nodes| && 0 <= b < |nodes| && a != b && D.Linked(s0, contracts, nodes[a].op, nodes[b].op) ==>
      (nodes[a].id, nodes[b].id) in linked
  }

  /** What dependency derivation and the table of linked pairs give together. */
  lemma DerivationCovers(s0: Snapshot, contracts: seq<D.Contract>, stepId: Operation -> StepId, ops: seq<Operation>,
                         edges: seq<Edge>, nodes: seq<Node<Operation>>, linked: set<(StepId, StepId)>)
    requires |nodes| == |ops| && forall i :: 0 <= i < |ops| ==> nodes[i].op == ops[i] && nodes[i].id == stepId(ops[i])
    requires T.DerivedEdges(s0, contracts, stepId, ops, edges)
    requires forall e :: e in edges ==> (e.from, e.to) in linked && (e.to, e.from) in linked
    ensures Covers(s0, contracts, nodes, linked)
  {
    hide D.OrderFor;
    forall a, b | 0 <= a < |nodes| && 0 <= b < |nodes| && a != b && D.Linked(s0, contracts, nodes[a].op, nodes[b].op)
      ensures (nodes[a].id, nodes[b].id) in linked
    {
      var i, j := if a < b then a else b, if a < b then b else a;
      D.LinkedIsSymmetric(s0, contracts, nodes[a].op, nodes[b].op);
      assert T.Arrow(s0, contracts, ops, i, j) || T.Arrow(s0, contracts, ops, j, i);
    }
  }

  lemma SealedIsUnlinked<C>(task: Task<Snapshot, Operation, C>, s0: Snapshot, contracts: seq<D.Contract>,
                            stage: Stage, index: nat, batch: seq<nat>, entry: Snapshot, exit: Snapshot)
    requires Covers(s0, contracts, task.nodes, task.linked) && Distinct(batch)
    requires Sealed(task, stage, index, batch, entry, exit)
    ensures InRange(task.nodes, batch) && PairwiseUnlinked(s0, contracts, NodeOps(task.nodes, batch))
  {
    hide D.Linked, BatchVerified;
    var ops := NodeOps(task.nodes, batch);
    forall i, j | 0 <= i < j < |ops| ensures !D.Linked(s0, contracts, ops[i], ops[j]) {
      assert batch[i] != batch[j];
      assert !Schedule.Linked(task.linked, task.nodes[batch[i]].id, task.nodes[batch[j]].id);
    }
  }

  /** Every stage of a finished schedule over derived dependencies is order free. */
  lemma DerivedStagesAreOrderFree<C>(task: Task<Snapshot, Operation, C>, t: Timetable<Snapshot, Operation, C>,
                                     ctx: Context, s0: Snapshot, contracts: seq<D.Contract>, k: nat)
    requires Applies(task.w, ctx) && Covers(s0, contracts, task.nodes, task.linked)
    requires Finished(task, t) && k < |t.batches|
    ensures InRange(task.nodes, t.batches[k]) && PairwiseUnlinked(s0, contracts, NodeOps(task.nodes, t.batches[k]))
    ensures OrderFree(task.w, NodeOps(task.nodes, t.batches[k]))
  {
    hide Applies, Covers, Sealed, PairwiseUnlinked, OrderFree;
    assert Sealed(task, t.stages[k], k, t.batches[k], t.entries[k], t.entries[k + 1]);
    BatchDistinct(t.batches, k);
    SealedIsUnlinked(task, s0, contracts, t.stages[k], k, t.batches[k], t.entries[k], t.entries[k + 1]);
    UnlinkedIsOrderFree(task.w, ctx, s0, contracts, NodeOps(task.nodes, t.batches[k]));
  }

  /** The scheduler applied each stage in identity order; its final state is nevertheless exactly
      the replay of the linear order the search found. */
  lemma DerivedFinalState<C>(task: Task<Snapshot, Operation, C>, t: Timetable<Snapshot, Operation, C>, ctx: Context,
                             s0: Snapshot, contracts: seq<D.Contract>)
    requires Applies(task.w, ctx) && Covers(s0, contracts, task.nodes, task.linked) && Finished(task, t)
    requires InRange(task.nodes, Concat(t.batches)) && Follow(task.w, task.nodes, task.start, Concat(t.batches)).Some?
    ensures Follow(task.w, task.nodes, task.start, Concat(t.batches)) == Some(t.entries[|t.batches|])
  {
    hide Applies, Covers, OrderFree;
    forall k | 0 <= k < |t.batches|
      ensures InRange(task.nodes, t.batches[k]) && OrderFree(task.w, NodeOps(task.nodes, t.batches[k]))
    {
      DerivedStagesAreOrderFree(task, t, ctx, s0, contracts, k);
    }
    assert t.batches[..|t.batches|] == t.batches;
    FollowReplays(task.w, task.nodes, task.start, Concat(t.batches));
    FinalStateIsLinearReplay(task, t, |t.batches|);
  }

  /** Nor does it matter that the scheduler replays only the interleavings from its starting order
      on: whichever order a stage is taken in, an accepted run ends in the state the scheduler
      carried on with. */
  lemma UncheckedOrdersAgree<C>(task: Task<Snapshot, Operation, C>, t: Timetable<Snapshot, Operation, C>, ctx: Context,
                                s0: Snapshot, contracts: seq<D.Contract>, k: nat, p: seq<nat>)
    requires Applies(task.w, ctx) && Covers(s0, contracts, task.nodes, task.linked)
    requires Finished(task, t) && k < |t.batches|
    requires InRange(task.nodes, t.batches[k]) && IsOrder(p, |t.batches[k]|)
    ensures forall i :: 0 <= i < |p| ==> p[i] < |NodeOps(task.nodes, t.batches[k])|
    ensures var end := Replay(task.w, t.entries[k], Pick(NodeOps(task.nodes, t.batches[k]), p));
      end.Some? ==> end.value == t.entries[k + 1]
  {
    hide Applies, Covers, OrderFree, PairwiseUnlinked;
    var batch, entry := t.batches[k], t.entries[k];
    var ops, ids := NodeOps(task.nodes, batch), BatchIds(task.nodes, batch);
    DerivedStagesAreOrderFree(task, t, ctx, s0, contracts, k);
    assert Sealed(task, t.stages[k], k, batch, entry, t.entries[k + 1]);
    ByIdIsOrder(ids);
    var q := ById(ids);
    OrderInRange(p, |batch|);
    OrderInRange(q, |batch|);
    var acts := BatchActions(task.w, task.nodes, entry, batch);
    assert RunsTo(task.w, entry, acts, q, t.entries[k + 1]);
    RunReplays(task.w, entry, Pick(acts, q));
    assert Ops(Pick(acts, q)) == Pick(ops, q);
    OrderFreeAt(task.w, ops, entry, p, q);
  }

  // ----- the plan of such a schedule -----

  /** The steps of a stage, as verification replays them, are pairwise unlinked; so verification
      never finds that their order matters. */
  lemma StagesNeverDiverge<C>(task: Task<Snapshot, Operation, C>, t: Timetable<Snapshot, Operation, C>,
                              edges: seq<Edge>, plan: Plan<Operation, C>, ctx: Context, s0: Snapshot,
                              contracts: seq<D.Contract>, k: nat, s: Snapshot)
    requires Applies(task.w, ctx) && Covers(s0, contracts, task.nodes, task.linked)
    requires Finished(task, t) && NodesMatch(task.nodes, edges, task.linked, task.w.stepId) && Carries(plan, t)
    requires k < |plan.stages| == |t.batches| && StageOk(plan, k)
    ensures !Diverges(task.w, s, StageActions(plan, k))
  {
    hide Applies, Covers, Finished, NodesMatch, Carries, D.Linked, OrderFree, Diverges, StageActions;
    var p := StageOrder(task, t, edges, plan, k);
    DerivedStagesAreOrderFree(task, t, ctx, s0, contracts, k);
    var ops, acts := NodeOps(task.nodes, t.batches[k]), StageActions(plan, k);
    forall i, j | 0 <= i < j < |acts| ensures !D.Linked(s0, contracts, Ops(acts)[i], Ops(acts)[j]) {
      UnlinkedAt(s0, contracts, ops, p, i, j);
    }
    UnlinkedNeverDiverges(task.w, ctx, s0, contracts, acts, s);
  }

  lemma UnlinkedAt(s0: Snapshot, contracts: seq<D.Contract>, ops: seq<Operation>, p: seq<nat>, i: nat, j: nat)
    requires PairwiseUnlinked(s0, contracts, ops) && IsOrder(p, |ops|) && i < j < |p|
    ensures p[i] < |ops| && p[j] < |ops| && !D.Linked(s0, contracts, ops[p[i]], ops[p[j]])
  {
    hide D.Linked;
    OrderInRange(p, |ops|);
    D.LinkedIsSymmetric(s0, contracts, ops[p[i]], ops[p[j]]);
  }

  /** The state verification ends in, taking every stage in identity order, is the replay of the
      linear order the search found. */
  lemma PlanFinalState<C>(task: Task<Snapshot, Operation, C>, t: Timetable<Snapshot, Operation, C>, edges: seq<Edge>,
                          plan: Plan<Operation, C>, ctx: Context, s0: Snapshot, contracts: seq<D.Contract>)
    requires Applies(task.w, ctx) && Covers(s0, contracts, task.nodes, task.linked)
    requires Finished(task, t) && NodesMatch(task.nodes, edges, task.linked, task.w.stepId) && Carries(plan, t)
    requires StagesOk(plan) && CanonicalState(task.w, plan, task.start, |plan.stages|).Some?
    requires InRange(task.nodes, Concat(t.batches)) && Follow(task.w, task.nodes, task.start, Concat(t.batches)).Some?
    ensures CanonicalState(task.w, plan, task.start, |plan.stages|) ==
      Follow(task.w, task.nodes, task.start, Concat(t.batches))
  {
    hide Applies, Covers, NodesMatch, OrderFree, StagesOk, CanonicalState, Follow, Topological, Sealed;
    forall k | 0 <= k < |t.batches|
      ensures InRange(task.nodes, t.batches[k]) && OrderFree(task.w, NodeOps(task.nodes, t.batches[k]))
    {
      DerivedStagesAreOrderFree(task, t, ctx, s0, contracts, k);
    }
    PlanStates(task, t, edges, plan, |t.batches|);
    DerivedFinalState(task, t, ctx, s0, contracts);
  }
}
