/** What the stages built by the scheduler amount to: a partition of the steps in which every
    dependency edge rises, and a final state that is the replay of the linear order wherever the
    steps of a stage commute. */
module ScheduleProperties {
  import opened Wrappers
  import opened Permutations
  import opened Sorting
  import opened Worlds
  import opened Kahn
  import opened Plans
  import opened Verification
  import opened Search
  import opened Schedule

  // ----- positions in a concatenation -----

  /** The concatenation up to batch `k`, then that batch, then the rest. */
  lemma {:induction false} ConcatAround(batches: seq<seq<nat>>, k: nat) returns (rest: seq<nat>)
    requires k < |batches|
    ensures Concat(batches) == Concat(batches[..k]) + batches[k] + rest
  {
    var n := |batches| - 1;
    if k == n {
      rest := [];
    } else {
      var r := ConcatAround(batches[..n], k);
      assert batches[..n][..k] == batches[..k];
      rest := r + batches[n];
    }
  }

  lemma {:induction false} InSomeBatch(batches: seq<seq<nat>>, x: nat) returns (k: nat, j: nat)
    requires x in Concat(batches)
    ensures k < |batches| && j < |batches[k]| && batches[k][j] == x
  {
    var n := |batches| - 1;
    if x in batches[n] {
      k := n;
      j :| 0 <= j < |batches[n]| && batches[n][j] == x;
    } else {
      k, j := InSomeBatch(batches[..n], x);
    }
  }

  lemma Placed(batches: seq<seq<nat>>, k: nat, j: nat)
    requires k < |batches| && j < |batches[k]|
    ensures var p := |Concat(batches[..k])| + j;
      && p < |Concat(batches)| && Concat(batches)[p] == batches[k][j]
      && Concat(batches)[..p] == Concat(batches[..k]) + batches[k][..j]
  {
    var rest := ConcatAround(batches, k);
  }

  /** In a duplicate-free concatenation a member sits in exactly one batch, at one place. */
  lemma OnePlace(batches: seq<seq<nat>>, k: nat, j: nat, k': nat, j': nat)
    requires Distinct(Concat(batches))
    requires k < |batches| && j < |batches[k]| && k' < |batches| && j' < |batches[k']|
    requires batches[k][j] == batches[k'][j']
    ensures k == k' && j == j'
  {
    Placed(batches, k, j);
    Placed(batches, k', j');
    if k < k' { Earlier(batches, k, k'); }
    if k' < k { Earlier(batches, k', k); }
  }

  lemma Earlier(batches: seq<seq<nat>>, k: nat, k': nat)
    requires k < k' < |batches|
    ensures |Concat(batches[..k])| + |batches[k]| <= |Concat(batches[..k'])|
  {
    var rest := ConcatAround(batches[..k'], k);
    assert batches[..k'][..k] == batches[..k];
  }

  // ----- the steps -----

  lemma {:induction false} StepAt<S, O, C>(w: World<S, O, C>, nodes: seq<Node<O>>, batches: seq<seq<nat>>,
                                           entries: seq<S>, k: nat, j: nat)
    requires |entries| > |batches| && AllInRange(nodes, batches)
    requires k < |batches| && j < |batches[k]|
    ensures |AllSteps(w, nodes, batches, entries)| == |Concat(batches)|
    ensures var p := |Concat(batches[..k])| + j;
      && p < |Concat(batches)| && InRange(nodes, batches[k])
      && AllSteps(w, nodes, batches, entries)[p] == BatchSteps(w, nodes, entries[k], batches[k], k)[j]
  {
    var n := |batches| - 1;
    Placed(batches, k, j);
    StepCount(w, nodes, batches, entries);
    assert InRange(nodes, batches[k]) && InRange(nodes, batches[n]);
    if k < n {
      StepAt(w, nodes, batches[..n], entries, k, j);
      assert batches[..n][..k] == batches[..k];
    } else {
      StepCount(w, nodes, batches[..n], entries);
    }
  }

  lemma {:induction false} StepCount<S, O, C>(w: World<S, O, C>, nodes: seq<Node<O>>, batches: seq<seq<nat>>,
                                              entries: seq<S>)
    requires |entries| > |batches| && AllInRange(nodes, batches)
    ensures |AllSteps(w, nodes, batches, entries)| == |Concat(batches)|
  {
    if batches != [] {
      var n := |batches| - 1;
      assert InRange(nodes, batches[n]);
      StepCount(w, nodes, batches[..n], entries);
    }
  }

  lemma {:induction false} ConcatInRange<O>(nodes: seq<Node<O>>, batches: seq<seq<nat>>)
    requires AllInRange(nodes, batches)
    ensures InRange(nodes, Concat(batches))
  {
    if batches != [] {
      assert InRange(nodes, batches[|batches| - 1]);
      ConcatInRange(nodes, batches[..|batches| - 1]);
    }
  }

  /** Read in order, the steps are the nodes of the linear order. */
  lemma StepsAreLinear<S, O, C>(w: World<S, O, C>, nodes: seq<Node<O>>, batches: seq<seq<nat>>, entries: seq<S>, p: nat)
    requires |entries| > |batches| && AllInRange(nodes, batches) && p < |Concat(batches)|
    ensures |AllSteps(w, nodes, batches, entries)| == |Concat(batches)|
    ensures Concat(batches)[p] < |nodes|
    ensures var step := AllSteps(w, nodes, batches, entries)[p]; var node := nodes[Concat(batches)[p]];
      step.id == node.id && step.op == node.op && step.stage < |batches|
      && Concat(batches)[p] in batches[step.stage]
  {
    ConcatInRange(nodes, batches);
    var x := Concat(batches)[p];
    var k, j := Locate(batches, p);
    StepAt(w, nodes, batches, entries, k, j);
    Placed(batches, k, j);
  }

  lemma {:induction false} Locate(batches: seq<seq<nat>>, p: nat) returns (k: nat, j: nat)
    requires p < |Concat(batches)|
    ensures k < |batches| && j < |batches[k]| && p == |Concat(batches[..k])| + j
  {
    var n := |batches| - 1;
    if p >= |Concat(batches[..n])| {
      k, j := n, p - |Concat(batches[..n])|;
    } else {
      k, j := Locate(batches[..n], p);
      assert batches[..n][..k] == batches[..k];
    }
  }

  // ----- the plan -----

  /** The nodes are what planning makes of the operations and edges: genuine distinct identities,
      predecessors for every edge between them, and both directions recorded as linked. */
  ghost predicate NodesMatch<O>(nodes: seq<Node<O>>, edges: seq<Edge>, linked: set<(StepId, StepId)>,
                                stepId: O -> StepId) {
    && (forall i, j :: 0 <= i < j < |nodes| ==> nodes[i].id != nodes[j].id)
    && (forall i :: 0 <= i < |nodes| ==> nodes[i].id != 0 && nodes[i].id == stepId(nodes[i].op))
    && (forall e :: e in edges ==> EdgeMatches(nodes, linked, e))
  }

  ghost predicate EdgeMatches<O>(nodes: seq<Node<O>>, linked: set<(StepId, StepId)>, e: Edge) {
    exists a, b :: 0 <= a < |nodes| && 0 <= b < |nodes| && Joins(nodes, linked, e, a, b)
  }

  ghost predicate Joins<O>(nodes: seq<Node<O>>, linked: set<(StepId, StepId)>, e: Edge, a: nat, b: nat)
    requires a < |nodes| && b < |nodes|
  {
    && nodes[a].id == e.from && nodes[b].id == e.to && a in nodes[b].predecessors
    && (e.from, e.to) in linked && (e.to, e.from) in linked
  }

  function Justify<O, C>(steps: seq<Step<O, C>>): seq<Step<O, C>> {
    seq(|steps|, i requires 0 <= i < |steps| => steps[i].(justified := true))
  }

  /** A finished schedule of all the nodes in a topological order. */
  ghost predicate Finished<S, O, C>(task: Task<S, O, C>, t: Timetable<S, O, C>) {
    Built(task, t) && Topological(task.nodes, Concat(t.batches)) && |Concat(t.batches)| == |task.nodes|
  }

  /** The plan carries the timetable's stages and steps. */
  ghost predicate Carries<S, O, C>(plan: Plan<O, C>, t: Timetable<S, O, C>) {
    plan.stages == t.stages && plan.steps == Justify(t.steps)
  }

  lemma PlanSteps<S, O, C>(task: Task<S, O, C>, t: Timetable<S, O, C>, edges: seq<Edge>)
    requires Finished(task, t) && NodesMatch(task.nodes, edges, task.linked, task.w.stepId)
    ensures Distinct(Ids(Justify(t.steps))) && |t.steps| == |task.nodes|
  {
    var linear, ids := Concat(t.batches), Ids(Justify(t.steps));
    StepCount(task.w, task.nodes, t.batches, t.entries);
    forall i, j | 0 <= i < j < |ids| ensures ids[i] != ids[j] {
      StepsAreLinear(task.w, task.nodes, t.batches, t.entries, i);
      StepsAreLinear(task.w, task.nodes, t.batches, t.entries, j);
      assert linear[i] != linear[j];
    }
  }

  /** The step of a node: found under its identity, in the stage of its batch. */
  lemma StepOfNode<S, O, C>(task: Task<S, O, C>, t: Timetable<S, O, C>, edges: seq<Edge>, plan: Plan<O, C>, k: nat,
                            j: nat)
    requires Finished(task, t) && NodesMatch(task.nodes, edges, task.linked, task.w.stepId) && Carries(plan, t)
    requires k < |t.batches| && j < |t.batches[k]|
    ensures var x := t.batches[k][j];
      && x < |task.nodes|
      && FindStep(plan, task.nodes[x].id).Some? && FindStep(plan, task.nodes[x].id).value.stage == k
      && FindStep(plan, task.nodes[x].id).value.op == task.nodes[x].op
  {
    hide NodesMatch, Topological, Sealed, FindStep;
    PlanSteps(task, t, edges);
    StepAt(task.w, task.nodes, t.batches, t.entries, k, j);
    FindOwn(plan, |Concat(t.batches[..k])| + j);
  }

  lemma BatchDistinct(batches: seq<seq<nat>>, k: nat)
    requires Distinct(Concat(batches)) && k < |batches|
    ensures Distinct(batches[k])
  {
    forall i, j | 0 <= i < j < |batches[k]| ensures batches[k][i] != batches[k][j] {
      if batches[k][i] == batches[k][j] { OnePlace(batches, k, i, k, j); }
    }
  }

  /** The list of a stage: the identities of its batch, ascending. */
  lemma SortedIdsMeans<O>(nodes: seq<Node<O>>, batch: seq<nat>)
    requires InRange(nodes, batch) && Distinct(batch)
    requires forall i, j :: 0 <= i < j < |nodes| ==> nodes[i].id != nodes[j].id
    ensures |SortedIds(nodes, batch)| == |batch| && Ascending(SortedIds(nodes, batch))
    ensures forall id :: id in SortedIds(nodes, batch) <==> exists j :: 0 <= j < |batch| && nodes[batch[j]].id == id
  {
    var ids, sorted := BatchIds(nodes, batch), SortedIds(nodes, batch);
    SortKeeps(ids, ByKey(id => id));
    SortOrdered(ids, (id: nat) => id);
    forall i, j | 0 <= i < j < |ids| ensures ids[i] != ids[j] { assert batch[i] != batch[j]; }
    SameMultiset(ids, sorted);
    forall id ensures id in sorted <==> exists j :: 0 <= j < |batch| && nodes[batch[j]].id == id {
      if id in sorted {
        var j :| 0 <= j < |ids| && ids[j] == id;
        assert nodes[batch[j]].id == id;
      }
      if j :| 0 <= j < |batch| && nodes[batch[j]].id == id { assert ids[j] == id; }
    }
  }

  lemma StageIsOk<S, O, C>(task: Task<S, O, C>, t: Timetable<S, O, C>, edges: seq<Edge>, plan: Plan<O, C>, k: nat)
    requires Finished(task, t) && NodesMatch(task.nodes, edges, task.linked, task.w.stepId) && Carries(plan, t)
    requires k < |t.batches|
    ensures StageOk(plan, k) && Ascending(plan.stages[k].steps) && |plan.stages[k].steps| <= task.width
    ensures forall j :: 0 <= j < |t.batches[k]| ==>
      t.batches[k][j] < |task.nodes| && task.nodes[t.batches[k][j]].id in plan.stages[k].steps
  {
    hide BatchVerified, Topological;
    var batch := t.batches[k];
    assert Sealed(task, t.stages[k], k, batch, t.entries[k], t.entries[k + 1]);
    assert Distinct(Concat(t.batches)) by { TopologicalDistinct(task.nodes, Concat(t.batches)); }
    BatchDistinct(t.batches, k);
    SortedIdsMeans(task.nodes, batch);
    forall id | id in plan.stages[k].steps ensures FindStep(plan, id).Some? && FindStep(plan, id).value.stage == k {
      var j :| 0 <= j < |batch| && task.nodes[batch[j]].id == id;
      StepOfNode(task, t, edges, plan, k, j);
    }
    AscendingDistinct(plan.stages[k].steps);
  }

  lemma TopologicalDistinct<O>(nodes: seq<Node<O>>, order: seq<nat>)
    requires Topological(nodes, order)
    ensures Distinct(order)
  {
  }

  lemma EverythingListed<S, O, C>(task: Task<S, O, C>, t: Timetable<S, O, C>, edges: seq<Edge>, plan: Plan<O, C>,
                                  p: nat)
    requires Finished(task, t) && NodesMatch(task.nodes, edges, task.linked, task.w.stepId) && Carries(plan, t)
    requires p < |t.steps|
    ensures Listed(plan, plan.steps[p])
  {
    hide BatchVerified, Sealed;
    StepCount(task.w, task.nodes, t.batches, t.entries);
    StepsAreLinear(task.w, task.nodes, t.batches, t.entries, p);
    var k := t.steps[p].stage;
    var j :| 0 <= j < |t.batches[k]| && t.batches[k][j] == Concat(t.batches)[p];
    StageIsOk(task, t, edges, plan, k);
  }

  /** Where a node ended up. */
  lemma NodeBatch<O>(nodes: seq<Node<O>>, batches: seq<seq<nat>>, x: nat) returns (k: nat, j: nat)
    requires Topological(nodes, Concat(batches)) && |Concat(batches)| == |nodes| && x < |nodes|
    ensures k < |batches| && j < |batches[k]| && batches[k][j] == x
  {
    var linear := Concat(batches);
    AllMeans(nodes);
    DistinctSize(linear);
    assert Elements(linear) <= All(nodes);
    assert All(nodes) == Elements(linear) + (All(nodes) - Elements(linear));
    assert x in Elements(linear);
    k, j := InSomeBatch(batches, x);
  }

  /** A predecessor that is also linked ends up in a strictly earlier batch. */
  lemma PredecessorEarlier<S, O, C>(task: Task<S, O, C>, t: Timetable<S, O, C>, ka: nat, ja: nat, kb: nat, jb: nat)
    requires Finished(task, t)
    requires ka < |t.batches| && ja < |t.batches[ka]| && kb < |t.batches| && jb < |t.batches[kb]|
    requires t.batches[ka][ja] < |task.nodes| && t.batches[kb][jb] < |task.nodes|
    requires t.batches[ka][ja] in task.nodes[t.batches[kb][jb]].predecessors
    requires Linked(task.linked, task.nodes[t.batches[ka][ja]].id, task.nodes[t.batches[kb][jb]].id)
    ensures ka < kb
  {
    hide BatchVerified;
    var batches := t.batches;
    var linear := Concat(batches);
    assert Sealed(task, t.stages[kb], kb, batches[kb], t.entries[kb], t.entries[kb + 1]);
    Placed(batches, kb, jb);
    var p := |Concat(batches[..kb])| + jb;
    assert IsReady(task.nodes, Elements(linear[..p]), linear[p]);
    assert batches[ka][ja] in Elements(linear[..p]);
    NoLinkWithin(task.nodes, task.linked, batches[kb], jb, batches[ka][ja]);
    var k, j := InSomeBatch(batches[..kb], batches[ka][ja]);
    OnePlace(batches, ka, ja, k, j);
  }

  lemma NoLinkWithin<O>(nodes: seq<Node<O>>, linked: set<(StepId, StepId)>, batch: seq<nat>, jb: nat, a: nat)
    requires InRange(nodes, batch) && Unlinked(nodes, linked, batch) && jb < |batch| && a < |nodes|
    requires Linked(linked, nodes[a].id, nodes[batch[jb]].id)
    ensures a !in batch[..jb]
  {
  }

  lemma EdgeRises<S, O, C>(task: Task<S, O, C>, t: Timetable<S, O, C>, edges: seq<Edge>, plan: Plan<O, C>, e: Edge)
    requires Finished(task, t) && NodesMatch(task.nodes, edges, task.linked, task.w.stepId) && Carries(plan, t)
    requires e in edges
    ensures EdgeOk(plan, e)
  {
    hide BatchVerified, Built;
    var nodes := task.nodes;
    assert EdgeMatches(nodes, task.linked, e);
    var a, b :| 0 <= a < |nodes| && 0 <= b < |nodes| && Joins(nodes, task.linked, e, a, b);
    var ka, ja := NodeBatch(nodes, t.batches, a);
    var kb, jb := NodeBatch(nodes, t.batches, b);
    StepOfNode(task, t, edges, plan, ka, ja);
    StepOfNode(task, t, edges, plan, kb, jb);
    PredecessorEarlier(task, t, ka, ja, kb, jb);
  }

  lemma StepsAreOk<S, O, C>(task: Task<S, O, C>, t: Timetable<S, O, C>, edges: seq<Edge>)
    requires Finished(task, t) && NodesMatch(task.nodes, edges, task.linked, task.w.stepId) && AllConditioned(task, t)
    ensures StepsOk(Justify(t.steps), task.w.stepId)
  {
    hide BatchVerified, Sealed, Topological;
    PlanSteps(task, t, edges);
    StepCount(task.w, task.nodes, t.batches, t.entries);
    forall p | 0 <= p < |t.steps| ensures StepOk(Justify(t.steps)[p], task.w.stepId) {
      var k, j := Locate(t.batches, p);
      StepAt(task.w, task.nodes, t.batches, t.entries, k, j);
      assert Conditioned(task.w, task.nodes, t.entries[k], t.batches[k][j]);
    }
  }

  /** Conditions are derived for the step at its stage's entry state. */
  ghost predicate Conditioned<S, O, C>(w: World<S, O, C>, nodes: seq<Node<O>>, entry: S, x: nat) {
    x < |nodes| && w.preconditions(entry, nodes[x].op) != [] && w.postconditions(entry, nodes[x].op) != []
  }

  ghost predicate AllConditioned<S, O, C>(task: Task<S, O, C>, t: Timetable<S, O, C>) {
    |t.entries| > |t.batches| &&
    forall k, j :: 0 <= k < |t.batches| && 0 <= j < |t.batches[k]| ==>
      Conditioned(task.w, task.nodes, t.entries[k], t.batches[k][j])
  }

  /** The scheduler's stages always make a well-formed plan: contiguous, nonempty, no wider than
      allowed, ascending lists that cover every step exactly once, and every edge rising. */
  lemma ScheduleIsWellFormed<S, O, C>(task: Task<S, O, C>, t: Timetable<S, O, C>, edges: seq<Edge>, plan: Plan<O, C>)
    requires Finished(task, t) && NodesMatch(task.nodes, edges, task.linked, task.w.stepId) && task.nodes != []
    requires AllConditioned(task, t) && Carries(plan, t) && plan.edges == edges && HeaderOk(plan)
    ensures StructureOk(plan, task.w.stepId)
    ensures forall k :: 0 <= k < |plan.stages| ==>
      Ascending(plan.stages[k].steps) && |plan.stages[k].steps| <= task.width
  {
    hide Sealed, BatchVerified, StageOk, EdgeOk, Listed, Topological, NodesMatch, Conditioned;
    PlanSteps(task, t, edges);
    StepsAreOk(task, t, edges);
    forall k | 0 <= k < |plan.stages|
      ensures StageOk(plan, k) && Ascending(plan.stages[k].steps) && |plan.stages[k].steps| <= task.width
    {
      StageIsOk(task, t, edges, plan, k);
    }
    forall p | 0 <= p < |plan.steps| ensures Listed(plan, plan.steps[p]) { EverythingListed(task, t, edges, plan, p); }
    forall e | e in plan.edges ensures EdgeOk(plan, e) { EdgeRises(task, t, edges, plan, e); }
    NotEmpty(t.batches, plan.stages);
  }

  lemma NotEmpty(batches: seq<seq<nat>>, stages: seq<Stage>)
    requires |stages| == |batches| && Concat(batches) != []
    ensures stages != []
  {
  }

  // ----- the final state -----

  function NodeOps<O>(nodes: seq<Node<O>>, order: seq<nat>): (ops: seq<O>)
    requires forall i :: 0 <= i < |order| ==> order[i] < |nodes|
    ensures |ops| == |order|
  {
    seq(|order|, i requires 0 <= i < |order| => nodes[order[i]].op)
  }

  /** All orders of these operations that are accepted from one state end in one state. */
  ghost predicate OrderFree<S(!new), O, C>(w: World<S, O, C>, ops: seq<O>) {
    forall s: S, p, q :: IsOrder(p, |ops|) && IsOrder(q, |ops|) ==> SameEnd(w, s, ops, p, q)
  }

  ghost predicate SameEnd<S, O, C>(w: World<S, O, C>, s: S, ops: seq<O>, p: seq<nat>, q: seq<nat>)
    requires IsOrder(p, |ops|) && IsOrder(q, |ops|)
  {
    OrderInRange(p, |ops|);
    OrderInRange(q, |ops|);
    var x, y := Replay(w, s, Pick(ops, p)), Replay(w, s, Pick(ops, q));
    x.Some? && y.Some? ==> x == y
  }

  lemma {:induction false} FollowReplays<S, O, C>(w: World<S, O, C>, nodes: seq<Node<O>>, s: S, order: seq<nat>)
    requires forall i :: 0 <= i < |order| ==> order[i] < |nodes|
    requires Follow(w, nodes, s, order).Some?
    ensures Replay(w, s, NodeOps(nodes, order)) == Follow(w, nodes, s, order)
  {
    if order != [] {
      var n := |order| - 1;
      FollowReplays(w, nodes, s, order[..n]);
      assert NodeOps(nodes, order) == NodeOps(nodes, order[..n]) + [nodes[order[n]].op];
      ReplayAppend(w, s, NodeOps(nodes, order[..n]), [nodes[order[n]].op]);
      var t := Follow(w, nodes, s, order[..n]).value;
      ReplayOne(w, t, nodes[order[n]].op);
    }
  }

  lemma OrderFreeAt<S(!new), O, C>(w: World<S, O, C>, ops: seq<O>, s: S, p: seq<nat>, q: seq<nat>)
    requires OrderFree(w, ops) && IsOrder(p, |ops|) && IsOrder(q, |ops|)
    ensures SameEnd(w, s, ops, p, q)
  {
  }

  /** The scheduler's own replay of a batch, from its starting order. */
  lemma VerifiedReplays<S, O, C>(w: World<S, O, C>, nodes: seq<Node<O>>, entry: S, batch: seq<nat>, exit: S)
    requires InRange(nodes, batch) && BatchVerified(w, nodes, entry, batch, exit)
    ensures var q := ById(BatchIds(nodes, batch));
      && IsOrder(q, |batch|) && (forall i :: 0 <= i < |q| ==> q[i] < |batch|)
      && Replay(w, entry, Pick(NodeOps(nodes, batch), q)) == Some(exit)
  {
    var ops, ids := NodeOps(nodes, batch), BatchIds(nodes, batch);
    var q := ById(ids);
    ByIdIsOrder(ids);
    OrderInRange(q, |batch|);
    var acts := BatchActions(w, nodes, entry, batch);
    RunReplays(w, entry, Pick(acts, q));
    assert Ops(Pick(acts, q)) == Pick(ops, q);
  }

  /** A stage taken in linear order ends where the scheduler's identity order ended. */
  lemma BatchEnds<S(!new), O, C>(w: World<S, O, C>, nodes: seq<Node<O>>, entry: S, batch: seq<nat>, exit: S)
    requires InRange(nodes, batch) && BatchVerified(w, nodes, entry, batch, exit)
    requires OrderFree(w, NodeOps(nodes, batch)) && Replay(w, entry, NodeOps(nodes, batch)).Some?
    ensures Replay(w, entry, NodeOps(nodes, batch)) == Some(exit)
  {
    hide OrderFree;
    var ops, n := NodeOps(nodes, batch), |batch|;
    VerifiedReplays(w, nodes, entry, batch, exit);
    assert Pick(ops, Identity(n)) == ops;
    OrderFreeAt(w, ops, entry, Identity(n), ById(BatchIds(nodes, batch)));
  }

  /** Where the steps inside every stage commute, the scheduler's final state is exactly the
      replay of the linear order the search found, even though each stage was applied in identity
      order and perhaps never replayed in linear order. */
  lemma {:induction false} FinalStateIsLinearReplay<S(!new), O, C>(task: Task<S, O, C>, t: Timetable<S, O, C>, k: nat)
    requires Built(task, t) && k <= |t.batches|
    requires forall j :: 0 <= j < |t.batches| ==> OrderFree(task.w, NodeOps(task.nodes, t.batches[j]))
    requires var early := Concat(t.batches[..k]);
      InRange(task.nodes, early) && Replay(task.w, task.start, NodeOps(task.nodes, early)).Some?
    ensures Replay(task.w, task.start, NodeOps(task.nodes, Concat(t.batches[..k]))) == Some(t.entries[k])
  {
    hide OrderFree, BatchVerified, Unlinked;
    if k > 0 {
      var early, last := t.batches[..k - 1], t.batches[k - 1];
      assert t.batches[..k][..k - 1] == early;
      assert Sealed(task, t.stages[k - 1], k - 1, last, t.entries[k - 1], t.entries[k]);
      assert Concat(t.batches[..k]) == Concat(early) + last;
      OpsOfParts(task.nodes, Concat(early), last);
      ReplayAppend(task.w, task.start, NodeOps(task.nodes, Concat(early)), NodeOps(task.nodes, last));
      FinalStateIsLinearReplay(task, t, k - 1);
      BatchEnds(task.w, task.nodes, t.entries[k - 1], last, t.entries[k]);
    }
  }

  lemma OpsOfParts<O>(nodes: seq<Node<O>>, a: seq<nat>, b: seq<nat>)
    requires InRange(nodes, a + b)
    ensures InRange(nodes, a) && InRange(nodes, b)
    ensures NodeOps(nodes, a + b) == NodeOps(nodes, a) + NodeOps(nodes, b)
  {
    forall i | 0 <= i < |a| ensures a[i] < |nodes| { assert (a + b)[i] == a[i]; }
    forall i | 0 <= i < |b| ensures b[i] < |nodes| { assert (a + b)[|a| + i] == b[i]; }
  }

  // ----- the stages of the plan, as verification replays them -----

  /** The step at a place of a stage is a node of its batch. */
  lemma StageNode<S, O, C>(task: Task<S, O, C>, t: Timetable<S, O, C>, edges: seq<Edge>, plan: Plan<O, C>, k: nat,
                           i: nat)
    returns (j: nat)
    requires Finished(task, t) && NodesMatch(task.nodes, edges, task.linked, task.w.stepId) && Carries(plan, t)
    requires k < |t.batches| && StageOk(plan, k) && i < |plan.stages[k].steps|
    ensures j < |t.batches[k]| && t.batches[k][j] < |task.nodes|
    ensures task.nodes[t.batches[k][j]].id == plan.stages[k].steps[i]
    ensures task.nodes[t.batches[k][j]].op == Ops(StageActions(plan, k))[i]
  {
    hide BatchVerified, Topological;
    var batch, id := t.batches[k], plan.stages[k].steps[i];
    assert Sealed(task, t.stages[k], k, batch, t.entries[k], t.entries[k + 1]);
    TopologicalDistinct(task.nodes, Concat(t.batches));
    BatchDistinct(t.batches, k);
    SortedIdsMeans(task.nodes, batch);
    assert id in SortedIds(task.nodes, batch);
    j :| 0 <= j < |batch| && task.nodes[batch[j]].id == id;
    StepOfNode(task, t, edges, plan, k, j);
  }

  /** A stage of the plan is its batch in another order. */
  lemma StageOrder<S, O, C>(task: Task<S, O, C>, t: Timetable<S, O, C>, edges: seq<Edge>, plan: Plan<O, C>, k: nat)
    returns (p: seq<nat>)
    requires Finished(task, t) && NodesMatch(task.nodes, edges, task.linked, task.w.stepId) && Carries(plan, t)
    requires k < |t.batches| && StageOk(plan, k)
    ensures InRange(task.nodes, t.batches[k]) && |StageActions(plan, k)| == |t.batches[k]|
    ensures IsOrder(p, |t.batches[k]|) && forall i :: 0 <= i < |p| ==> p[i] < |t.batches[k]|
    ensures Ops(StageActions(plan, k)) == Pick(NodeOps(task.nodes, t.batches[k]), p)
  {
    hide Finished, NodesMatch, Carries, FindStep;
    StageSize(task, t, plan, k);
    var batch, ids, ops := t.batches[k], plan.stages[k].steps, Ops(StageActions(plan, k));
    p := [];
    while |p| < |ids|
      invariant |p| <= |ids|
      invariant forall i :: 0 <= i < |p| ==>
        p[i] < |batch| && task.nodes[batch[p[i]]].id == ids[i] && task.nodes[batch[p[i]]].op == ops[i]
    {
      var j := StageNode(task, t, edges, plan, k, |p|);
      p := p + [j];
    }
    forall i, j | 0 <= i < j < |p| ensures p[i] != p[j] { assert ids[i] != ids[j]; }
    FullIsOrder(p, |batch|);
    assert ops == Pick(NodeOps(task.nodes, batch), p);
  }

  lemma StageSize<S, O, C>(task: Task<S, O, C>, t: Timetable<S, O, C>, plan: Plan<O, C>, k: nat)
    requires Finished(task, t) && Carries(plan, t) && k < |t.batches|
    ensures k < |plan.stages| && |plan.stages[k].steps| == |t.batches[k]| && InRange(task.nodes, t.batches[k])
  {
    hide BatchVerified, Topological;
    var batch := t.batches[k];
    assert Sealed(task, t.stages[k], k, batch, t.entries[k], t.entries[k + 1]);
    SortKeeps(BatchIds(task.nodes, batch), ByKey(id => id));
  }

  lemma FullIsOrder(p: seq<nat>, n: nat)
    requires |p| == n && (forall i :: 0 <= i < n ==> p[i] < n) && forall i, j :: 0 <= i < j < n ==> p[i] != p[j]
    ensures IsOrder(p, n)
  {
    DistinctSize(p);
    DistinctSize(Identity(n));
    forall x | x in Elements(p) ensures x in Elements(Identity(n)) { assert Identity(n)[x] == x; }
    assert Elements(Identity(n)) == Elements(p) + (Elements(Identity(n)) - Elements(p));
  }

  lemma OrdersCompose(p: seq<nat>, q: seq<nat>, n: nat)
    requires IsOrder(p, n) && IsOrder(q, n)
    ensures |p| == |q| == n && (forall i :: 0 <= i < n ==> p[i] < n && q[i] < n) && IsOrder(Pick(p, q), n)
  {
    OrderInRange(p, n);
    OrderInRange(q, n);
    FullIsOrder(Pick(p, q), n);
  }

  /** Where the steps inside every stage commute, the states verification carries from stage to
      stage are the ones the scheduler carried. */
  lemma {:induction false} PlanStates<S(!new), O, C>(task: Task<S, O, C>, t: Timetable<S, O, C>, edges: seq<Edge>,
                                                     plan: Plan<O, C>, k: nat)
    requires Finished(task, t) && NodesMatch(task.nodes, edges, task.linked, task.w.stepId) && Carries(plan, t)
    requires StagesOk(plan) && k <= |t.batches| && |plan.stages| == |t.batches|
    requires forall j :: 0 <= j < |t.batches| ==> OrderFree(task.w, NodeOps(task.nodes, t.batches[j]))
    requires CanonicalState(task.w, plan, task.start, k).Some?
    ensures CanonicalState(task.w, plan, task.start, k) == Some(t.entries[k])
  {
    hide OrderFree, StageOk, NodesMatch, Carries, Sealed, Topological, StageActions, StartRun;
    if k > 0 {
      PlanStates(task, t, edges, plan, k - 1);
      assert StageOk(plan, k - 1);
      StageEnds(task, t, edges, plan, k - 1);
    }
  }

  lemma StageEnds<S(!new), O, C>(task: Task<S, O, C>, t: Timetable<S, O, C>, edges: seq<Edge>, plan: Plan<O, C>, k: nat)
    requires Finished(task, t) && NodesMatch(task.nodes, edges, task.linked, task.w.stepId) && Carries(plan, t)
    requires k < |plan.stages| == |t.batches| && StageOk(plan, k)
    requires OrderFree(task.w, NodeOps(task.nodes, t.batches[k]))
    requires StartRun(task.w, t.entries[k], StageActions(plan, k), plan.stages[k].steps).Some?
    ensures StartRun(task.w, t.entries[k], StageActions(plan, k), plan.stages[k].steps) == Some(t.entries[k + 1])
  {
    hide OrderFree, StageOk, NodesMatch, Carries, Topological, StageActions, Unlinked;
    var entry, batch, n := t.entries[k], t.batches[k], |t.batches[k]|;
    var acts := StageActions(plan, k);
    var p := StageOrder(task, t, edges, plan, k);
    var q := ById(plan.stages[k].steps);
    ByIdIsOrder(plan.stages[k].steps);
    OrdersCompose(p, q, n);
    RunReplays(task.w, entry, Pick(acts, q));
    var ops := NodeOps(task.nodes, batch);
    forall i | 0 <= i < n ensures Ops(Pick(acts, q))[i] == Pick(ops, Pick(p, q))[i] {
      assert Ops(acts)[q[i]] == Pick(ops, p)[q[i]];
    }
    assert Ops(Pick(acts, q)) == Pick(ops, Pick(p, q));
    assert Sealed(task, t.stages[k], k, batch, entry, t.entries[k + 1]);
    VerifiedReplays(task.w, task.nodes, entry, batch, t.entries[k + 1]);
    var b := ById(BatchIds(task.nodes, batch));
    OrderFreeAt(task.w, ops, entry, Pick(p, q), b);
  }

  // ----- no stage could have been wider -----

  /** Every linked pair is an edge, one way round or the other. */
  ghost predicate OnlyEdges(edges: seq<Edge>, linked: set<(StepId, StepId)>) {
    forall a, b :: (a, b) in linked ==> Edge(a, b) in edges || Edge(b, a) in edges
  }

  /** Some order of the actions is unsafe, or two orders end differently. */
  ghost predicate SomeOrderFails<S, O, C>(w: World<S, O, C>, s: S, acts: seq<Action<O, C>>) {
    (exists q :: FailsIn(w, s, acts, q)) || Diverges(w, s, acts)
  }

  ghost predicate FailsIn<S, O, C>(w: World<S, O, C>, s: S, acts: seq<Action<O, C>>, q: seq<nat>) {
    IsOrder(q, |acts|) && RunOf(w, s, acts, q) == None
  }

  /** A batch that does not replay safely has an order that shows it. */
  lemma RefusalIsReal<S, O, C>(w: World<S, O, C>, nodes: seq<Node<O>>, entry: S, batch: seq<nat>)
    requires InRange(nodes, batch) && !Passes(w, nodes, entry, batch)
    ensures SomeOrderFails(w, entry, BatchActions(w, nodes, entry, batch))
  {
    hide Rank, Run, BatchActions, BatchIds, ById, IsOrder;
    var acts, start := BatchActions(w, nodes, entry, batch), ById(BatchIds(nodes, batch));
    ByIdIsOrder(BatchIds(nodes, batch));
    if RunOf(w, entry, acts, start) == None {
      assert FailsIn(w, entry, acts, start);
    } else {
      var out := RunOf(w, entry, acts, start).value;
      assert RunsTo(w, entry, acts, start, out);
      var q :| IsOrder(q, |acts|) && Rank(q) >= Rank(start) && !RunsTo(w, entry, acts, q, out);
      if RunOf(w, entry, acts, q) == None {
        assert FailsIn(w, entry, acts, q);
      } else {
        assert Differ(w, entry, acts, start, q);
      }
    }
  }

  /** The stages of a schedule are maximal: before the first step of the next stage, a stage was closed
      because it has the full width, because an edge joins that step to one of its own, or because some
      order of its steps and that one, from the state the stage starts in, is unsafe or ends elsewhere. */
  lemma StagesAreMaximal<S, O, C>(task: Task<S, O, C>, t: Timetable<S, O, C>, edges: seq<Edge>, plan: Plan<O, C>,
                                  k: nat)
    requires Finished(task, t) && NodesMatch(task.nodes, edges, task.linked, task.w.stepId) && Carries(plan, t)
    requires OnlyEdges(edges, task.linked) && k + 1 < |t.batches|
    ensures InRange(task.nodes, t.batches[k]) && t.batches[k + 1] != [] && t.batches[k + 1][0] < |task.nodes|
    ensures var next := t.batches[k + 1][0];
      && task.nodes[next].id in plan.stages[k + 1].steps
      && (|| |plan.stages[k].steps| == task.width
          || (exists id :: id in plan.stages[k].steps
                && (Edge(id, task.nodes[next].id) in edges || Edge(task.nodes[next].id, id) in edges))
          || SomeOrderFails(task.w, t.entries[k],
                            BatchActions(task.w, task.nodes, t.entries[k], t.batches[k] + [next])))
  {
    hide BatchVerified, Topological, NodesMatch, SomeOrderFails, Passes, Sealed;
    assert ClosedAt(task, t, k);
    var batch, next := t.batches[k], t.batches[k + 1][0];
    StageIsOk(task, t, edges, plan, k);
    StageIsOk(task, t, edges, plan, k + 1);
    StageWidth(task, t, edges, plan, k);
    if JoinedTo(task.nodes, task.linked, batch, next) {
      var i :| 0 <= i < |batch| && Linked(task.linked, task.nodes[batch[i]].id, task.nodes[next].id);
      assert task.nodes[batch[i]].id in plan.stages[k].steps;
    } else if |batch| != task.width {
      RefusalIsReal(task.w, task.nodes, t.entries[k], batch + [next]);
    }
  }

  lemma StageWidth<S, O, C>(task: Task<S, O, C>, t: Timetable<S, O, C>, edges: seq<Edge>, plan: Plan<O, C>, k: nat)
    requires Finished(task, t) && NodesMatch(task.nodes, edges, task.linked, task.w.stepId) && Carries(plan, t)
    requires k < |t.batches|
    ensures |plan.stages[k].steps| == |t.batches[k]|
  {
    hide BatchVerified, Topological, NodesMatch;
    assert Sealed(task, t.stages[k], k, t.batches[k], t.entries[k], t.entries[k + 1]);
    SortKeeps(BatchIds(task.nodes, t.batches[k]), ByKey(id => id));
    assert |multiset(SortedIds(task.nodes, t.batches[k]))| == |multiset(BatchIds(task.nodes, t.batches[k]))|;
  }
}
