/** Plan generation from a request: derive the operations, schedule them under each strategy,
    verify every candidate exhaustively and return the preferred one. */
module Generate {
  import opened Wrappers
  import opened Permutations
  import opened Sorting
  import opened Worlds
  import opened Kahn
  import opened Plans
  import opened Verification
  import opened Interleavings
  import opened Search
  import opened Schedule
  import opened ScheduleProperties

  /** A planning request.  What planning asks of the model is given as functions of the instant at
      which the change is scheduled, because a window shift plans for a later instant. */
  datatype PlanRequest<!S, !O, !C> = PlanRequest(
    id: nat, base: Request<S, O, C>, title: string,
    valid: bool,                                      // request.validate()
    bound: bool,                                      // check_generation_binding()
    derive: int -> Option<seq<O>>,                    // derive_operations
    dependencies: (int, seq<O>) -> seq<Edge>,         // derive_dependencies
    capable: seq<O> -> bool,                          // capability gating
    shift: seq<O> -> Option<int>,                     // shift_instant
    strategies: seq<seq<Node<O>> -> Strategy>,        // how each strategy orders ready steps
    prefers: (Plan<O, C>, Plan<O, C>) -> bool,        // objective_prefers
    limits: Limits, maxSteps: nat, maxCandidates: nat, maxAttempts: nat, allowShift: bool)

  datatype Refusal =
    | InputInvalid | StaleInput | NoPermittedInstant | DerivationFailed | StepBudgetExceeded | CapabilityMissing
    | UnsafeInitialState | DuplicateOperation | Cancelled | AttemptBudgetExhausted | SchedulingBudget | NoSafeOrdering

  /** Why a candidate ordering was set aside. */
  datatype Rejection = OverBudget | Unsafe | NotVerified(report: Report) | ObjectiveLoss

  function Recorded(rejected: seq<Rejection>): seq<string> {
    seq(|rejected|, i requires 0 <= i < |rejected| =>
      match rejected[i]
      case OverBudget => "candidate-limit"
      case Unsafe => "candidate-unsafe"
      case NotVerified(_) => "candidate-verification-failed"
      case ObjectiveLoss => "objective-loss")
  }

  /** The plan performs exactly these operations, each once. */
  ghost predicate Performs<O, C>(plan: Plan<O, C>, ops: seq<O>) {
    |plan.steps| == |ops| && exists q :: PerformsInOrder(plan, ops, q)
  }

  ghost predicate PerformsInOrder<O, C>(plan: Plan<O, C>, ops: seq<O>, q: seq<nat>) {
    && IsOrder(q, |ops|) && |plan.steps| == |ops|
    && forall i :: 0 <= i < |q| ==> q[i] < |ops| && plan.steps[i].op == ops[q[i]]
  }

  /** Following the operations in an order, with conditions derived afresh before each of them. */
  ghost function Tried<S, O, C>(w: World<S, O, C>, s: S, ops: seq<O>, q: seq<nat>): Option<S>
    requires forall i :: 0 <= i < |q| ==> q[i] < |ops|
  {
    if q == [] then Some(s)
    else
      match Tried(w, s, ops, q[..|q| - 1])
      case None => None
      case Some(t) => Try(w, t, ops[q[|q| - 1]])
  }

  /** There is an order in which every operation is ready when its turn comes, is accepted, and
      breaks no obligation. */
  ghost predicate Walks<S, O, C>(w: World<S, O, C>, s: S, ops: seq<O>) {
    exists q :: WalksAlong(w, s, ops, q)
  }

  ghost predicate WalksAlong<S, O, C>(w: World<S, O, C>, s: S, ops: seq<O>, q: seq<nat>) {
    IsOrder(q, |ops|) && (OrderInRange(q, |ops|); Tried(w, s, ops, q).Some?)
  }

  /** What every returned plan satisfies, against the request as it was made. */
  ghost predicate Sound<S, O, C>(plan: Plan<O, C>, req: PlanRequest<S, O, C>) {
    && Verified(plan, req.base, true)
    && ListsAscend(plan.stages)
    && (forall k :: 0 <= k < |plan.stages| ==> |plan.stages[k].steps| <= req.limits.maxStageWidth)
    && req.derive(plan.instant).Some? && Performs(plan, req.derive(plan.instant).value)
    && Walks(req.base.worldAt(plan.instant), req.base.state, req.derive(plan.instant).value)
    && plan.edges == EdgesOf(req, plan.instant)
  }

  /** The dependency edges among the operations derived for an instant. */
  ghost function EdgesOf<S, O, C>(req: PlanRequest<S, O, C>, instant: int): seq<Edge>
    requires req.derive(instant).Some?
  {
    var ops := req.derive(instant).value;
    if ops == [] then [] else req.dependencies(instant, ops)
  }

  lemma {:induction false} FollowIsTried<S, O, C>(w: World<S, O, C>, nodes: seq<Node<O>>, ops: seq<O>, s: S,
                                                  q: seq<nat>)
    requires |nodes| == |ops| && forall i :: 0 <= i < |ops| ==> nodes[i].op == ops[i]
    requires forall i :: 0 <= i < |q| ==> q[i] < |ops|
    ensures Follow(w, nodes, s, q) == Tried(w, s, ops, q)
  {
    if q != [] { FollowIsTried(w, nodes, ops, s, q[..|q| - 1]); }
  }

  /** A successful search walks through all the operations. */
  lemma SearchWalks<S, O, C>(w: World<S, O, C>, ops: seq<O>, edges: seq<Edge>, nodes: seq<Node<O>>, s: S,
                             linear: seq<nat>)
    requires NodesFor(ops, edges, w.stepId, nodes)
    requires Topological(nodes, linear) && |linear| == |nodes| && Follow(w, nodes, s, linear).Some?
    ensures Walks(w, s, ops)
  {
    LinearIsOrder(nodes, linear);
    FollowIsTried(w, nodes, ops, s, linear);
    assert WalksAlong(w, s, ops, linear);
  }

  // ----- fields verification does not read -----

  /** Two plans that order the same work the same way for the same inputs. */
  ghost predicate SameWork<O, C>(p: Plan<O, C>, q: Plan<O, C>) {
    && p.id == q.id && p.binding == q.binding && p.instant == q.instant
    && p.stages == q.stages && p.steps == q.steps && p.edges == q.edges
  }

  lemma SameWorkFinds<O, C>(p: Plan<O, C>, q: Plan<O, C>)
    requires SameWork(p, q)
    ensures forall id :: FindStep(p, id) == FindStep(q, id)
    ensures forall k :: 0 <= k < |p.stages| ==> (StageOk(p, k) <==> StageOk(q, k))
    ensures forall k :: 0 <= k < |p.stages| && StageOk(p, k) ==> StageActions(p, k) == StageActions(q, k)
  {
  }

  lemma SameWorkActions<O, C>(p: Plan<O, C>, q: Plan<O, C>, k: nat)
    requires SameWork(p, q) && k < |p.stages| && StagesOk(p) && StagesOk(q)
    ensures StageOk(p, k) && StageOk(q, k) && StageActions(p, k) == StageActions(q, k)
  {
    SameWorkFinds(p, q);
  }

  lemma {:induction false} SameWorkStates<S, O, C>(w: World<S, O, C>, p: Plan<O, C>, q: Plan<O, C>, s0: S, k: nat)
    requires SameWork(p, q) && k <= |p.stages| && StagesOk(p) && StagesOk(q)
    ensures CanonicalState(w, p, s0, k) == CanonicalState(w, q, s0, k)
  {
    hide StagesOk, StageOk, StageActions, StartRun;
    if k > 0 {
      SameWorkActions(p, q, k - 1);
      SameWorkStates(w, p, q, s0, k - 1);
    }
  }

  lemma SameWorkStage<S, O, C>(w: World<S, O, C>, p: Plan<O, C>, q: Plan<O, C>, s0: S, k: nat)
    requires SameWork(p, q) && k < |p.stages| && StagesOk(p) && StagesOk(q)
    ensures StagePasses(w, p, s0, k, true) <==> StagePasses(w, q, s0, k, true)
  {
    hide StageVerified, StageActions, StagesOk, CanonicalState, StageOk;
    SameWorkActions(p, q, k);
    SameWorkStates(w, p, q, s0, k);
    SameWorkStates(w, p, q, s0, k + 1);
  }

  lemma {:induction false} SameWorkPasses<S, O, C>(w: World<S, O, C>, p: Plan<O, C>, q: Plan<O, C>, s0: S, k: nat)
    requires SameWork(p, q) && k <= |p.stages| && StagesOk(p) && StagesOk(q)
    ensures PassUpTo(w, p, s0, k, true) <==> PassUpTo(w, q, s0, k, true)
  {
    hide StagePasses, StagesOk;
    if k > 0 {
      SameWorkStage(w, p, q, s0, k - 1);
      SameWorkPasses(w, p, q, s0, k - 1);
    }
  }

  lemma SameWorkStructure<O, C>(p: Plan<O, C>, q: Plan<O, C>, stepId: O -> StepId)
    requires SameWork(p, q) && StructureOk(p, stepId)
    ensures StructureOk(q, stepId)
  {
    SameWorkFinds(p, q);
    forall e | e in q.edges && q.steps != [] ensures EdgeOk(q, e) { assert EdgeOk(p, e); }
    forall i | 0 <= i < |q.steps| && q.steps != [] ensures Listed(q, q.steps[i]) { assert Listed(p, p.steps[i]); }
  }

  /** Filling in the digest, the counters, the rejected alternatives or the title of a verified
      plan leaves it verified. */
  lemma MetadataIsFree<S, O, C>(p: Plan<O, C>, q: Plan<O, C>, request: Request<S, O, C>)
    requires SameWork(p, q) && Verified(p, request, true)
    ensures Verified(q, request, true)
  {
    hide PassUpTo, StructureOk;
    var w := request.worldAt(p.instant);
    SameWorkStructure(p, q, w.stepId);
    StructureHasStages(p, w.stepId);
    StructureHasStages(q, w.stepId);
    SameWorkPasses(w, p, q, request.state, |p.stages|);
  }

  lemma StructureHasStages<O, C>(p: Plan<O, C>, stepId: O -> StepId)
    requires StructureOk(p, stepId)
    ensures StagesOk(p)
  {
  }

  // ----- building the nodes -----

  function IndexOfId(ids: seq<StepId>, id: StepId): (k: nat)
    ensures k <= |ids| && (k < |ids| ==> ids[k] == id) && (k == |ids| ==> id !in ids)
  {
    if ids == [] || ids[0] == id then 0 else IndexOfId(ids[1..], id) + 1
  }

  /** One node per operation, carrying the predecessors the edges name, no others, and as many
      successors as edges leave it. */
  ghost predicate NodesFor<O>(ops: seq<O>, edges: seq<Edge>, stepId: O -> StepId, nodes: seq<Node<O>>) {
    && |nodes| == |ops| && NodesOk(nodes)
    && (forall i :: 0 <= i < |ops| ==> nodes[i].op == ops[i] && nodes[i].id == stepId(ops[i]))
    && (forall e, a, b :: e in edges && 0 <= a < |nodes| && 0 <= b < |nodes| && Between(nodes, e, a, b) ==>
          a in nodes[b].predecessors)
    && (forall a, b :: 0 <= b < |nodes| && a in nodes[b].predecessors ==> Joined(nodes, edges, a, b))
    && (forall a :: 0 <= a < |nodes| ==> nodes[a].successors == Leaving(edges, OpIds(ops, stepId), nodes[a].id))
  }

  /** Some edge goes from the one node to the other. */
  ghost predicate Joined<O>(nodes: seq<Node<O>>, edges: seq<Edge>, a: nat, b: nat) {
    a < |nodes| && b < |nodes| && exists e :: e in edges && Between(nodes, e, a, b)
  }

  /** How many edges go from the step to a known one, counted with multiplicity. */
  ghost function Leaving(edges: seq<Edge>, ids: seq<StepId>, id: StepId): nat {
    if edges == [] then 0
    else
      var e := edges[|edges| - 1];
      Leaving(edges[..|edges| - 1], ids, id) + (if e.from == id && e.to in ids then 1 else 0)
  }

  ghost predicate Between<O>(nodes: seq<Node<O>>, e: Edge, a: nat, b: nat)
    requires a < |nodes| && b < |nodes|
  {
    nodes[a].id == e.from && nodes[b].id == e.to
  }

  method BuildNodes<O>(ops: seq<O>, edges: seq<Edge>, stepId: O -> StepId) returns (r: Option<seq<Node<O>>>)
    ensures r == None <==> exists i, j :: 0 <= i < j < |ops| && stepId(ops[i]) == stepId(ops[j])
    ensures r.Some? ==> NodesFor(ops, edges, stepId, r.value)
  {
    var ids: seq<StepId> := [];
    var nodes: seq<Node<O>> := [];
    for i := 0 to |ops|
      invariant |ids| == |nodes| == i && Distinct(ids)
      invariant forall j :: 0 <= j < i ==> ids[j] == stepId(ops[j]) && nodes[j] == Node(ops[j], ids[j], [], 0)
    {
      var id := stepId(ops[i]);
      if id in ids {
        var j :| 0 <= j < i && ids[j] == id;
        assert stepId(ops[j]) == stepId(ops[i]);
        return None;
      }
      ids, nodes := ids + [id], nodes + [Node(ops[i], id, [], 0)];
    }
    nodes := AddEdges(ops, edges, stepId, ids, nodes);
    r := Some(nodes);
    assert forall i, j :: 0 <= i < j < |ops| ==> ids[i] != ids[j];
  }

  /** The first `k` edges have been entered. */
  ghost predicate Entered<O>(ops: seq<O>, edges: seq<Edge>, ids: seq<StepId>, nodes: seq<Node<O>>, k: nat) {
    && k <= |edges| && |nodes| == |ops| == |ids| && NodesOk(nodes)
    && (forall j :: 0 <= j < |ops| ==> nodes[j].op == ops[j] && nodes[j].id == ids[j])
    && (forall m, a, b :: 0 <= m < k && 0 <= a < |nodes| && 0 <= b < |nodes| && Between(nodes, edges[m], a, b) ==>
          a in nodes[b].predecessors)
    && (forall a, b :: 0 <= b < |nodes| && a in nodes[b].predecessors ==> Joined(nodes, edges[..k], a, b))
    && (forall a :: 0 <= a < |nodes| ==> nodes[a].successors == Leaving(edges[..k], ids, ids[a]))
  }

  function Enter<O>(nodes: seq<Node<O>>, from: nat, to: nat): seq<Node<O>>
    requires from < |nodes| && to < |nodes|
  {
    var entered := nodes[to := nodes[to].(predecessors := nodes[to].predecessors + [from])];
    entered[from := entered[from].(successors := entered[from].successors + 1)]
  }

  lemma EnterMeans<O>(nodes: seq<Node<O>>, from: nat, to: nat)
    requires from < |nodes| && to < |nodes|
    ensures var next := Enter(nodes, from, to);
      && |next| == |nodes|
      && (forall j :: 0 <= j < |nodes| ==> next[j].op == nodes[j].op && next[j].id == nodes[j].id)
      && (forall j :: 0 <= j < |nodes| && j != to ==> next[j].predecessors == nodes[j].predecessors)
      && next[to].predecessors == nodes[to].predecessors + [from]
      && (forall j :: 0 <= j < |nodes| ==> next[j].successors == nodes[j].successors + (if j == from then 1 else 0))
  {
  }

  lemma EnterKeepsOk<O>(nodes: seq<Node<O>>, from: nat, to: nat)
    requires from < |nodes| && to < |nodes| && NodesOk(nodes)
    ensures NodesOk(Enter(nodes, from, to))
  {
    EnterMeans(nodes, from, to);
    var next := Enter(nodes, from, to);
    forall i, j | 0 <= i < |next| && 0 <= j < |next[i].predecessors| ensures next[i].predecessors[j] < |next| {
      if i == to { assert next[to].predecessors == nodes[to].predecessors + [from]; }
    }
  }

  lemma LeavingNext(edges: seq<Edge>, ids: seq<StepId>, k: nat, id: StepId)
    requires k < |edges|
    ensures Leaving(edges[..k + 1], ids, id) ==
      Leaving(edges[..k], ids, id) + (if edges[k].from == id && edges[k].to in ids then 1 else 0)
  {
    assert edges[..k + 1][..k] == edges[..k];
  }

  /** Pairs joined before are joined still, by the same edges. */
  lemma JoinedStill<O>(nodes: seq<Node<O>>, next: seq<Node<O>>, edges: seq<Edge>, more: seq<Edge>, a: nat, b: nat)
    requires Joined(nodes, edges, a, b) && |next| == |nodes|
    requires forall j :: 0 <= j < |nodes| ==> next[j].id == nodes[j].id
    requires forall e :: e in edges ==> e in more
    ensures Joined(next, more, a, b)
  {
    var e :| e in edges && Between(nodes, e, a, b);
    assert Between(next, e, a, b);
  }

  lemma EnterOne<O>(ops: seq<O>, edges: seq<Edge>, ids: seq<StepId>, nodes: seq<Node<O>>, k: nat, from: nat, to: nat)
    requires Entered(ops, edges, ids, nodes, k) && k < |edges| && Distinct(ids)
    requires from < |ids| && to < |ids| && ids[from] == edges[k].from && ids[to] == edges[k].to
    ensures Entered(ops, edges, ids, Enter(nodes, from, to), k + 1)
  {
    hide Enter, NodesOk, Leaving, Joined;
    var next := Enter(nodes, from, to);
    EnterMeans(nodes, from, to);
    EnterKeepsOk(nodes, from, to);
    assert edges[..k + 1] == edges[..k] + [edges[k]];
    forall m, a, b | 0 <= m < k + 1 && 0 <= a < |next| && 0 <= b < |next| && Between(next, edges[m], a, b)
      ensures a in next[b].predecessors
    {
      assert Between(nodes, edges[m], a, b);
      if m == k {
        assert a == from && b == to;
      } else {
        assert a in nodes[b].predecessors;
      }
    }
    forall a, b | 0 <= b < |next| && a in next[b].predecessors ensures Joined(next, edges[..k + 1], a, b) {
      if a in nodes[b].predecessors {
        JoinedStill(nodes, next, edges[..k], edges[..k + 1], a, b);
      } else {
        JoinedNow(next, edges, k, from, to);
      }
    }
    forall a | 0 <= a < |next| ensures next[a].successors == Leaving(edges[..k + 1], ids, ids[a]) {
      LeavingNext(edges, ids, k, ids[a]);
    }
  }

  lemma JoinedNow<O>(next: seq<Node<O>>, edges: seq<Edge>, k: nat, from: nat, to: nat)
    requires k < |edges| && from < |next| && to < |next| && Between(next, edges[k], from, to)
    ensures Joined(next, edges[..k + 1], from, to)
  {
    assert edges[k] in edges[..k + 1] by { assert edges[..k + 1][k] == edges[k]; }
  }

  method AddEdges<O>(ops: seq<O>, edges: seq<Edge>, stepId: O -> StepId, ids: seq<StepId>, bare: seq<Node<O>>)
    returns (nodes: seq<Node<O>>)
    requires |ids| == |bare| == |ops| && Distinct(ids)
    requires forall j :: 0 <= j < |ops| ==> ids[j] == stepId(ops[j]) && bare[j] == Node(ops[j], ids[j], [], 0)
    ensures NodesFor(ops, edges, stepId, nodes)
  {
    nodes := bare;
    for i := 0 to |edges|
      invariant Entered(ops, edges, ids, nodes, i)
    {
      var from, to := IndexOfId(ids, edges[i].from), IndexOfId(ids, edges[i].to);
      if from == |ids| || to == |ids| {
        UnknownEdge(ops, edges, ids, nodes, i);
        continue;
      }
      EnterOne(ops, edges, ids, nodes, i, from, to);
      nodes := Enter(nodes, from, to);
    }
    assert edges[..|edges|] == edges;
    assert OpIds(ops, stepId) == ids;
  }

  lemma UnknownEdge<O>(ops: seq<O>, edges: seq<Edge>, ids: seq<StepId>, nodes: seq<Node<O>>, k: nat)
    requires Entered(ops, edges, ids, nodes, k) && k < |edges|
    requires edges[k].from !in ids || edges[k].to !in ids
    ensures Entered(ops, edges, ids, nodes, k + 1)
  {
    hide Leaving, Joined, NodesOk;
    assert edges[..k + 1] == edges[..k] + [edges[k]];
    forall a, b | 0 <= a < |nodes| && 0 <= b < |nodes| ensures !Between(nodes, edges[k], a, b) {
      assert nodes[a].id == ids[a] && nodes[b].id == ids[b];
    }
    forall a, b | 0 <= b < |nodes| && a in nodes[b].predecessors ensures Joined(nodes, edges[..k + 1], a, b) {
      JoinedStill(nodes, nodes, edges[..k], edges[..k + 1], a, b);
    }
    forall a | 0 <= a < |nodes| ensures nodes[a].successors == Leaving(edges[..k + 1], ids, ids[a]) {
      LeavingNext(edges, ids, k, ids[a]);
    }
  }

  /** The table of linked pairs holds every edge, both ways round, and nothing else. */
  ghost predicate Records(edges: seq<Edge>, linked: set<(StepId, StepId)>) {
    && (forall e :: e in edges ==> (e.from, e.to) in linked && (e.to, e.from) in linked)
    && OnlyEdges(edges, linked)
  }

  method LinkedPairs(edges: seq<Edge>) returns (linked: set<(StepId, StepId)>)
    ensures Records(edges, linked)
  {
    linked := {};
    for i := 0 to |edges|
      invariant forall j :: 0 <= j < i ==>
        (edges[j].from, edges[j].to) in linked && (edges[j].to, edges[j].from) in linked
      invariant OnlyEdges(edges, linked)
    {
      assert edges[i] in edges;
      linked := linked + {(edges[i].from, edges[i].to), (edges[i].to, edges[i].from)};
    }
  }

  /** What planning feeds the scheduler is what the scheduler's guarantee asks for. */
  lemma NodesForMatch<O>(ops: seq<O>, edges: seq<Edge>, stepId: O -> StepId, nodes: seq<Node<O>>,
                         linked: set<(StepId, StepId)>)
    requires NodesFor(ops, edges, stepId, nodes)
    requires forall i, j :: 0 <= i < j < |ops| ==> stepId(ops[i]) != stepId(ops[j])
    requires forall i :: 0 <= i < |ops| ==> stepId(ops[i]) != 0
    requires Records(edges, linked)
    requires forall e :: e in edges ==> NamesTwo(ops, stepId, e)
    ensures NodesMatch(nodes, edges, linked, stepId)
  {
    forall e | e in edges ensures EdgeMatches(nodes, linked, e) {
      assert NamesTwo(ops, stepId, e);
      var a, b :| 0 <= a < |ops| && 0 <= b < |ops| && stepId(ops[a]) == e.from && stepId(ops[b]) == e.to;
      assert Between(nodes, e, a, b);
      assert Joins(nodes, linked, e, a, b);
    }
  }

  /** An edge joins two of the operations, as every derived edge does. */
  ghost predicate NamesTwo<O>(ops: seq<O>, stepId: O -> StepId, e: Edge) {
    exists a, b :: 0 <= a < |ops| && 0 <= b < |ops| && stepId(ops[a]) == e.from && stepId(ops[b]) == e.to
  }

  // ----- one scheduling run -----

  datatype Scheduled<S, O, C> = Scheduled(
    ok: bool, cancelled: bool, limitExceeded: bool,
    stages: seq<Stage>, steps: seq<Step<O, C>>, linear: seq<nat>, final: Option<S>)

  /** The search finds no order, or the stages sealed for the one it finds lead to a state from which the
      next step alone does not replay safely. */
  ghost predicate Unschedulable<S, O, C>(task: Task<S, O, C>, strategy: Strategy, reached: Timetable<S, O, C>) {
    match Greedy(task.w, task.nodes, strategy, {}, task.start)
    case None => true
    case Some(found) => Stranded(task, reached, found.0)
  }

  method RunSchedule<S(==), O, C>(w: World<S, O, C>, nodes: seq<Node<O>>, linked: set<(StepId, StepId)>,
                                  strategy: Strategy, limits: Limits, stop: nat -> bool, d: Diagnostics, s0: S)
    returns (r: Scheduled<S, O, C>, ghost t: Timetable<S, O, C>)
    requires NodesOk(nodes) && 0 < limits.maxStageWidth
    modifies d
    ensures d.schedulingAttempts == old(d.schedulingAttempts) + 1
    ensures d.statesVisited >= old(d.statesVisited) && d.permutationChecks >= old(d.permutationChecks)
    ensures r.cancelled ==> !r.ok && exists n: nat :: stop(n)
    ensures r.limitExceeded ==> !r.ok && !r.cancelled && d.Overdrawn(limits)
    ensures !r.ok && !r.cancelled && !r.limitExceeded ==>
      d.Overdrawn(limits) || Unschedulable(Task(w, nodes, linked, limits.maxStageWidth, s0), strategy, t)
    ensures r.ok ==>
      Finished(Task(w, nodes, linked, limits.maxStageWidth, s0), t) && r.stages == t.stages && r.steps == t.steps
    ensures r.ok ==> r.linear == Concat(t.batches) && r.final == Some(t.entries[|t.batches|])
    ensures r.ok ==> Greedy(w, nodes, strategy, {}, s0).Some? && r.linear == Greedy(w, nodes, strategy, {}, s0).value.0
    ensures r.ok ==> Topological(nodes, r.linear) && Follow(w, nodes, s0, r.linear).Some?
  {
    hide Topological, Greedy, Built, Stranded;
    d.schedulingAttempts := d.schedulingAttempts + 1;
    var search := new SearchContext(w, nodes, strategy, limits.maxStatesVisited, stop, d.statesVisited, s0);
    var found := search.SearchOrder();
    d.statesVisited := search.statesVisited;
    t := Timetable([], [], [], [s0]);
    if !found {
      return Scheduled(false, search.cancelled, search.limitExceeded, [], [], [], None), t;
    }
    var linear := search.order;
    LinearInRange(nodes, linear);
    var scheduler := new Scheduler(w, nodes, linked, limits, d, s0);
    var outcome := scheduler.Compress(linear);
    t := scheduler.Table();
    if outcome != Done {
      return Scheduled(false, false, outcome == OverLimit, [], [], [], None), t;
    }
    r := Scheduled(true, false, false, scheduler.stages, scheduler.steps, linear, Some(scheduler.state));
  }

  lemma LinearInRange<O>(nodes: seq<Node<O>>, linear: seq<nat>)
    requires Topological(nodes, linear)
    ensures InRange(nodes, linear)
  {
  }

  // ----- candidates -----

  /** What planning hands to verification: the plan of a finished schedule of the nodes made from
      the derived operations and their edges. */
  ghost predicate IsCandidate<S, O, C>(req: PlanRequest<S, O, C>, instant: int, nodes: seq<Node<O>>,
                                       linked: set<(StepId, StepId)>, t: Timetable<S, O, C>, plan: Plan<O, C>)
    requires req.derive(instant).Some?
  {
    var w := req.base.worldAt(instant);
    var ops, edges := req.derive(instant).value, EdgesOf(req, instant);
    && NodesFor(ops, edges, w.stepId, nodes) && Unrepeated(ops, w.stepId) && Records(edges, linked)
    && Finished(Task(w, nodes, linked, req.limits.maxStageWidth, req.base.state), t)
    && Carries(plan, t) && plan.edges == edges && plan.instant == instant
  }

  /** The model keeps to its side: genuine identities, edges between the operations, conditions for
      every step. */
  ghost predicate WellPosed<S(!new), O, C>(req: PlanRequest<S, O, C>, instant: int)
    requires req.derive(instant).Some?
  {
    var w, ops := req.base.worldAt(instant), req.derive(instant).value;
    && (forall i :: 0 <= i < |ops| ==> w.stepId(ops[i]) != 0)
    && (forall e :: e in EdgesOf(req, instant) ==> NamesTwo(ops, w.stepId, e))
    && (forall i, s: S :: 0 <= i < |ops| ==> HasConditions(w, s, ops[i]))
  }

  ghost predicate HasConditions<S, O, C>(w: World<S, O, C>, s: S, op: O) {
    w.preconditions(s, op) != [] && w.postconditions(s, op) != []
  }

  /** No stage of any candidate has two safe interleavings that end differently. */
  ghost predicate OrderNeverMatters<S(!new), O(!new), C(!new)>(req: PlanRequest<S, O, C>, instant: int)
    requires req.derive(instant).Some?
  {
    forall nodes, linked, t, plan, k, entry :: IsCandidate(req, instant, nodes, linked, t, plan) ==>
      !OrderDependence(req.base.worldAt(instant), plan, k, entry)
  }

  lemma CandidateMatches<S(!new), O, C>(req: PlanRequest<S, O, C>, instant: int, nodes: seq<Node<O>>,
                                        linked: set<(StepId, StepId)>, t: Timetable<S, O, C>, plan: Plan<O, C>)
    requires req.derive(instant).Some? && IsCandidate(req, instant, nodes, linked, t, plan) && WellPosed(req, instant)
    ensures NodesMatch(nodes, plan.edges, linked, req.base.worldAt(instant).stepId)
    ensures AllConditioned(Task(req.base.worldAt(instant), nodes, linked, req.limits.maxStageWidth, req.base.state), t)
  {
    hide BatchVerified, Topological;
    var w, ops := req.base.worldAt(instant), req.derive(instant).value;
    NodesForMatch(ops, plan.edges, w.stepId, nodes, linked);
    forall k, j | 0 <= k < |t.batches| && 0 <= j < |t.batches[k]|
      ensures Conditioned(w, nodes, t.entries[k], t.batches[k][j])
    {
      assert InRange(nodes, t.batches[k]);
      assert HasConditions(w, t.entries[k], ops[t.batches[k][j]]);
    }
  }

  /** Every candidate is well formed, so verification gets as far as replaying its stages. */
  lemma CandidateIsAdmitted<S(!new), O, C>(req: PlanRequest<S, O, C>, instant: int, nodes: seq<Node<O>>,
                                           linked: set<(StepId, StepId)>, t: Timetable<S, O, C>, plan: Plan<O, C>)
    requires req.derive(instant).Some? && IsCandidate(req, instant, nodes, linked, t, plan) && WellPosed(req, instant)
    requires HeaderOk(plan) && plan.binding == req.base.binding && !req.base.worldAt(instant).violated(req.base.state)
    requires req.derive(instant).value != []
    ensures Admitted(plan, req.base)
  {
    hide Finished, NodesMatch, AllConditioned, StructureOk, WellPosed;
    CandidateMatches(req, instant, nodes, linked, t, plan);
    ScheduleIsWellFormed(Task(req.base.worldAt(instant), nodes, linked, req.limits.maxStageWidth, req.base.state), t,
                         plan.edges, plan);
  }

  /** A candidate lists its stages ascending and performs exactly the operations it was scheduled
      from. */
  lemma CandidateShape<S, O, C>(req: PlanRequest<S, O, C>, instant: int, nodes: seq<Node<O>>,
                                linked: set<(StepId, StepId)>, t: Timetable<S, O, C>, plan: Plan<O, C>)
    requires req.derive(instant).Some? && IsCandidate(req, instant, nodes, linked, t, plan) && StagesOk(plan)
    ensures ListsAscend(plan.stages)
    ensures forall k :: 0 <= k < |plan.stages| ==> |plan.stages[k].steps| <= req.limits.maxStageWidth
    ensures Performs(plan, req.derive(instant).value)
  {
    hide BatchVerified, Topological;
    var w, ops, linear := req.base.worldAt(instant), req.derive(instant).value, Concat(t.batches);
    var task := Task(w, nodes, linked, req.limits.maxStageWidth, req.base.state);
    forall k | 0 <= k < |plan.stages| ensures Ascending(plan.stages[k].steps) && |plan.stages[k].steps| <= task.width {
      assert Sealed(task, t.stages[k], k, t.batches[k], t.entries[k], t.entries[k + 1]);
      assert StageOk(plan, k);
      SortOrdered(BatchIds(nodes, t.batches[k]), (id: nat) => id);
    }
    StepCount(w, nodes, t.batches, t.entries);
    LinearIsOrder(nodes, linear);
    forall i | 0 <= i < |linear| ensures linear[i] < |ops| && plan.steps[i].op == ops[linear[i]] {
      StepsAreLinear(w, nodes, t.batches, t.entries, i);
    }
    assert PerformsInOrder(plan, ops, linear);
  }

  lemma LinearIsOrder<O>(nodes: seq<Node<O>>, linear: seq<nat>)
    requires Topological(nodes, linear) && |linear| == |nodes|
    ensures IsOrder(linear, |nodes|)
  {
    AllMeans(nodes);
    DistinctSize(linear);
    assert Elements(linear) <= All(nodes);
    assert All(nodes) == Elements(linear) + (All(nodes) - Elements(linear));
  }

  /** The search succeeds under one of the strategies, so that the request can be scheduled at all. */
  ghost predicate SomeSearchSucceeds<S, O(!new), C>(req: PlanRequest<S, O, C>, instant: int)
    requires req.derive(instant).Some?
  {
    exists k, nodes :: 0 <= k < |req.strategies| && SearchSucceeds(req, instant, k, nodes)
  }

  ghost predicate SearchSucceeds<S, O, C>(req: PlanRequest<S, O, C>, instant: int, k: nat, nodes: seq<Node<O>>)
    requires req.derive(instant).Some? && k < |req.strategies|
  {
    var w := req.base.worldAt(instant);
    && NodesFor(req.derive(instant).value, EdgesOf(req, instant), w.stepId, nodes)
    && Greedy(w, nodes, req.strategies[k](nodes), {}, req.base.state).Some?
  }

  lemma MakeCandidate<S, O, C>(req: PlanRequest<S, O, C>, instant: int, nodes: seq<Node<O>>,
                               linked: set<(StepId, StepId)>, t: Timetable<S, O, C>, plan: Plan<O, C>)
    requires req.derive(instant).Some? && req.derive(instant).value != []
    requires var w, ops := req.base.worldAt(instant), req.derive(instant).value;
      && NodesFor(ops, req.dependencies(instant, ops), w.stepId, nodes) && Unrepeated(ops, w.stepId)
      && Records(req.dependencies(instant, ops), linked) && plan.edges == req.dependencies(instant, ops)
      && Finished(Task(w, nodes, linked, req.limits.maxStageWidth, req.base.state), t)
    requires Carries(plan, t) && plan.instant == instant
    ensures IsCandidate(req, instant, nodes, linked, t, plan)
  {
  }

  lemma NotToBlame<S(!new), O(!new), C(!new)>(req: PlanRequest<S, O, C>, instant: int, nodes: seq<Node<O>>,
      linked: set<(StepId, StepId)>, t: Timetable<S, O, C>, plan: Plan<O, C>, k: Option<nat>, entry: S)
    requires req.derive(instant).Some? && OrderNeverMatters(req, instant)
    requires IsCandidate(req, instant, nodes, linked, t, plan)
    ensures !OrderDependence(req.base.worldAt(instant), plan, k, entry)
  {
  }

  lemma FinishedCounts<S, O, C>(task: Task<S, O, C>, t: Timetable<S, O, C>)
    requires Finished(task, t)
    ensures Topological(task.nodes, Concat(t.batches)) && |Concat(t.batches)| == |task.nodes|
  {
  }

  ghost predicate BindingOk(b: Binding) {
    b.authority != 0 && b.topologyDigest != 0 && b.targetDigest != 0 && b.constraintDigest != 0 && b.evidenceDigest != 0
  }

  lemma NodesForOk<O>(ops: seq<O>, edges: seq<Edge>, stepId: O -> StepId, nodes: seq<Node<O>>)
    requires NodesFor(ops, edges, stepId, nodes)
    ensures NodesOk(nodes)
  {
  }

  /** The empty plan for a target that is already reached. */
  lemma ConvergedIsSound<S, O, C>(req: PlanRequest<S, O, C>, plan: Plan<O, C>)
    requires req.id != 0 && BindingOk(req.base.binding)
    requires plan.id == req.id && plan.binding == req.base.binding && plan.stages == [] && plan.steps == []
    requires plan.edges == []
    requires !req.base.worldAt(plan.instant).violated(req.base.state)
    requires req.derive(plan.instant) == Some([])
    ensures Sound(plan, req)
  {
    assert Identity(0) == [];
    assert PerformsInOrder(plan, [], []);
    assert WalksAlong(req.base.worldAt(plan.instant), req.base.state, [], []);
  }

  lemma CandidateIsSound<S, O, C>(req: PlanRequest<S, O, C>, instant: int, nodes: seq<Node<O>>,
                                  linked: set<(StepId, StepId)>, t: Timetable<S, O, C>, plan: Plan<O, C>)
    requires req.derive(instant).Some? && IsCandidate(req, instant, nodes, linked, t, plan)
    requires Verified(plan, req.base, true)
    requires Walks(req.base.worldAt(instant), req.base.state, req.derive(instant).value)
    ensures Sound(plan, req)
  {
    hide Finished, NodesFor, Performs, Walks;
    StructureHasStages(plan, req.base.worldAt(instant).stepId);
    CandidateShape(req, instant, nodes, linked, t, plan);
  }

  lemma SoundMetadata<S, O, C>(req: PlanRequest<S, O, C>, p: Plan<O, C>, q: Plan<O, C>)
    requires SameWork(p, q) && Sound(p, req)
    ensures Sound(q, req)
  {
    hide Verified, Walks;
    MetadataIsFree(p, q, req.base);
    var ops := req.derive(p.instant).value;
    var order :| PerformsInOrder(p, ops, order);
    assert PerformsInOrder(q, ops, order);
  }

  /** The instant a request is planned for: its own, or the one the work derived for it can be
      shifted to. */
  function ChosenInstant<S, O, C>(req: PlanRequest<S, O, C>): int {
    var derived := req.derive(req.base.instant);
    if !req.allowShift || derived == None then req.base.instant
    else
      match req.shift(derived.value)
      case None => req.base.instant
      case Some(later) => later
  }

  /** The work can be shifted to no instant. */
  predicate NoInstant<S, O, C>(req: PlanRequest<S, O, C>) {
    && req.allowShift && req.derive(req.base.instant).Some?
    && req.shift(req.derive(req.base.instant).value) == None
  }

  /** The guarantee a caller gets, end to end: whatever order a runtime chooses inside the stages
      of a returned plan, every step is accepted with its conditions met, no obligation is ever
      broken, every edge is honoured, and all executions end in one and the same state. */
  lemma ReturnedPlansAreSafe<S, O, C>(plan: Plan<O, C>, req: PlanRequest<S, O, C>, r: seq<StepId>)
    requires Sound(plan, req) && Execution(plan, |plan.stages|, r)
    ensures StagesOk(plan) && Found(plan, r)
    ensures var w := req.base.worldAt(plan.instant);
      && CanonicalState(w, plan, req.base.state, |plan.stages|).Some?
      && Run(w, req.base.state, ActionsOf(plan, r)) == CanonicalState(w, plan, req.base.state, |plan.stages|)
    ensures plan.steps != [] ==> forall e :: e in plan.edges ==>
      exists i, j :: 0 <= i < j < |r| && r[i] == e.from && r[j] == e.to
  {
    hide StructureOk, Execution;
    var w := req.base.worldAt(plan.instant);
    StructureHasStages(plan, w.stepId);
    PassingMeansSafe(w, plan, req.base.state);
    assert AllExecutionsSafe(w, plan, req.base.state, |plan.stages|);
    assert EndsIn(w, plan, req.base.state, r, CanonicalState(w, plan, req.base.state, |plan.stages|));
    if plan.steps != [] {
      forall e | e in plan.edges ensures exists i, j :: 0 <= i < j < |r| && r[i] == e.from && r[j] == e.to {
        EdgesHonoured(plan, w.stepId, r, e);
      }
    }
  }
}
