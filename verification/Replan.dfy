/** Replanning after a partial execution: a stage of compensations is put in front of the
    continuation, everything behind it moves one stage on, and the whole is verified again. */
module Replan {
  import opened Wrappers
  import opened Permutations
  import opened Sorting
  import opened Worlds
  import opened Kahn
  import opened Plans
  import opened Verification
  import opened Interleavings

  function ShiftStage(stage: Stage): Stage { stage.(index := stage.index + 1) }

  function ShiftStep<O, C>(step: Step<O, C>): Step<O, C> { step.(stage := step.stage + 1) }

  function ShiftStages(stages: seq<Stage>): seq<Stage> {
    seq(|stages|, i requires 0 <= i < |stages| => ShiftStage(stages[i]))
  }

  function ShiftSteps<O, C>(steps: seq<Step<O, C>>): (r: seq<Step<O, C>>)
    ensures |r| == |steps|
  {
    seq(|steps|, i requires 0 <= i < |steps| => ShiftStep(steps[i]))
  }

  /** The compensation stage in front, the continuation one stage later.  Steps are put in front
      one by one, so they end up in reverse. */
  function Prepended<O, C>(plan: Plan<O, C>, comps: seq<Step<O, C>>, edges: seq<Edge>): Plan<O, C> {
    plan.(stages := [Stage(0, Ids(comps), 1, |comps|)] + ShiftStages(plan.stages),
          steps := Reverse(comps) + ShiftSteps(plan.steps),
          edges := edges)
  }

  // ----- the transformation keeps plans well formed -----

  ghost predicate CompsOk<O, C>(comps: seq<Step<O, C>>, stepId: O -> StepId) {
    && comps != [] && Ascending(Ids(comps))
    && forall i :: 0 <= i < |comps| ==> StepOk(comps[i], stepId) && comps[i].stage == 0
  }

  ghost predicate Fresh<O, C>(plan: Plan<O, C>, comps: seq<Step<O, C>>) {
    forall i, j :: 0 <= i < |comps| && 0 <= j < |plan.steps| ==> comps[i].id != plan.steps[j].id
  }

  /** An edge of the new plan is an old one, or leads from a compensation to a later step. */
  ghost predicate EdgeFrom<O, C>(plan: Plan<O, C>, comps: seq<Step<O, C>>, e: Edge) {
    e in plan.edges || (e.from in Ids(comps) && e.to in Ids(plan.steps))
  }

  lemma PrependedIds<O, C>(plan: Plan<O, C>, comps: seq<Step<O, C>>, edges: seq<Edge>)
    requires Ascending(Ids(comps)) && Fresh(plan, comps) && Distinct(Ids(plan.steps))
    ensures Distinct(Ids(Prepended(plan, comps, edges).steps))
  {
    var r := Prepended(plan, comps, edges);
    var ids, n := Ids(r.steps), |comps|;
    forall i, j | 0 <= i < j < |ids| ensures ids[i] != ids[j] {
      if j < n {
        assert Ids(comps)[n - 1 - j] < Ids(comps)[n - 1 - i];
      } else if i < n {
        assert comps[n - 1 - i].id != plan.steps[j - n].id;
      } else {
        assert Ids(plan.steps)[i - n] != Ids(plan.steps)[j - n];
      }
    }
  }

  /** Where the new plan finds what the old one had: the same step, one stage later. */
  lemma FindShifted<O, C>(plan: Plan<O, C>, comps: seq<Step<O, C>>, edges: seq<Edge>, id: StepId)
    requires Distinct(Ids(Prepended(plan, comps, edges).steps)) && FindStep(plan, id).Some?
    ensures FindStep(Prepended(plan, comps, edges), id) == Some(ShiftStep(FindStep(plan, id).value))
  {
    var r, k := Prepended(plan, comps, edges), IndexOf(plan.steps, id);
    FindOwn(r, |comps| + k);
  }

  lemma FindComp<O, C>(plan: Plan<O, C>, comps: seq<Step<O, C>>, edges: seq<Edge>, i: nat)
    requires Distinct(Ids(Prepended(plan, comps, edges).steps)) && i < |comps|
    ensures FindStep(Prepended(plan, comps, edges), comps[i].id) == Some(comps[i])
  {
    var r := Prepended(plan, comps, edges);
    assert r.steps[|comps| - 1 - i] == comps[i];
    FindOwn(r, |comps| - 1 - i);
  }

  lemma PrependedStages<O, C>(plan: Plan<O, C>, comps: seq<Step<O, C>>, edges: seq<Edge>, stepId: O -> StepId, k: nat)
    requires StructureOk(plan, stepId) && CompsOk(comps, stepId) && k <= |plan.stages|
    requires Distinct(Ids(Prepended(plan, comps, edges).steps))
    ensures StageOk(Prepended(plan, comps, edges), k)
  {
    var r := Prepended(plan, comps, edges);
    if k == 0 {
      AscendingDistinct(Ids(comps));
      forall id | id in Ids(comps) ensures FindStep(r, id).Some? && FindStep(r, id).value.stage == 0 {
        var i :| 0 <= i < |comps| && Ids(comps)[i] == id;
        FindComp(plan, comps, edges, i);
      }
      assert r.stages[0].steps == Ids(comps) && Ids(comps) != [];
    } else {
      assert StageOk(plan, k - 1);
      assert r.stages[k] == ShiftStage(plan.stages[k - 1]);
      forall id | id in plan.stages[k - 1].steps ensures FindStep(r, id).Some? && FindStep(r, id).value.stage == k {
        FindShifted(plan, comps, edges, id);
      }
    }
  }

  lemma CompListed<O, C>(plan: Plan<O, C>, comps: seq<Step<O, C>>, edges: seq<Edge>, stepId: O -> StepId, i: nat)
    requires CompsOk(comps, stepId) && i < |comps|
    ensures StepOk(comps[i], stepId) && Listed(Prepended(plan, comps, edges), comps[i])
  {
    hide StepOk, Ascending;
    assert Ids(comps)[i] == comps[i].id;
  }

  lemma ShiftedListed<O, C>(plan: Plan<O, C>, comps: seq<Step<O, C>>, edges: seq<Edge>, stepId: O -> StepId,
                            step: Step<O, C>)
    requires StepOk(step, stepId) && Listed(plan, step)
    ensures StepOk(ShiftStep(step), stepId) && Listed(Prepended(plan, comps, edges), ShiftStep(step))
  {
    hide Ids, Reverse;
    assert Prepended(plan, comps, edges).stages[step.stage + 1] == ShiftStage(plan.stages[step.stage]);
  }

  lemma PrependedSteps<O, C>(plan: Plan<O, C>, comps: seq<Step<O, C>>, edges: seq<Edge>, stepId: O -> StepId, i: nat)
    requires StructureOk(plan, stepId) && CompsOk(comps, stepId) && i < |Prepended(plan, comps, edges).steps|
    ensures var r := Prepended(plan, comps, edges); StepOk(r.steps[i], stepId) && Listed(r, r.steps[i])
  {
    hide StepOk, Listed, StageOk, EdgeOk, Ascending;
    var r, n := Prepended(plan, comps, edges), |comps|;
    if i < n {
      CompListed(plan, comps, edges, stepId, n - 1 - i);
    } else {
      assert r.steps[i] == ShiftStep(plan.steps[i - n]);
      ShiftedListed(plan, comps, edges, stepId, plan.steps[i - n]);
    }
  }

  lemma PrependedEdge<O, C>(plan: Plan<O, C>, comps: seq<Step<O, C>>, edges: seq<Edge>, stepId: O -> StepId, e: Edge)
    requires StructureOk(plan, stepId) && CompsOk(comps, stepId) && EdgeFrom(plan, comps, e)
    requires plan.steps != [] || plan.edges == []
    requires Distinct(Ids(plan.steps)) && Distinct(Ids(Prepended(plan, comps, edges).steps))
    ensures EdgeOk(Prepended(plan, comps, edges), e)
  {
    if e in plan.edges {
      assert EdgeOk(plan, e);
      FindShifted(plan, comps, edges, e.from);
      FindShifted(plan, comps, edges, e.to);
    } else {
      var i :| 0 <= i < |comps| && Ids(comps)[i] == e.from;
      var j :| 0 <= j < |plan.steps| && Ids(plan.steps)[j] == e.to;
      FindComp(plan, comps, edges, i);
      FindOwn(plan, j);
      FindShifted(plan, comps, edges, e.to);
    }
  }

  /** Putting a stage of fresh, genuine compensations in front of a well-formed plan and shifting
      the rest gives a well-formed plan. */
  lemma PrependKeepsStructure<O, C>(plan: Plan<O, C>, comps: seq<Step<O, C>>, edges: seq<Edge>, stepId: O -> StepId)
    requires StructureOk(plan, stepId) && (plan.steps != [] || plan.edges == [])
    requires CompsOk(comps, stepId) && Fresh(plan, comps)
    requires forall e :: e in edges ==> EdgeFrom(plan, comps, e)
    ensures StructureOk(Prepended(plan, comps, edges), stepId)
  {
    hide StageOk, StepOk, Listed, EdgeOk, EdgeFrom, FindStep, Ascending;
    var r := Prepended(plan, comps, edges);
    DistinctSteps(plan, stepId);
    PrependedIds(plan, comps, edges);
    forall k | 0 <= k < |r.stages| ensures StageOk(r, k) { PrependedStages(plan, comps, edges, stepId, k); }
    forall i | 0 <= i < |r.steps| ensures StepOk(r.steps[i], stepId) && Listed(r, r.steps[i]) {
      PrependedSteps(plan, comps, edges, stepId, i);
    }
    forall e | e in r.edges ensures EdgeOk(r, e) { PrependedEdge(plan, comps, edges, stepId, e); }
  }

  lemma DistinctSteps<O, C>(plan: Plan<O, C>, stepId: O -> StepId)
    requires StructureOk(plan, stepId)
    ensures Distinct(Ids(plan.steps))
  {
  }

  // ----- building it -----

  /** Every compensation is accepted after the ones before it, and none of the states passed
      through breaks an obligation. */
  ghost predicate Clean<S, O, C>(w: World<S, O, C>, s0: S, ops: seq<O>) {
    forall i :: 0 <= i <= |ops| ==>
      Replay(w, s0, ops[..i]).Some? && (i > 0 ==> !w.violated(Replay(w, s0, ops[..i]).value))
  }

  /** The step made of the `i`-th compensation: preconditions from the state the ones before it
      reach, postconditions from the observed state. */
  ghost predicate Compensates<S, O, C>(w: World<S, O, C>, s0: S, ops: seq<O>, justified: bool, i: nat, c: Step<O, C>)
    requires i < |ops|
  {
    var before := Replay(w, s0, ops[..i]);
    before.Some? &&
    c == Step(w.stepId(ops[i]), 0, ops[i],
              w.preconditions(before.value, ops[i]), w.postconditions(s0, ops[i]), justified)
  }

  ghost predicate AllCompensate<S, O, C>(w: World<S, O, C>, s0: S, ops: seq<O>, justified: bool,
                                         comps: seq<Step<O, C>>) {
    |comps| == |ops| && forall i :: 0 <= i < |ops| ==> Compensates(w, s0, ops, justified, i, comps[i])
  }

  lemma ReplayNext<S, O, C>(w: World<S, O, C>, s0: S, ops: seq<O>, i: nat)
    requires i < |ops|
    ensures Replay(w, s0, ops[..i + 1]) ==
      match Replay(w, s0, ops[..i]) case None => None case Some(t) => w.apply(t, ops[i])
  {
    assert ops[..i + 1] == ops[..i] + [ops[i]];
    ReplayAppend(w, s0, ops[..i], [ops[i]]);
    if Replay(w, s0, ops[..i]).Some? { ReplayOne(w, Replay(w, s0, ops[..i]).value, ops[i]); }
  }

  /** Applies the compensations one after the other from the observed state; gives up as soon as
      one is rejected or would break an obligation. */
  method DeriveCompensations<S, O, C>(w: World<S, O, C>, s0: S, ops: seq<O>, justified: bool)
    returns (comps: Option<seq<Step<O, C>>>)
    ensures comps.Some? <==> Clean(w, s0, ops)
    ensures comps.Some? ==> AllCompensate(w, s0, ops, justified, comps.value)
  {
    var steps: seq<Step<O, C>> := [];
    var state := s0;
    for i := 0 to |ops|
      invariant |steps| == i && Replay(w, s0, ops[..i]) == Some(state)
      invariant forall k :: 0 <= k <= i ==>
        Replay(w, s0, ops[..k]).Some? && (k > 0 ==> !w.violated(Replay(w, s0, ops[..k]).value))
      invariant forall j :: 0 <= j < i ==> Compensates(w, s0, ops, justified, j, steps[j])
    {
      ReplayNext(w, s0, ops, i);
      var pre := w.preconditions(state, ops[i]);
      var next := w.apply(state, ops[i]);
      if next == None { return None; }
      state := next.value;
      if w.violated(state) { return None; }
      steps := steps + [Step(w.stepId(ops[i]), 0, ops[i], pre, w.postconditions(s0, ops[i]), justified)];
    }
    comps := Some(steps);
  }

  method RetryEdges<O, C>(plan: Plan<O, C>, comps: seq<Step<O, C>>, overlap: (O, O) -> bool) returns (edges: seq<Edge>)
    ensures forall e :: e in edges <==>
      exists i, j :: 0 <= i < |comps| && 0 <= j < |plan.steps| && Retried(plan, comps, overlap, i, j, e)
  {
    edges := [];
    for i := 0 to |comps|
      invariant forall e :: e in edges <==>
        exists p, j :: 0 <= p < i && 0 <= j < |plan.steps| && Retried(plan, comps, overlap, p, j, e)
    {
      for j := 0 to |plan.steps|
        invariant forall e :: e in edges <==>
          exists p, q ::
            0 <= p <= i && 0 <= q < |plan.steps| && (p < i || q < j) && Retried(plan, comps, overlap, p, q, e)
      {
        if overlap(comps[i].op, plan.steps[j].op) {
          var e := Edge(comps[i].id, plan.steps[j].id);
          assert Retried(plan, comps, overlap, i, j, e);
          edges := edges + [e];
        }
      }
    }
  }

  /** The compensation writes what the later step writes, so it comes first. */
  ghost predicate Retried<O, C>(plan: Plan<O, C>, comps: seq<Step<O, C>>, overlap: (O, O) -> bool, i: nat, j: nat,
                                e: Edge)
    requires i < |comps| && j < |plan.steps|
  {
    overlap(comps[i].op, plan.steps[j].op) && e == Edge(comps[i].id, plan.steps[j].id)
  }

  /** The edges that are added: from each compensation to each step that writes what it writes. */
  ghost predicate Adds<O, C>(plan: Plan<O, C>, comps: seq<Step<O, C>>, overlap: (O, O) -> bool, e: Edge) {
    exists i, j :: 0 <= i < |comps| && 0 <= j < |plan.steps| && Retried(plan, comps, overlap, i, j, e)
  }

  /** What is made of the continuation: the steps of the compensations, in order of their identities, in a
      stage of their own in front of it, and the edges from them to the steps that write the same. */
  ghost predicate Extends<S, O, C>(plan: Plan<O, C>, request: Request<S, O, C>, order: seq<O>, justified: bool,
                                   overlap: (O, O) -> bool, comps: seq<Step<O, C>>, made: Plan<O, C>) {
    && AllCompensate(request.worldAt(request.instant), request.state, order, justified, comps)
    && made == Prepended(plan, comps, made.edges)
    && forall e :: e in made.edges <==> e in plan.edges || Adds(plan, comps, overlap, e)
  }

  /** Operations by the identities of the steps they make. */
  ghost predicate InStepOrder<O>(order: seq<O>, stepId: O -> StepId) {
    forall i, j :: 0 <= i < j < |order| ==> stepId(order[i]) <= stepId(order[j])
  }

  /** Prepends compensations to a continuation.  It gives up exactly if a compensation is rejected or
      breaks an obligation, or if the plan made does not pass structural checks and exhaustive verification
      against the observed state; otherwise it returns that plan. */
  method PrependCompensations<S(==), O(==, !new), C>(plan: Plan<O, C>, request: Request<S, O, C>, ops: seq<O>,
                                                     justified: bool, overlap: (O, O) -> bool)
    returns (r: Option<Plan<O, C>>, ghost order: seq<O>, ghost comps: seq<Step<O, C>>, ghost made: Option<Plan<O, C>>)
    ensures multiset(order) == multiset(ops) && InStepOrder(order, request.worldAt(request.instant).stepId)
    ensures made.Some? <==> Clean(request.worldAt(request.instant), request.state, order)
    ensures made.Some? ==> Extends(plan, request, order, justified, overlap, comps, made.value)
    ensures r == if made.Some? && Verified(made.value, request, true) then made else None
    ensures r.Some? ==> Ascending(Ids(comps))
  {
    hide Verified, StructureOk, Prepended, Retried, Ascending, Clean, AllCompensate;
    comps, made := [], None;
    var w := request.worldAt(request.instant);
    var key: O -> int := op => w.stepId(op);
    var sorted := Sort(ops, ByKey(key));
    SortOrdered(ops, key);
    SortKeeps(ops, ByKey(key));
    order := sorted;
    assert InStepOrder(order, w.stepId) by {
      forall i, j | 0 <= i < j < |order| ensures w.stepId(order[i]) <= w.stepId(order[j]) {
        assert key(order[i]) <= key(order[j]);
      }
    }
    var derived := DeriveCompensations(w, request.state, sorted, justified);
    if derived == None { return None, order, comps, made; }
    comps := derived.value;
    var retries := RetryEdges(plan, derived.value, overlap);
    var prepended := Prepended(plan, derived.value, plan.edges + retries);
    made := Some(prepended);
    PrependedMeans(plan, comps, plan.edges + retries);
    var verified := request.worldAt(plan.instant);
    var fault := VerifyStructure(prepended, verified.stepId);
    VerifiedIsSound(prepended, request);
    if fault != None { return None, order, comps, made; }
    var report, _ := VerifyPlan(prepended, request, true);
    if !report.ok { return None, order, comps, made; }
    CompsAscend(w, request.state, order, justified, comps);
    StrictlyAscending(plan, comps, plan.edges + retries, verified.stepId);
    r := Some(prepended);
  }

  lemma VerifiedIsSound<S, O, C>(plan: Plan<O, C>, request: Request<S, O, C>)
    ensures Verified(plan, request, true) ==> StructureOk(plan, request.worldAt(plan.instant).stepId)
  {
  }

  lemma CompsAscend<S, O, C>(w: World<S, O, C>, s0: S, order: seq<O>, justified: bool, comps: seq<Step<O, C>>)
    requires AllCompensate(w, s0, order, justified, comps) && InStepOrder(order, w.stepId)
    ensures forall i, j :: 0 <= i < j < |comps| ==> comps[i].id <= comps[j].id
  {
    forall i, j | 0 <= i < j < |comps| ensures comps[i].id <= comps[j].id {
      assert Compensates(w, s0, order, justified, i, comps[i]);
      assert Compensates(w, s0, order, justified, j, comps[j]);
    }
  }

  lemma PrependedMeans<O, C>(plan: Plan<O, C>, comps: seq<Step<O, C>>, edges: seq<Edge>)
    ensures Prepended(plan, comps, edges).edges == edges && Prepended(plan, comps, edges).instant == plan.instant
  {
  }

  lemma StrictlyAscending<O, C>(plan: Plan<O, C>, comps: seq<Step<O, C>>, edges: seq<Edge>, stepId: O -> StepId)
    requires StructureOk(Prepended(plan, comps, edges), stepId)
    requires forall i, j :: 0 <= i < j < |comps| ==> comps[i].id <= comps[j].id
    ensures Ascending(Ids(comps))
  {
    var r := Prepended(plan, comps, edges);
    if comps != [] {
      assert StageOk(r, 0);
      assert r.stages[0].steps == Ids(comps);
      forall i, j | 0 <= i < j < |comps| ensures Ids(comps)[i] < Ids(comps)[j] {
        assert Ids(comps)[i] != Ids(comps)[j];
      }
    }
  }

  lemma AscendShifted<O, C>(plan: Plan<O, C>, comps: seq<Step<O, C>>, edges: seq<Edge>)
    requires Ascending(Ids(comps))
    ensures ListsAscend(plan.stages) ==> ListsAscend(Prepended(plan, comps, edges).stages)
    ensures Prepended(plan, comps, edges).stages[1..] == ShiftStages(plan.stages)
  {
    var r := Prepended(plan, comps, edges);
    if ListsAscend(plan.stages) {
      forall k | 0 <= k < |r.stages| ensures Ascending(r.stages[k].steps) {
        if k > 0 {
          assert r.stages[k] == ShiftStage(plan.stages[k - 1]);
          assert Ascending(plan.stages[k - 1].steps);
        }
      }
    }
  }

  /** In every execution of the result, all compensations come before the first retried step. */
  lemma CompensationsComeFirst<O, C>(plan: Plan<O, C>, comps: seq<Step<O, C>>, edges: seq<Edge>, r: seq<StepId>, i: nat,
                                     j: nat)
    requires var p := Prepended(plan, comps, edges);
      Distinct(Ids(p.steps)) && Execution(p, |p.stages|, r)
    requires forall a :: 0 <= a < |comps| ==> comps[a].stage == 0
    requires i < |r| && j < |r| && r[i] in Ids(comps) && r[j] in Ids(plan.steps)
    ensures i < j
  {
    hide Prepended, FindStep, StageOf;
    var p := Prepended(plan, comps, edges);
    var a :| 0 <= a < |comps| && Ids(comps)[a] == r[i];
    var b :| 0 <= b < |plan.steps| && Ids(plan.steps)[b] == r[j];
    CompStage(plan, comps, edges, a);
    LaterStage(plan, comps, edges, b);
    assert StageOf(p, r[i]) < StageOf(p, r[j]);
  }

  lemma LaterStage<O, C>(plan: Plan<O, C>, comps: seq<Step<O, C>>, edges: seq<Edge>, b: nat)
    requires b < |plan.steps| && Distinct(Ids(Prepended(plan, comps, edges).steps))
    ensures StageOf(Prepended(plan, comps, edges), plan.steps[b].id) == plan.steps[b].stage + 1
  {
    var p := Prepended(plan, comps, edges);
    assert p.steps[|comps| + b] == ShiftStep(plan.steps[b]);
    FindOwn(p, |comps| + b);
  }

  lemma CompStage<O, C>(plan: Plan<O, C>, comps: seq<Step<O, C>>, edges: seq<Edge>, a: nat)
    requires a < |comps| && Distinct(Ids(Prepended(plan, comps, edges).steps))
    ensures StageOf(Prepended(plan, comps, edges), comps[a].id) == comps[a].stage
  {
    FindComp(plan, comps, edges, a);
  }

  // ----- what is in front, and what behind -----

  /** What prepending comes to: one more stage, in front, that lists the compensations and counts as one
      interleaving of them; the stages and steps of the continuation one stage later and otherwise as they
      were; and nothing else but the edges changed. */
  ghost predicate InFront<O, C>(plan: Plan<O, C>, comps: seq<Step<O, C>>, p: Plan<O, C>) {
    && |p.stages| == |plan.stages| + 1 && p.stages[0].index == 0 && p.stages[0].steps == Ids(comps)
    && p.stages[0].verifiedPermutations == 1 && p.stages[0].verifiedApplications == |comps|
    && (forall k :: 0 <= k < |plan.stages| ==>
          && p.stages[k + 1].index == plan.stages[k].index + 1 && p.stages[k + 1].steps == plan.stages[k].steps
          && p.stages[k + 1].verifiedPermutations == plan.stages[k].verifiedPermutations
          && p.stages[k + 1].verifiedApplications == plan.stages[k].verifiedApplications)
    && (forall i :: 0 <= i < |p.steps| ==> p.steps[i] in comps || Later(plan, p.steps[i]))
    && (forall i :: 0 <= i < |comps| ==> comps[i] in p.steps)
    && (forall j :: 0 <= j < |plan.steps| ==> Moved(p, plan.steps[j]))
    && |p.steps| == |comps| + |plan.steps|
    && p.id == plan.id && p.binding == plan.binding && p.instant == plan.instant
    && p.verificationDigest == plan.verificationDigest && p.verifiedPermutations == plan.verifiedPermutations
    && p.rejected == plan.rejected && p.title == plan.title
  }

  /** A step of the plan, one stage later. */
  ghost predicate Later<O, C>(plan: Plan<O, C>, step: Step<O, C>) {
    exists j :: 0 <= j < |plan.steps| && OneLater(plan.steps[j], step)
  }

  ghost predicate Moved<O, C>(p: Plan<O, C>, was: Step<O, C>) {
    exists i :: 0 <= i < |p.steps| && OneLater(was, p.steps[i])
  }

  ghost predicate OneLater<O, C>(was: Step<O, C>, now: Step<O, C>) {
    && now.stage == was.stage + 1 && now.id == was.id && now.op == was.op && now.pre == was.pre
    && now.post == was.post && now.justified == was.justified
  }

  lemma PrependedExactly<O, C>(plan: Plan<O, C>, comps: seq<Step<O, C>>, edges: seq<Edge>)
    ensures InFront(plan, comps, Prepended(plan, comps, edges))
  {
    var p, n := Prepended(plan, comps, edges), |comps|;
    assert forall k :: 0 <= k < |plan.stages| ==> p.stages[k + 1] == ShiftStage(plan.stages[k]);
    assert forall j :: 0 <= j < |plan.steps| ==> p.steps[n + j] == ShiftStep(plan.steps[j]);
    forall i | 0 <= i < |p.steps| ensures p.steps[i] in comps || Later(plan, p.steps[i]) {
      if i < n { assert p.steps[i] == comps[n - 1 - i]; } else { assert OneLater(plan.steps[i - n], p.steps[i]); }
    }
    forall i | 0 <= i < n ensures comps[i] in p.steps { assert p.steps[n - 1 - i] == comps[i]; }
    forall j | 0 <= j < |plan.steps| ensures Moved(p, plan.steps[j]) {
      assert OneLater(plan.steps[j], p.steps[n + j]);
    }
  }
}
