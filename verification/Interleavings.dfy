/** What acceptance by the verifier means for execution: a runtime that finishes stage k before
    starting stage k + 1 and takes the steps inside a stage in whatever order it likes. */
module Interleavings {
  import opened Wrappers
  import opened Permutations
  import opened Checked
  import opened Worlds
  import opened Kahn
  import opened Plans
  import opened Verification

  /** Stage lists are in ascending identity order, as the planner writes them. */
  ghost predicate ListsAscend(stages: seq<Stage>) {
    forall k :: 0 <= k < |stages| ==> Ascending(stages[k].steps)
  }

  ghost predicate Found<O, C>(plan: Plan<O, C>, r: seq<StepId>) {
    forall i :: 0 <= i < |r| ==> FindStep(plan, r[i]).Some?
  }

  ghost function StageOf<O, C>(plan: Plan<O, C>, id: StepId): nat {
    match FindStep(plan, id) case Some(step) => step.stage case None => 0
  }

  ghost function ActionsOf<O, C>(plan: Plan<O, C>, r: seq<StepId>): (acts: seq<Action<O, C>>)
    requires Found(plan, r)
    ensures |acts| == |r|
  {
    seq(|r|, i requires 0 <= i < |r| => ActionOf(FindStep(plan, r[i]).value))
  }

  ghost predicate StageOrdered<O, C>(plan: Plan<O, C>, r: seq<StepId>) {
    forall i, j :: 0 <= i < j < |r| ==> StageOf(plan, r[i]) <= StageOf(plan, r[j])
  }

  /** An execution that has done all of the first `k` stages and nothing else: every step of
      theirs once, earlier stages first, any order inside a stage. */
  ghost predicate Execution<O, C>(plan: Plan<O, C>, k: nat, r: seq<StepId>)
    requires k <= |plan.stages|
  {
    Distinct(r) && Elements(r) == Staged(plan, k) && StageOrdered(plan, r)
  }

  // ----- what a safe execution is -----

  /** The step is taken from one state to the next: its preconditions hold before it, it is accepted, its
      postconditions hold after it, and no obligation is broken. */
  ghost predicate Taken<S, O, C>(w: World<S, O, C>, step: Step<O, C>, s: S, t: S) {
    && (forall i :: 0 <= i < |step.pre| ==> w.holds(s, step.pre[i]) == Some(true))
    && w.apply(s, step.op) == Some(t)
    && (forall i :: 0 <= i < |step.post| ==> w.holds(t, step.post[i]) == Some(true))
    && !w.violated(t)
  }

  /** Each step of the execution is taken from one of these states to the next. */
  ghost predicate Passes<S, O, C>(w: World<S, O, C>, plan: Plan<O, C>, r: seq<StepId>, states: seq<S>)
    requires Found(plan, r)
  {
    |states| == |r| + 1 && forall i :: 0 <= i < |r| ==> Taken(w, FindStep(plan, r[i]).value, states[i], states[i + 1])
  }

  lemma {:induction false} StatesOf<S, O, C>(w: World<S, O, C>, plan: Plan<O, C>, s0: S, r: seq<StepId>)
    returns (states: seq<S>)
    requires Found(plan, r) && Run(w, s0, ActionsOf(plan, r)).Some?
    ensures Passes(w, plan, r, states) && states[0] == s0 && Run(w, s0, ActionsOf(plan, r)) == Some(states[|r|])
  {
    states := [s0];
    if r != [] {
      assert ActionsOf(plan, r)[1..] == ActionsOf(plan, r[1..]);
      var t := SafeStep(w, s0, ActionsOf(plan, r)[0]).value;
      var rest := StatesOf(w, plan, t, r[1..]);
      states := [s0] + rest;
      forall i | 0 <= i < |r| ensures Taken(w, FindStep(plan, r[i]).value, states[i], states[i + 1]) {
        if i > 0 { assert Taken(w, FindStep(plan, r[1..][i - 1]).value, rest[i - 1], rest[i]); }
      }
    }
  }

  lemma {:induction false} PassingRuns<S, O, C>(w: World<S, O, C>, plan: Plan<O, C>, r: seq<StepId>, states: seq<S>)
    requires Found(plan, r) && Passes(w, plan, r, states)
    ensures Run(w, states[0], ActionsOf(plan, r)) == Some(states[|r|])
  {
    if r != [] {
      assert ActionsOf(plan, r)[1..] == ActionsOf(plan, r[1..]);
      assert Taken(w, FindStep(plan, r[0]).value, states[0], states[1]);
      forall i | 0 <= i < |r[1..]|
        ensures Taken(w, FindStep(plan, r[1..][i]).value, states[1..][i], states[1..][i + 1])
      {
        assert Taken(w, FindStep(plan, r[i + 1]).value, states[i + 1], states[i + 2]);
      }
      PassingRuns(w, plan, r[1..], states[1..]);
    }
  }

  /** An execution is safe and ends in a state exactly if it passes from the start to that state with every
      step accepted, all its conditions met around it and no obligation broken. */
  lemma SafeStepByStep<S, O, C>(w: World<S, O, C>, plan: Plan<O, C>, s0: S, r: seq<StepId>, t: S)
    requires Found(plan, r)
    ensures Run(w, s0, ActionsOf(plan, r)) == Some(t) <==>
      exists states :: Passes(w, plan, r, states) && states[0] == s0 && states[|r|] == t
  {
    if Run(w, s0, ActionsOf(plan, r)) == Some(t) { var states := StatesOf(w, plan, s0, r); }
    if states :| Passes(w, plan, r, states) && states[0] == s0 && states[|r|] == t { PassingRuns(w, plan, r, states); }
  }

  // ----- an execution and the orders of its stages -----

  ghost function SlotOf(ids: seq<StepId>, id: StepId): (k: nat)
    requires id in ids
    ensures k < |ids| && ids[k] == id
  {
    if ids[0] == id then 0 else SlotOf(ids[1..], id) + 1
  }

  ghost function Slots(ids: seq<StepId>, part: seq<StepId>): (q: seq<nat>)
    requires forall i :: 0 <= i < |part| ==> part[i] in ids
    ensures |q| == |part| && forall i :: 0 <= i < |q| ==> q[i] < |ids| && ids[q[i]] == part[i]
  {
    seq(|part|, i requires 0 <= i < |part| => SlotOf(ids, part[i]))
  }

  lemma SlotsAreAnOrder(ids: seq<StepId>, part: seq<StepId>)
    requires Distinct(ids) && Distinct(part) && Elements(ids) == Elements(part)
    ensures forall i :: 0 <= i < |part| ==> part[i] in ids
    ensures IsOrder(Slots(ids, part), |ids|)
  {
    forall i | 0 <= i < |part| ensures part[i] in ids { assert part[i] in Elements(part); }
    var q := Slots(ids, part);
    DistinctSize(ids);
    DistinctSize(part);
    forall x ensures x in Elements(q) <==> x in Elements(Identity(|ids|)) {
      if x in Identity(|ids|) {
        assert ids[x] in Elements(part);
        var i :| 0 <= i < |part| && part[i] == ids[x];
        assert q[i] == x;
      }
      if x in q {
        assert Identity(|ids|)[x] == x;
      }
    }
  }

  /** Where the steps of stage `k` begin inside an execution that ends with that stage. */
  ghost function Boundary<O, C>(plan: Plan<O, C>, k: nat, r: seq<StepId>): (m: nat)
    ensures m <= |r|
    ensures forall i :: 0 <= i < m ==> StageOf(plan, r[i]) < k
    ensures m < |r| ==> StageOf(plan, r[m]) >= k
  {
    if r == [] || StageOf(plan, r[0]) >= k then 0 else Boundary(plan, k, r[1..]) + 1
  }

  lemma LateMember<O, C>(plan: Plan<O, C>, k: nat, r: seq<StepId>, i: nat)
    requires k < |plan.stages| && StagesOk(plan) && Execution(plan, k + 1, r) && i < |r|
    ensures Boundary(plan, k, r) <= i <==> r[i] in plan.stages[k].steps
  {
    assert StageOk(plan, k);
    StagedByMeans(plan, k + 1, r[i]);
    assert r[i] in Elements(r);
    if Boundary(plan, k, r) <= i { BoundaryRises(plan, k, r, i); }
  }

  lemma EarlyPart<O, C>(plan: Plan<O, C>, k: nat, r: seq<StepId>)
    requires k < |plan.stages| && StagesOk(plan) && Execution(plan, k + 1, r)
    ensures Execution(plan, k, r[..Boundary(plan, k, r)])
  {
    hide StageOf, StageOk;
    var m := Boundary(plan, k, r);
    var part := r[..m];
    forall i | 0 <= i < |part| ensures part[i] in Staged(plan, k) {
      assert r[i] in Elements(r);
      StagedByMeans(plan, k, r[i]);
      StagedByMeans(plan, k + 1, r[i]);
    }
    forall x | x in Staged(plan, k) ensures x in part {
      assert x in Elements(r);
      var i :| 0 <= i < |r| && r[i] == x;
      StagedByMeans(plan, k, x);
      if m <= i { BoundaryRises(plan, k, r, i); }
      assert part[i] == x;
    }
  }

  lemma BoundaryRises<O, C>(plan: Plan<O, C>, k: nat, r: seq<StepId>, i: nat)
    requires StageOrdered(plan, r) && Boundary(plan, k, r) <= i < |r|
    ensures StageOf(plan, r[i]) >= k
  {
    var m := Boundary(plan, k, r);
    if m < i { assert StageOf(plan, r[m]) <= StageOf(plan, r[i]); }
  }

  lemma LastStaged<O, C>(plan: Plan<O, C>, k: nat, x: StepId)
    requires k < |plan.stages| && x in plan.stages[k].steps
    ensures x in Staged(plan, k + 1)
  {
    assert x in Elements(plan.stages[k].steps);
  }

  lemma LatePart<O, C>(plan: Plan<O, C>, k: nat, r: seq<StepId>)
    requires k < |plan.stages| && StagesOk(plan) && Execution(plan, k + 1, r)
    ensures var part := r[Boundary(plan, k, r)..];
      Distinct(part) && Elements(part) == Elements(plan.stages[k].steps)
  {
    hide StageOk, StageOf, Staged;
    var m := Boundary(plan, k, r);
    var part := r[m..];
    forall i | 0 <= i < |part| ensures part[i] in plan.stages[k].steps {
      LateMember(plan, k, r, m + i);
    }
    forall x | x in plan.stages[k].steps ensures x in part {
      assert x in Elements(r) by { LastStaged(plan, k, x); }
      var i :| 0 <= i < |r| && r[i] == x;
      LateMember(plan, k, r, i);
      assert part[i - m] == x;
    }
  }

  /** The parts of an execution before and in its last stage. */
  lemma Cut<O, C>(plan: Plan<O, C>, k: nat, r: seq<StepId>) returns (early: seq<StepId>, late: seq<StepId>)
    requires k < |plan.stages| && StagesOk(plan) && Execution(plan, k + 1, r)
    ensures r == early + late
    ensures Execution(plan, k, early)
    ensures Distinct(late) && Elements(late) == Elements(plan.stages[k].steps)
  {
    hide Execution;
    var m := Boundary(plan, k, r);
    EarlyPart(plan, k, r);
    LatePart(plan, k, r);
    early, late := r[..m], r[m..];
  }

  ghost predicate StagedBy<O, C>(plan: Plan<O, C>, k: nat, id: StepId)
    requires k <= |plan.stages|
  {
    FindStep(plan, id).Some? && StageOf(plan, id) < k && id in plan.stages[StageOf(plan, id)].steps
  }

  lemma StagedByMeans<O, C>(plan: Plan<O, C>, k: nat, id: StepId)
    requires k <= |plan.stages| && StagesOk(plan)
    ensures id in Staged(plan, k) <==> StagedBy(plan, k, id)
  {
    StagedMeans(plan, k, id);
  }

  ghost predicate EndsIn<S, O, C>(w: World<S, O, C>, plan: Plan<O, C>, s0: S, r: seq<StepId>, end: Option<S>) {
    end.Some? && Found(plan, r) && Run(w, s0, ActionsOf(plan, r)) == end
  }

  /** Every execution of the first `k` stages is safe throughout and ends in the one state the
      verifier carries into stage `k`. */
  ghost predicate AllExecutionsSafe<S, O, C>(w: World<S, O, C>, plan: Plan<O, C>, s0: S, k: nat)
    requires k <= |plan.stages| && StagesOk(plan)
  {
    forall r :: Execution(plan, k, r) ==> EndsIn(w, plan, s0, r, CanonicalState(w, plan, s0, k))
  }

  lemma {:induction false} PassingIsSafe<S, O, C>(w: World<S, O, C>, plan: Plan<O, C>, s0: S, k: nat)
    requires k <= |plan.stages| && StagesOk(plan) && ListsAscend(plan.stages)
    requires PassUpTo(w, plan, s0, k, true)
    ensures AllExecutionsSafe(w, plan, s0, k)
  {
    hide StagePasses;
    if k == 0 {
      forall r | Execution(plan, 0, r) ensures EndsIn(w, plan, s0, r, CanonicalState(w, plan, s0, 0)) {
        NothingStaged(plan, r);
      }
    } else {
      PassingIsSafe(w, plan, s0, k - 1);
      NextBoundary(w, plan, s0, k);
    }
  }

  lemma NextBoundary<S, O, C>(w: World<S, O, C>, plan: Plan<O, C>, s0: S, k: nat)
    requires 0 < k <= |plan.stages| && StagesOk(plan) && ListsAscend(plan.stages)
    requires AllExecutionsSafe(w, plan, s0, k - 1) && StagePasses(w, plan, s0, k - 1, true)
    ensures AllExecutionsSafe(w, plan, s0, k)
  {
    hide Execution, StagePasses, CanonicalState, EndsIn;
    forall r | Execution(plan, k, r) ensures EndsIn(w, plan, s0, r, CanonicalState(w, plan, s0, k)) {
      var early, late := Cut(plan, k - 1, r);
      AddLastStage(w, plan, s0, k, early, late);
    }
  }

  lemma NothingStaged<O, C>(plan: Plan<O, C>, r: seq<StepId>)
    requires Elements(r) == {} && Distinct(r)
    ensures r == []
  {
    DistinctSize(r);
  }

  lemma AddLastStage<S, O, C>(w: World<S, O, C>, plan: Plan<O, C>, s0: S, k: nat, early: seq<StepId>, late: seq<StepId>)
    requires 0 < k <= |plan.stages| && StagesOk(plan) && ListsAscend(plan.stages)
    requires StagePasses(w, plan, s0, k - 1, true)
    requires EndsIn(w, plan, s0, early, CanonicalState(w, plan, s0, k - 1))
    requires Distinct(late) && Elements(late) == Elements(plan.stages[k - 1].steps)
    ensures EndsIn(w, plan, s0, early + late, CanonicalState(w, plan, s0, k))
  {
    LastStageSafe(w, plan, s0, k, late);
    ActionsAppend(w, plan, s0, early, late);
  }

  lemma ActionsAppend<S, O, C>(w: World<S, O, C>, plan: Plan<O, C>, s0: S, a: seq<StepId>, b: seq<StepId>)
    requires Found(plan, a) && Found(plan, b)
    ensures Found(plan, a + b)
    ensures Run(w, s0, ActionsOf(plan, a + b)) ==
      match Run(w, s0, ActionsOf(plan, a)) { case None => None case Some(t) => Run(w, t, ActionsOf(plan, b)) }
  {
    assert ActionsOf(plan, a + b) == ActionsOf(plan, a) + ActionsOf(plan, b);
    RunAppend(w, s0, ActionsOf(plan, a), ActionsOf(plan, b));
  }

  lemma LastStageSafe<S, O, C>(w: World<S, O, C>, plan: Plan<O, C>, s0: S, k: nat, part: seq<StepId>)
    requires 0 < k <= |plan.stages| && StagesOk(plan) && ListsAscend(plan.stages)
    requires StagePasses(w, plan, s0, k - 1, true)
    requires Distinct(part) && Elements(part) == Elements(plan.stages[k - 1].steps)
    ensures Found(plan, part)
    ensures Run(w, CanonicalState(w, plan, s0, k - 1).value, ActionsOf(plan, part)) == CanonicalState(w, plan, s0, k)
  {
    var ids := plan.stages[k - 1].steps;
    assert StageOk(plan, k - 1);
    SlotsAreAnOrder(ids, part);
    var q := Slots(ids, part);
    ByIdIdentity(ids);
    AscendingRank(Identity(|ids|));
    ByIdIsOrder(ids);
    assert Pick(StageActions(plan, k - 1), q) == ActionsOf(plan, part);
    assert RunsTo(w, CanonicalState(w, plan, s0, k - 1).value, StageActions(plan, k - 1), q,
                  CanonicalState(w, plan, s0, k).value);
  }

  // ----- and back -----

  /** The execution that follows the stage lists as written. */
  ghost function Written<O, C>(plan: Plan<O, C>, k: nat): seq<StepId>
    requires k <= |plan.stages|
  {
    if k == 0 then [] else Written(plan, k - 1) + plan.stages[k - 1].steps
  }

  /** Extending an execution of `k` stages by any order of the next one. */
  lemma ExtendExecution<O, C>(plan: Plan<O, C>, k: nat, r: seq<StepId>, part: seq<StepId>)
    requires k < |plan.stages| && StagesOk(plan) && Execution(plan, k, r)
    requires Distinct(part) && Elements(part) == Elements(plan.stages[k].steps)
    ensures Execution(plan, k + 1, r + part)
  {
    assert StageOk(plan, k);
    forall i | 0 <= i < |r| ensures StageOf(plan, r[i]) < k {
      assert r[i] in Elements(r);
      StagedMeans(plan, k, r[i]);
    }
    forall i | 0 <= i < |part| ensures StageOf(plan, part[i]) == k {
      assert part[i] in Elements(part);
      assert part[i] in plan.stages[k].steps;
    }
    assert Elements(r + part) == Elements(r) + Elements(part);
  }

  lemma {:induction false} WrittenIsExecution<O, C>(plan: Plan<O, C>, k: nat)
    requires k <= |plan.stages| && StagesOk(plan)
    ensures Execution(plan, k, Written(plan, k))
  {
    if k == 0 {
      assert Elements([]) == {};
    } else {
      WrittenIsExecution(plan, k - 1);
      assert StageOk(plan, k - 1);
      ExtendExecution(plan, k - 1, Written(plan, k - 1), plan.stages[k - 1].steps);
    }
  }

  lemma PickOrder(ids: seq<StepId>, q: seq<nat>)
    requires Distinct(ids) && IsOrder(q, |ids|)
    ensures forall i :: 0 <= i < |q| ==> q[i] < |ids|
    ensures Distinct(Pick(ids, q)) && Elements(Pick(ids, q)) == Elements(ids)
  {
    OrderInRange(q, |ids|);
    var p := Pick(ids, q);
    forall x ensures x in Elements(p) <==> x in Elements(ids) {
      if x in ids {
        var j :| 0 <= j < |ids| && ids[j] == x;
        assert Identity(|ids|)[j] == j && j in Elements(q);
        var i :| 0 <= i < |q| && q[i] == j;
        assert p[i] == x;
      }
    }
    forall i, j | 0 <= i < j < |p| ensures p[i] != p[j] {
      assert q[i] != q[j];
    }
  }

  lemma SafeIsPassing<S, O, C>(w: World<S, O, C>, plan: Plan<O, C>, s0: S, k: nat)
    requires k < |plan.stages| && StagesOk(plan)
    requires AllExecutionsSafe(w, plan, s0, k) && AllExecutionsSafe(w, plan, s0, k + 1)
    requires |plan.stages[k].steps| <= MAX_COUNTED
    ensures StagePasses(w, plan, s0, k, true)
  {
    hide IsOrder, Staged, StageOf;
    var ids, acts := plan.stages[k].steps, StageActions(plan, k);
    WrittenIsExecution(plan, k);
    WrittenIsExecution(plan, k + 1);
    var r := Written(plan, k);
    var entry, exit := CanonicalState(w, plan, s0, k), CanonicalState(w, plan, s0, k + 1);
    assert EndsIn(w, plan, s0, r, entry) && EndsIn(w, plan, s0, Written(plan, k + 1), exit);
    ByIdIsOrder(ids);
    forall q | IsOrder(q, |acts|) ensures RunsTo(w, entry.value, acts, q, exit.value) {
      assert StageOk(plan, k);
      PickOrder(ids, q);
      var part := Pick(ids, q);
      ExtendExecution(plan, k, r, part);
      assert EndsIn(w, plan, s0, r + part, exit);
      assert Found(plan, part) && ActionsOf(plan, part) == Pick(acts, q);
      ActionsAppend(w, plan, s0, r, part);
    }
  }

  // ----- main results -----

  ghost predicate SizesFit(stages: seq<Stage>) {
    forall k :: 0 <= k < |stages| ==> |stages[k].steps| <= MAX_COUNTED
  }

  lemma {:induction false} AcceptedShorter<S, O, C>(w: World<S, O, C>, plan: Plan<O, C>, s0: S, k: nat, n: nat)
    requires k <= n <= |plan.stages| && StagesOk(plan) && PassUpTo(w, plan, s0, n, true)
    ensures PassUpTo(w, plan, s0, k, true)
  {
    hide StagePasses;
    if k < n { AcceptedShorter(w, plan, s0, k, n - 1); }
  }

  ghost predicate SafeAtEveryBoundary<S, O, C>(w: World<S, O, C>, plan: Plan<O, C>, s0: S)
    requires StagesOk(plan)
  {
    forall k :: 0 <= k <= |plan.stages| ==> AllExecutionsSafe(w, plan, s0, k)
  }

  lemma PassingMeansSafe<S, O, C>(w: World<S, O, C>, plan: Plan<O, C>, s0: S)
    requires StagesOk(plan) && ListsAscend(plan.stages)
    ensures PassUpTo(w, plan, s0, |plan.stages|, true) <==> SizesFit(plan.stages) && SafeAtEveryBoundary(w, plan, s0)
  {
    hide AllExecutionsSafe, CanonicalState, StageVerified;
    var n := |plan.stages|;
    if PassUpTo(w, plan, s0, n, true) {
      forall k | 0 <= k <= n ensures AllExecutionsSafe(w, plan, s0, k) {
        AcceptedShorter(w, plan, s0, k, n);
        PassingIsSafe(w, plan, s0, k);
      }
      forall k | 0 <= k < n ensures |plan.stages[k].steps| <= MAX_COUNTED {
        PassAt(w, plan, s0, n, k, true);
      }
    }
    if SizesFit(plan.stages) && SafeAtEveryBoundary(w, plan, s0) {
      forall j | 0 <= j < n ensures StagePasses(w, plan, s0, j, true) {
        SafeIsPassing(w, plan, s0, j);
      }
      PassAll(w, plan, s0, n, true);
    }
  }

  /** For plans whose stage lists ascend, exhaustive verification accepts exactly when the plan is
      well formed and bound, starts safe, and at every stage boundary all executions that have got
      there are safe throughout and agree on the state. */
  lemma AcceptedIffAllExecutionsSafe<S, O, C>(plan: Plan<O, C>, request: Request<S, O, C>)
    requires ListsAscend(plan.stages)
    ensures var w := request.worldAt(plan.instant);
      Verified(plan, request, true) <==>
        && StructureOk(plan, w.stepId) && plan.binding == request.binding && !w.violated(request.state)
        && SizesFit(plan.stages)
        && SafeAtEveryBoundary(w, plan, request.state)
  {
    var w, s0 := request.worldAt(plan.instant), request.state;
    if StructureOk(plan, w.stepId) {
      assert StagesOk(plan);
      PassingMeansSafe(w, plan, s0);
    }
  }

  /** In an execution of an accepted plan every dependency edge is honoured. */
  lemma EdgesHonoured<O, C>(plan: Plan<O, C>, stepId: O -> StepId, r: seq<StepId>, e: Edge)
    requires StructureOk(plan, stepId) && plan.steps != [] && e in plan.edges
    requires Execution(plan, |plan.stages|, r)
    ensures exists i, j :: 0 <= i < j < |r| && r[i] == e.from && r[j] == e.to
  {
    forall id | FindStep(plan, id).Some? ensures id in r {
      var n := IndexOf(plan.steps, id);
      assert Listed(plan, plan.steps[n]);
      StagedMeans(plan, |plan.stages|, id);
      assert id in Elements(r);
    }
    assert EdgeOk(plan, e);
    var i, j := SlotOf(r, e.from), SlotOf(r, e.to);
    assert StageOf(plan, r[i]) < StageOf(plan, r[j]);
    assert r[i] == e.from && r[j] == e.to;
  }

  // ----- stage lists that do not ascend -----

  /** The check replays all k! interleavings of a stage exactly when its list ascends. */
  lemma CoversStageIffAscending(stage: Stage)
    requires Distinct(stage.steps)
    ensures StageCount(stage, true) == Factorial(|stage.steps|) <==> Ascending(stage.steps)
  {
    var ids := stage.steps;
    var q := ById(ids);
    ByIdIsOrder(ids);
    OrderInRange(q, |ids|);
    RankBound(q);
    RankZero(q);
    if Ascending(ids) {
      ByIdIdentity(ids);
    } else if Ascending(q) {
      AscendingRank(Identity(|ids|));
      AscendingRank(q);
      RankIsLexOrder(Identity(|ids|), q);
      forall i, j | 0 <= i < j < |ids| ensures ids[i] < ids[j] { ByIdAscends(ids, i, j); }
    }
  }

  /** A plan of two actions in one stage, which lists the second before the first. */
  function Backwards<S, O, C>(id: nat, request: Request<S, O, C>, x: Action<O, C>, y: Action<O, C>): Plan<O, C> {
    var stepId := request.worldAt(request.instant).stepId;
    Plan(id, request.binding, request.instant, [Stage(0, [stepId(y.op), stepId(x.op)], 0, 0)],
         [Step(stepId(x.op), 0, x.op, x.pre, x.post, true), Step(stepId(y.op), 0, y.op, y.pre, y.post, true)],
         [], 0, 0, [], "")
  }

  /** The two are genuine steps, and the first has the smaller identity. */
  ghost predicate Inverted<S, O, C>(id: nat, request: Request<S, O, C>, x: Action<O, C>, y: Action<O, C>) {
    var stepId := request.worldAt(request.instant).stepId;
    && 0 < stepId(x.op) < stepId(y.op) && x.pre != [] && x.post != [] && y.pre != [] && y.post != []
    && HeaderOk(Backwards(id, request, x, y))
  }

  /** A stage list that descends hides an interleaving: exhaustive verification accepts the plan of any
      two actions exactly when the one order by identity is safe, whatever the other execution does. */
  lemma DescendingListEscapes<S, O, C>(id: nat, request: Request<S, O, C>, x: Action<O, C>, y: Action<O, C>)
    requires Inverted(id, request, x, y)
    ensures var w, plan := request.worldAt(request.instant), Backwards(id, request, x, y);
      && (Verified(plan, request, true) <==> !w.violated(request.state) && Run(w, request.state, [x, y]).Some?)
      && Execution(plan, 1, plan.stages[0].steps) && Found(plan, plan.stages[0].steps)
      && ActionsOf(plan, plan.stages[0].steps) == [y, x]
  {
    hide StructureOk, StagePasses, Run;
    var w, plan := request.worldAt(request.instant), Backwards(id, request, x, y);
    var ids := plan.stages[0].steps;
    BackwardsIsWellFormed(id, request, x, y);
    BackwardsPasses(id, request, x, y);
    assert PassUpTo(w, plan, request.state, 0, true);
    assert PassUpTo(w, plan, request.state, 1, true) <==> StagePasses(w, plan, request.state, 0, true);
    assert Staged(plan, 1) == Staged(plan, 0) + Elements(ids);
  }

  lemma BackwardsIsWellFormed<S, O, C>(id: nat, request: Request<S, O, C>, x: Action<O, C>, y: Action<O, C>)
    requires Inverted(id, request, x, y)
    ensures var plan := Backwards(id, request, x, y);
      && StructureOk(plan, request.worldAt(request.instant).stepId) && StagesOk(plan)
      && Found(plan, plan.stages[0].steps) && ActionsOf(plan, plan.stages[0].steps) == [y, x]
      && StageActions(plan, 0) == [y, x]
  {
    var stepId, plan := request.worldAt(request.instant).stepId, Backwards(id, request, x, y);
    assert plan.steps[1..][0].id == stepId(y.op);
    assert IndexOf(plan.steps, stepId(x.op)) == 0 && IndexOf(plan.steps, stepId(y.op)) == 1;
    assert StageOk(plan, 0);
    assert Ids(plan.steps) == [stepId(x.op), stepId(y.op)];
  }

  /** Two slots listed in descending order start, and end, with the second. */
  lemma TwoDescending(a: StepId, b: StepId)
    requires a < b
    ensures ById([b, a]) == [1, 0] && Next([1, 0]) == None
  {
    ByIdIsOrder([b, a]);
    OrderInRange(ById([b, a]), 2);
    ByIdAscends([b, a], 0, 1);
    assert LastLarger(1, [0]) == 1;
    var q: seq<nat> := [1, 0];
    assert q[1..] == [0];
  }

  lemma BackwardsPasses<S, O, C>(id: nat, request: Request<S, O, C>, x: Action<O, C>, y: Action<O, C>)
    requires Inverted(id, request, x, y) && StagesOk(Backwards(id, request, x, y))
    requires StageActions(Backwards(id, request, x, y), 0) == [y, x]
    ensures var w := request.worldAt(request.instant);
      StagePasses(w, Backwards(id, request, x, y), request.state, 0, true) <==> Run(w, request.state, [x, y]).Some?
  {
    hide Run;
    var w, plan, s := request.worldAt(request.instant), Backwards(id, request, x, y), request.state;
    var acts, q: seq<nat> := [y, x], [1, 0];
    TwoDescending(w.stepId(x.op), w.stepId(y.op));
    ByIdIsOrder(plan.stages[0].steps);
    assert Pick(acts, q) == [x, y];
    assert CanonicalState(w, plan, s, 0) == Some(s);
    assert CanonicalState(w, plan, s, 1) == Run(w, s, [x, y]);
    if Run(w, s, [x, y]).Some? {
      forall p | IsOrder(p, |acts|) && Rank(p) >= Rank(q) ensures RunsTo(w, s, acts, p, Run(w, s, [x, y]).value) {
        NextEnd(q);
        RankBound(p);
        RankIsLexOrder(p, q);
      }
    }
  }
}
