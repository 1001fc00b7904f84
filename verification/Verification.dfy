/** Independent verification of a plan: every stage is replayed in every interleaving reachable
    from the identity-sorted order of its steps. */
module Verification {
  import opened Wrappers
  import opened Permutations
  import opened Checked
  import opened Worlds
  import opened Plans

  /** What verification takes from a planning request.  The evaluation context depends on the
      instant, which the plan itself carries. */
  datatype Request<!S, !O, !C> = Request(
    state: S, binding: Binding, instant: int, worldAt: int -> World<S, O, C>)

  datatype ReplayFault =
    | PreconditionFailed | Rejected | PostconditionFailed | ObligationViolated | OrderDependent

  datatype Report = Report(
    ok: bool, permutationsVerified: nat, stepsApplied: nat,
    failingStage: Option<nat>, failingStep: Option<StepId>, fault: Option<ReplayFault>)

  function ActionOf<O, C>(step: Step<O, C>): Action<O, C> {
    Action(step.op, step.pre, step.post)
  }

  ghost function StageActions<O, C>(plan: Plan<O, C>, k: nat): (acts: seq<Action<O, C>>)
    requires k < |plan.stages| && StageOk(plan, k)
    ensures |acts| == |plan.stages[k].steps|
  {
    var ids := plan.stages[k].steps;
    seq(|ids|, i requires 0 <= i < |ids| => ActionOf(FindStep(plan, ids[i]).value))
  }

  /** What checking one stage establishes: with all interleavings, every order from `start` on is
      a safe run into `out`; otherwise only `start` itself. */
  ghost predicate StageVerified<S, O, C>(w: World<S, O, C>, s: S, acts: seq<Action<O, C>>, start: seq<nat>,
                                         exhaustive: bool, out: S)
    requires IsOrder(start, |acts|)
  {
    RunsTo(w, s, acts, start, out) && (exhaustive ==> Converges(w, s, acts, start, out))
  }

  function ValueOr<S>(o: Option<S>, default: S): S {
    match o case None => default case Some(v) => v
  }

  ghost function StartRun<S, O, C>(w: World<S, O, C>, s: S, acts: seq<Action<O, C>>, ids: seq<StepId>): Option<S>
    requires |acts| == |ids|
  {
    ByIdIsOrder(ids);
    OrderInRange(ById(ids), |ids|);
    Run(w, s, Pick(acts, ById(ids)))
  }

  ghost predicate StagesOk<O, C>(plan: Plan<O, C>) {
    forall j :: 0 <= j < |plan.stages| ==> StageOk(plan, j)
  }

  /** The state the verifier carries into stage `k`. */
  ghost function CanonicalState<S, O, C>(w: World<S, O, C>, plan: Plan<O, C>, s0: S, k: nat): Option<S>
    requires k <= |plan.stages| && StagesOk(plan)
  {
    if k == 0 then Some(s0)
    else
      match CanonicalState(w, plan, s0, k - 1)
      case None => None
      case Some(t) => StartRun(w, t, StageActions(plan, k - 1), plan.stages[k - 1].steps)
  }

  ghost predicate StagePasses<S, O, C>(w: World<S, O, C>, plan: Plan<O, C>, s0: S, k: nat, exhaustive: bool)
    requires k < |plan.stages| && StagesOk(plan)
  {
    var ids := plan.stages[k].steps;
    var entry, exit := CanonicalState(w, plan, s0, k), CanonicalState(w, plan, s0, k + 1);
    ByIdIsOrder(ids);
    && |ids| <= MAX_COUNTED
    && entry.Some? && exit.Some?
    && StageVerified(w, entry.value, StageActions(plan, k), ById(ids), exhaustive, exit.value)
  }

  /** The first `k` stages pass. */
  ghost predicate PassUpTo<S, O, C>(w: World<S, O, C>, plan: Plan<O, C>, s0: S, k: nat, exhaustive: bool)
    requires k <= |plan.stages| && StagesOk(plan)
  {
    k == 0 || (PassUpTo(w, plan, s0, k - 1, exhaustive) && StagePasses(w, plan, s0, k - 1, exhaustive))
  }

  lemma {:induction false} PassAt<S, O, C>(w: World<S, O, C>, plan: Plan<O, C>, s0: S, k: nat, j: nat, exhaustive: bool)
    requires j < k <= |plan.stages| && StagesOk(plan)
    requires PassUpTo(w, plan, s0, k, exhaustive)
    ensures StagePasses(w, plan, s0, j, exhaustive)
  {
    hide StagePasses;
    if j < k - 1 { PassAt(w, plan, s0, k - 1, j, exhaustive); }
  }

  lemma {:induction false} PassAll<S, O, C>(w: World<S, O, C>, plan: Plan<O, C>, s0: S, k: nat, exhaustive: bool)
    requires k <= |plan.stages| && StagesOk(plan)
    requires forall j :: 0 <= j < k ==> StagePasses(w, plan, s0, j, exhaustive)
    ensures PassUpTo(w, plan, s0, k, exhaustive)
  {
    hide StagePasses;
    if k > 0 { PassAll(w, plan, s0, k - 1, exhaustive); }
  }

  /** When a plan is accepted. */
  ghost predicate Verified<S, O, C>(plan: Plan<O, C>, request: Request<S, O, C>, exhaustive: bool) {
    var w := request.worldAt(plan.instant);
    && StructureOk(plan, w.stepId)
    && plan.binding == request.binding
    && !w.violated(request.state)
    && PassUpTo(w, plan, request.state, |plan.stages|, exhaustive)
  }

  /** How many interleavings the check replays: with k_i steps in stage i listed by ascending
      identity, the sum of k_i!. */
  ghost function Interleavings(stages: seq<Stage>, exhaustive: bool): nat {
    if stages == [] then 0
    else Interleavings(stages[..|stages| - 1], exhaustive) + StageCount(stages[|stages| - 1], exhaustive)
  }

  ghost function StageCount(stage: Stage, exhaustive: bool): nat {
    ByIdIsOrder(stage.steps);
    RankBound(ById(stage.steps));
    if exhaustive then Factorial(|stage.steps|) - Rank(ById(stage.steps)) else 1
  }

  /** How many steps it applies: every step of a stage once in each of its interleavings. */
  ghost function Applications(stages: seq<Stage>, exhaustive: bool): nat {
    if stages == [] then 0
    else
      var last := stages[|stages| - 1];
      Applications(stages[..|stages| - 1], exhaustive) + StageCount(last, exhaustive) * |last.steps|
  }

  // ----- replaying -----

  method HoldAll<S, O, C>(w: World<S, O, C>, s: S, cs: seq<C>) returns (ok: bool)
    ensures ok == AllHold(w, s, cs)
  {
    for i := 0 to |cs|
      invariant forall j :: 0 <= j < i ==> w.holds(s, cs[j]) == Some(true)
    {
      var satisfied := w.holds(s, cs[i]);
      if satisfied == None || !satisfied.value { return false; }
    }
    ok := true;
  }

  /** Why a step can not be taken in the state it is reached in; None when it can. */
  ghost function StepFault<S, O, C>(w: World<S, O, C>, s: S, a: Action<O, C>): Option<ReplayFault> {
    if !AllHold(w, s, a.pre) then Some(PreconditionFailed)
    else
      match w.apply(s, a.op)
      case None => Some(Rejected)
      case Some(t) =>
        if !AllHold(w, t, a.post) then Some(PostconditionFailed)
        else if w.violated(t) then Some(ObligationViolated)
        else None
  }

  /** The interleaving is safe up to its step `at`, which can not be taken for this reason. */
  ghost predicate FailsAt<S, O, C>(w: World<S, O, C>, s: S, acts: seq<Action<O, C>>, q: seq<nat>, at: nat,
                                   fault: ReplayFault)
    requires forall i :: 0 <= i < |q| ==> q[i] < |acts|
  {
    && at < |q| && Run(w, s, Pick(acts, q)[..at]).Some?
    && StepFault(w, Run(w, s, Pick(acts, q)[..at]).value, acts[q[at]]) == Some(fault)
  }

  lemma OneStepOn<S, O, C>(w: World<S, O, C>, s: S, xs: seq<Action<O, C>>, i: nat, t: S)
    requires i < |xs| && Run(w, s, xs[..i]) == Some(t)
    ensures Run(w, s, xs[..i + 1]) == Run(w, t, [xs[i]])
  {
    assert xs[..i + 1] == xs[..i] + [xs[i]];
    RunAppend(w, s, xs[..i], [xs[i]]);
  }

  /** One interleaving, step by step. */
  method ReplayOrder<S, O, C>(w: World<S, O, C>, s: S, acts: seq<Action<O, C>>, q: seq<nat>)
    returns (r: Result<S, ReplayFault>, applied: nat, at: nat)
    requires forall i :: 0 <= i < |q| ==> q[i] < |acts|
    ensures Run(w, s, Pick(acts, q)) == (match r case Ok(t) => Some(t) case Err(_) => None)
    ensures r.Err? ==> FailsAt(w, s, acts, q, at, r.error)
    ensures applied == if r.Err? then at + (if r.error in {PreconditionFailed, Rejected} then 0 else 1) else |q|
  {
    var working := s;
    applied, at := 0, 0;
    while at < |q|
      invariant at <= |q|
      invariant Run(w, s, Pick(acts, q)) == Run(w, working, Pick(acts, q)[at..])
      invariant Run(w, s, Pick(acts, q)[..at]) == Some(working)
      invariant applied == at
    {
      var a := acts[q[at]];
      assert Pick(acts, q)[at..] == [a] + Pick(acts, q)[at + 1..];
      var before := HoldAll(w, working, a.pre);
      if !before { return Err(PreconditionFailed), applied, at; }
      var next := w.apply(working, a.op);
      if next == None { return Err(Rejected), applied, at; }
      applied := applied + 1;
      var after := HoldAll(w, next.value, a.post);
      if !after { return Err(PostconditionFailed), applied, at; }
      if w.violated(next.value) { return Err(ObligationViolated), applied, at; }
      OneStepOn(w, s, Pick(acts, q), at, working);
      working, at := next.value, at + 1;
    }
    assert Pick(acts, q)[|q|..] == [];
    r := Ok(working);
  }

  /** Two interleavings that both run safely and end in different states. */
  ghost predicate Diverges<S, O, C>(w: World<S, O, C>, s: S, acts: seq<Action<O, C>>) {
    exists p, q :: Differ(w, s, acts, p, q)
  }

  ghost predicate Differ<S, O, C>(w: World<S, O, C>, s: S, acts: seq<Action<O, C>>, p: seq<nat>, q: seq<nat>) {
    && IsOrder(p, |acts|) && IsOrder(q, |acts|)
    && (OrderInRange(p, |acts|); OrderInRange(q, |acts|);
        var x, y := Run(w, s, Pick(acts, p)), Run(w, s, Pick(acts, q));
        x.Some? && y.Some? && x != y)
  }

  ghost predicate RanSoFar<S, O, C>(w: World<S, O, C>, s: S, acts: seq<Action<O, C>>, start: seq<nat>,
                                    reached: nat, out: S) {
    forall q :: IsOrder(q, |acts|) && Rank(start) <= Rank(q) < reached ==> RunsTo(w, s, acts, q, out)
  }

  lemma OneMore<S, O, C>(w: World<S, O, C>, s: S, acts: seq<Action<O, C>>, start: seq<nat>, p: seq<nat>, out: S)
    requires IsOrder(p, |acts|) && RanSoFar(w, s, acts, start, Rank(p), out) && RunsTo(w, s, acts, p, out)
    ensures RanSoFar(w, s, acts, start, Rank(p) + 1, out)
  {
    forall q | IsOrder(q, |acts|) && Rank(start) <= Rank(q) < Rank(p) + 1
      ensures RunsTo(w, s, acts, q, out)
    {
      if Rank(q) == Rank(p) { RankIsLexOrder(p, q); }
    }
  }

  lemma AllRan<S, O, C>(w: World<S, O, C>, s: S, acts: seq<Action<O, C>>, start: seq<nat>, out: S)
    requires RanSoFar(w, s, acts, start, Factorial(|acts|), out)
    ensures Converges(w, s, acts, start, out)
  {
    forall q | IsOrder(q, |acts|) && Rank(q) >= Rank(start) ensures RunsTo(w, s, acts, q, out) {
      RankBound(q);
      OrderInRange(q, |acts|);
    }
  }

  ghost function RunOf<S, O, C>(w: World<S, O, C>, s: S, acts: seq<Action<O, C>>, q: seq<nat>): Option<S>
    requires IsOrder(q, |acts|)
  {
    OrderInRange(q, |acts|);
    Run(w, s, Pick(acts, q))
  }

  lemma Refuted<S, O, C>(w: World<S, O, C>, s: S, acts: seq<Action<O, C>>, start: seq<nat>, p: seq<nat>,
                         exhaustive: bool, out: S)
    requires IsOrder(start, |acts|) && IsOrder(p, |acts|) && RunOf(w, s, acts, p) == None
    requires p == start || (exhaustive && Rank(p) >= Rank(start))
    ensures !StageVerified(w, s, acts, start, exhaustive, out)
  {
    assert !RunsTo(w, s, acts, p, out);
  }

  lemma Parted<S, O, C>(w: World<S, O, C>, s: S, acts: seq<Action<O, C>>, start: seq<nat>, p: seq<nat>, e: S, x: S)
    requires IsOrder(start, |acts|) && IsOrder(p, |acts|) && Rank(p) >= Rank(start)
    requires RunsTo(w, s, acts, start, e) && RunOf(w, s, acts, p) == Some(x) && x != e
    ensures Differ(w, s, acts, start, p)
    ensures !StageVerified(w, s, acts, start, true, e) && RunOf(w, s, acts, start) == Some(e)
  {
    assert !RunsTo(w, s, acts, p, e);
  }

  lemma Reached<S, O, C>(w: World<S, O, C>, s: S, acts: seq<Action<O, C>>, p: seq<nat>, x: S)
    requires IsOrder(p, |acts|)
    ensures RunsTo(w, s, acts, p, x) <==> RunOf(w, s, acts, p) == Some(x)
  {
  }

  lemma NoneYet<S, O, C>(w: World<S, O, C>, s: S, acts: seq<Action<O, C>>, start: seq<nat>, x: S)
    ensures RanSoFar(w, s, acts, start, Rank(start), x)
  {
  }

  lemma Advance(p: seq<nat>, n: nat)
    requires IsOrder(p, n)
    ensures Rank(p) < Factorial(n)
    ensures Next(p) == None ==> Rank(p) + 1 == Factorial(n)
    ensures Next(p).Some? ==> IsOrder(Next(p).value, n) && Rank(Next(p).value) == Rank(p) + 1
  {
    RankBound(p);
    NextEnd(p);
    if Next(p).Some? { NextStep(p); }
  }

  /** One of the interleavings that are replayed. */
  ghost predicate Replayed(tried: seq<nat>, start: seq<nat>, n: nat, exhaustive: bool)
    requires IsOrder(start, n)
  {
    IsOrder(tried, n) && (tried == start || (exhaustive && Rank(tried) >= Rank(start)))
  }

  /** What is wrong with the interleaving: it ends in another state than the first one, or the step at
      `slot` can not be taken where it is reached. */
  ghost predicate Faulty<S, O, C>(w: World<S, O, C>, s: S, acts: seq<Action<O, C>>, start: seq<nat>, tried: seq<nat>,
                                  slot: nat, fault: ReplayFault)
    requires IsOrder(tried, |acts|)
  {
    OrderInRange(tried, |acts|);
    if fault == OrderDependent then Differ(w, s, acts, start, tried)
    else exists at: nat :: FailsAt(w, s, acts, tried, at, fault) && slot == tried[at]
  }

  lemma OnceMore(n: nat, size: nat)
    ensures (n + 1) * size == n * size + size
  {
  }

  /** Replays a stage in every order from `start` on (or in `start` only), demanding that they
      all end in one state.  Accepts exactly when that is so, and otherwise says what went wrong in the
      order tried last. */
  method ReplayStage<S(==), O, C>(w: World<S, O, C>, s: S, acts: seq<Action<O, C>>, start: seq<nat>, exhaustive: bool)
    returns (r: Result<S, ReplayFault>, count: nat, applied: nat, slot: nat, ghost tried: seq<nat>)
    requires IsOrder(start, |acts|)
    ensures r.Ok? ==> StageVerified(w, s, acts, start, exhaustive, r.value)
    ensures r.Err? ==> !StageVerified(w, s, acts, start, exhaustive, ValueOr(RunOf(w, s, acts, start), s))
    ensures r.Err? ==>
      Replayed(tried, start, |acts|, exhaustive) && Faulty(w, s, acts, start, tried, slot, r.error)
    ensures r.Err? ==> count == Rank(tried) - Rank(start) + (if r.error == OrderDependent then 1 else 0)
    ensures r.Ok? ==> count == if exhaustive then Factorial(|acts|) - Rank(start) else 1
    ensures r.Ok? ==> applied == count * |acts|
  {
    hide RunsTo, RanSoFar, IsOrder, Converges, Differ, FailsAt, StageVerified, Rank, Next, Factorial;
    var permutation := start;
    var expected: Option<S> := None;
    count, applied, slot, tried := 0, 0, 0, start;
    while true
      invariant IsOrder(permutation, |acts|)
      invariant Rank(permutation) == Rank(start) + count
      invariant expected.Some? ==> RunsTo(w, s, acts, start, expected.value)
      invariant expected.Some? ==> RanSoFar(w, s, acts, start, Rank(permutation), expected.value)
      invariant expected.Some? <==> count > 0
      invariant count == 0 ==> permutation == start
      invariant count > 0 ==> exhaustive
      invariant applied == count * |acts|
      decreases Factorial(|acts|) - Rank(permutation)
    {
      OrderInRange(permutation, |acts|);
      Advance(permutation, |acts|);
      tried := permutation;
      var end, steps, at := ReplayOrder(w, s, acts, permutation);
      if end.Err? {
        Refuted(w, s, acts, start, permutation, exhaustive, ValueOr(RunOf(w, s, acts, start), s));
        FailsInside(w, s, acts, permutation, at, end.error);
        return Err(end.error), count, applied + steps, permutation[at], tried;
      }
      OrderLength(permutation, |acts|);
      OnceMore(count, |acts|);
      count, applied := count + 1, applied + steps;
      Reached(w, s, acts, permutation, end.value);
      if expected == None {
        expected := Some(end.value);
        NoneYet(w, s, acts, start, end.value);
      } else if end.value != expected.value {
        Parted(w, s, acts, start, permutation, expected.value, end.value);
        return Err(OrderDependent), count, applied, slot, tried;
      }
      OneMore(w, s, acts, start, permutation, end.value);
      if !exhaustive { break; }
      var next := Next(permutation);
      if next == None { break; }
      permutation := next.value;
    }
    if exhaustive { AllRan(w, s, acts, start, expected.value); }
    Settled(w, s, acts, start, exhaustive, expected.value);
    r := Ok(expected.value);
  }

  lemma OrderLength(q: seq<nat>, n: nat)
    requires IsOrder(q, n)
    ensures |q| == n
  {
  }

  lemma FailsInside<S, O, C>(w: World<S, O, C>, s: S, acts: seq<Action<O, C>>, q: seq<nat>, at: nat, fault: ReplayFault)
    requires forall i :: 0 <= i < |q| ==> q[i] < |acts|
    requires FailsAt(w, s, acts, q, at, fault)
    ensures at < |q| && fault != OrderDependent
  {
  }

  lemma Settled<S, O, C>(w: World<S, O, C>, s: S, acts: seq<Action<O, C>>, start: seq<nat>, exhaustive: bool, out: S)
    requires IsOrder(start, |acts|) && RunsTo(w, s, acts, start, out)
    requires exhaustive ==> Converges(w, s, acts, start, out)
    ensures StageVerified(w, s, acts, start, exhaustive, out)
  {
  }

  /** Looks up the steps a stage lists. */
  method Gather<O, C>(plan: Plan<O, C>, k: nat) returns (acts: seq<Action<O, C>>)
    requires k < |plan.stages| && StageOk(plan, k)
    ensures acts == StageActions(plan, k)
  {
    var ids := plan.stages[k].steps;
    acts := [];
    for i := 0 to |ids|
      invariant |acts| == i
      invariant forall j :: 0 <= j < i ==> acts[j] == StageActions(plan, k)[j]
    {
      assert ids[i] in ids;
      acts := acts + [ActionOf(FindStep(plan, ids[i]).value)];
    }
  }

  /** The canonical replay that carries the state from one stage to the next. */
  method CanonicalReplay<S, O, C>(w: World<S, O, C>, s: S, acts: seq<Action<O, C>>, q: seq<nat>)
    returns (t: Option<S>)
    requires forall i :: 0 <= i < |q| ==> q[i] < |acts|
    ensures t == Replay(w, s, Ops(Pick(acts, q)))
  {
    var state := s;
    for i := 0 to |q|
      invariant Replay(w, s, Ops(Pick(acts, q))) == Replay(w, state, Ops(Pick(acts, q))[i..])
    {
      assert Ops(Pick(acts, q))[i..] == [acts[q[i]].op] + Ops(Pick(acts, q))[i + 1..];
      var next := w.apply(state, acts[q[i]].op);
      if next == None { return None; }
      state := next.value;
    }
    assert Ops(Pick(acts, q))[|q|..] == [];
    t := Some(state);
  }

  /** Why a stage fails where it is entered in state `entry`: it has more interleavings than can be
      counted, two of them part, or in one of them a step can not be taken, for the reason given. */
  ghost predicate StageFails<S, O, C>(w: World<S, O, C>, plan: Plan<O, C>, k: nat, entry: S, exhaustive: bool,
                                      step: Option<StepId>, fault: Option<ReplayFault>)
    requires k < |plan.stages| && StageOk(plan, k)
  {
    var ids, acts := plan.stages[k].steps, StageActions(plan, k);
    ByIdIsOrder(ids);
    if fault == None then |ids| > MAX_COUNTED && step == None
    else
      && (step == None <==> fault == Some(OrderDependent))
      && exists tried, slot: nat :: Replayed(tried, ById(ids), |ids|, exhaustive)
           && Faulty(w, entry, acts, ById(ids), tried, slot, fault.value)
           && (step.Some? ==> slot < |ids| && step.value == ids[slot])
  }

  lemma TooWideFails<S, O, C>(w: World<S, O, C>, plan: Plan<O, C>, k: nat, s0: S, entry: S, exhaustive: bool)
    requires k < |plan.stages| && StagesOk(plan) && |plan.stages[k].steps| > MAX_COUNTED
    ensures !StagePasses(w, plan, s0, k, exhaustive) && StageFails(w, plan, k, entry, exhaustive, None, None)
  {
    hide CanonicalState, StageVerified;
  }

  lemma FaultFails<S, O, C>(w: World<S, O, C>, plan: Plan<O, C>, k: nat, entry: S, exhaustive: bool, start: seq<nat>,
                            tried: seq<nat>, slot: nat, fault: ReplayFault)
    requires k < |plan.stages| && StageOk(plan, k)
    requires IsOrder(start, |plan.stages[k].steps|) && start == ById(plan.stages[k].steps)
    requires Replayed(tried, start, |plan.stages[k].steps|, exhaustive)
    requires Faulty(w, entry, StageActions(plan, k), start, tried, slot, fault)
    ensures slot < |plan.stages[k].steps| || fault == OrderDependent
    ensures StageFails(w, plan, k, entry, exhaustive,
                       if fault == OrderDependent then None else Some(plan.stages[k].steps[slot]), Some(fault))
  {
    hide Differ, IsOrder, StageActions, ById;
    var ids := plan.stages[k].steps;
    OrderInRange(tried, |ids|);
    if fault != OrderDependent {
      var at: nat :| FailsAt(w, entry, StageActions(plan, k), tried, at, fault) && slot == tried[at];
      FailsInside(w, entry, StageActions(plan, k), tried, at, fault);
    }
  }

  lemma StageIsFaulty<S, O, C>(w: World<S, O, C>, plan: Plan<O, C>, k: nat, s0: S, entry: S, exhaustive: bool,
                               start: seq<nat>)
    requires k < |plan.stages| && StagesOk(plan) && CanonicalState(w, plan, s0, k) == Some(entry)
    requires IsOrder(start, |plan.stages[k].steps|) && start == ById(plan.stages[k].steps)
    requires var acts := StageActions(plan, k);
      !StageVerified(w, entry, acts, start, exhaustive, ValueOr(RunOf(w, entry, acts, start), entry))
    ensures !StagePasses(w, plan, s0, k, exhaustive)
  {
    hide StageVerified, StageActions, ById;
  }

  /** One stage: replay its interleavings from the state reached so far, then carry on with the
      canonical order. */
  method VerifyStage<S(==), O, C>(w: World<S, O, C>, plan: Plan<O, C>, k: nat, ghost s0: S, state: S, exhaustive: bool)
    returns (next: Result<S, Option<ReplayFault>>, count: nat, applied: nat, failing: Option<StepId>)
    requires k < |plan.stages| && StagesOk(plan) && CanonicalState(w, plan, s0, k) == Some(state)
    ensures next.Ok? ==> StagePasses(w, plan, s0, k, exhaustive)
    ensures next.Ok? ==> CanonicalState(w, plan, s0, k + 1) == Some(next.value)
    ensures next.Ok? ==> count == StageCount(plan.stages[k], exhaustive)
    ensures next.Ok? ==> applied == StageCount(plan.stages[k], exhaustive) * |plan.stages[k].steps|
    ensures next.Err? ==> !StagePasses(w, plan, s0, k, exhaustive)
    ensures next.Err? ==> StageFails(w, plan, k, state, exhaustive, failing, next.error)
  {
    var ids := plan.stages[k].steps;
    var acts := Gather(plan, k);
    var order := ById(ids);
    ByIdIsOrder(ids);
    count, applied, failing := 0, 0, None;
    var limit := CheckedFactorial(|ids|);
    FactorialFits(|ids|);
    if limit == None {
      TooWideFails(w, plan, k, s0, state, exhaustive);
      return Err(None), count, applied, failing;
    }
    hide StageFails, Replayed, Faulty;
    var end, n, m, slot, tried := ReplayStage(w, state, acts, order, exhaustive);
    count, applied := n, m;
    if end.Err? {
      StageIsFaulty(w, plan, k, s0, state, exhaustive, order);
      FaultFails(w, plan, k, state, exhaustive, order, tried, slot, end.error);
      if end.error != OrderDependent { failing := Some(ids[slot]); }
      return Err(Some(end.error)), count, applied, failing;
    }
    OrderInRange(order, |ids|);
    RunReplays(w, state, Pick(acts, order));
    var replayed := CanonicalReplay(w, state, acts, order);
    next := Ok(replayed.value);
  }

  /** The stage reported is the first that does not pass, and what is reported of it is so. */
  ghost predicate Blamed<S, O, C>(w: World<S, O, C>, plan: Plan<O, C>, s0: S, exhaustive: bool, report: Report,
                                  entry: S)
    requires StagesOk(plan)
  {
    report.failingStage.Some? &&
      var k := report.failingStage.value;
      && k < |plan.stages| && PassUpTo(w, plan, s0, k, exhaustive) && !StagePasses(w, plan, s0, k, exhaustive)
      && CanonicalState(w, plan, s0, k) == Some(entry)
      && StageFails(w, plan, k, entry, exhaustive, report.failingStep, report.fault)
  }

  /** All stages in turn. */
  method VerifyStages<S(==), O, C>(w: World<S, O, C>, plan: Plan<O, C>, s0: S, exhaustive: bool)
    returns (report: Report, ghost entry: S)
    requires StagesOk(plan)
    ensures report.ok <==> PassUpTo(w, plan, s0, |plan.stages|, exhaustive)
    ensures report.ok ==> report.permutationsVerified == Interleavings(plan.stages, exhaustive)
    ensures report.ok ==> report.stepsApplied == Applications(plan.stages, exhaustive)
    ensures report.ok ==> report.failingStage == None && report.failingStep == None && report.fault == None
    ensures !report.ok ==> Blamed(w, plan, s0, exhaustive, report, entry)
  {
    hide StagePasses, StageCount, StageActions, StageFails;
    var state := s0;
    entry := state;
    var permutations, applications := 0, 0;
    for k := 0 to |plan.stages|
      invariant CanonicalState(w, plan, s0, k) == Some(state)
      invariant PassUpTo(w, plan, s0, k, exhaustive)
      invariant permutations == Interleavings(plan.stages[..k], exhaustive)
      invariant applications == Applications(plan.stages[..k], exhaustive)
    {
      entry := state;
      assert plan.stages[..k + 1][..k] == plan.stages[..k];
      var next, count, applied, failing := VerifyStage(w, plan, k, s0, state, exhaustive);
      permutations, applications := permutations + count, applications + applied;
      if next.Err? {
        if PassUpTo(w, plan, s0, |plan.stages|, exhaustive) { PassAt(w, plan, s0, |plan.stages|, k, exhaustive); }
        return Report(false, permutations, applications, Some(k), failing, next.error), entry;
      }
      state := next.value;
    }
    assert plan.stages[..|plan.stages|] == plan.stages;
    report := Report(true, permutations, applications, None, None, None);
  }

  /** The reported stage really has two safe interleavings that end differently. */
  ghost predicate OrderDependence<S, O, C>(w: World<S, O, C>, plan: Plan<O, C>, stage: Option<nat>, entry: S) {
    && stage.Some? && stage.value < |plan.stages| && StageOk(plan, stage.value)
    && Diverges(w, entry, StageActions(plan, stage.value))
  }

  /** What is looked at before any step is replayed. */
  ghost predicate Admitted<S, O, C>(plan: Plan<O, C>, request: Request<S, O, C>) {
    var w := request.worldAt(plan.instant);
    StructureOk(plan, w.stepId) && plan.binding == request.binding && !w.violated(request.state)
  }

  /** A stage blamed for order dependence has two safe interleavings that end differently. */
  lemma BlamedDiverges<S, O, C>(w: World<S, O, C>, plan: Plan<O, C>, s0: S, exhaustive: bool, report: Report, entry: S)
    requires StagesOk(plan) && Blamed(w, plan, s0, exhaustive, report, entry) && report.fault == Some(OrderDependent)
    ensures OrderDependence(w, plan, report.failingStage, entry)
  {
    hide PassUpTo, StagePasses, CanonicalState;
  }

  lemma StructureStages<O, C>(plan: Plan<O, C>, stepId: O -> StepId)
    requires StructureOk(plan, stepId)
    ensures StagesOk(plan)
  {
  }

  /** Verification accepts a plan exactly when it is well formed, bound to the request, starts
      safe, and every stage passes.  Where the stages are what is wrong, it names the first that does not
      pass, and rightly says why. */
  method VerifyPlan<S(==), O(==), C>(plan: Plan<O, C>, request: Request<S, O, C>, exhaustive: bool)
    returns (report: Report, ghost entry: S)
    ensures report.ok <==> Verified(plan, request, exhaustive)
    ensures report.ok ==> report.permutationsVerified == Interleavings(plan.stages, exhaustive)
    ensures report.ok ==> report.stepsApplied == Applications(plan.stages, exhaustive)
    ensures report.ok ==> report.failingStage == None && report.failingStep == None && report.fault == None
    ensures Admitted(plan, request) && !report.ok ==>
      StagesOk(plan) && Blamed(request.worldAt(plan.instant), plan, request.state, exhaustive, report, entry)
    ensures !Admitted(plan, request) ==> report == Report(false, 0, 0, None, None, None)
    ensures report.fault == Some(OrderDependent) ==>
      OrderDependence(request.worldAt(plan.instant), plan, report.failingStage, entry)
  {
    hide Blamed, OrderDependence, PassUpTo, StructureOk, StagesOk, Interleavings, Applications;
    var w := request.worldAt(plan.instant);
    entry := request.state;
    var structure := VerifyStructure(plan, w.stepId);
    if structure != None { return Report(false, 0, 0, None, None, None), entry; }
    if plan.binding != request.binding { return Report(false, 0, 0, None, None, None), entry; }
    if w.violated(request.state) { return Report(false, 0, 0, None, None, None), entry; }
    StructureStages(plan, w.stepId);
    report, entry := VerifyStages(w, plan, request.state, exhaustive);
    if report.fault == Some(OrderDependent) { BlamedDiverges(w, plan, request.state, exhaustive, report, entry); }
  }
}
