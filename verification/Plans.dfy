/** Plans and their structural self-check. */
module Plans {
  import opened Wrappers
  import opened Permutations
  import opened Worlds
  import opened Kahn

  /** Everything a plan is bound to.  Identities and digests are numbers; zero is the empty
      identity and the zero digest. */
  datatype Binding = Binding(
    topologyGeneration: nat, authority: nat, authorityGeneration: nat, bootIncarnation: nat, epoch: nat,
    capabilityVersion: nat, targetRevision: nat,
    topologyDigest: nat, targetDigest: nat, constraintDigest: nat, evidenceDigest: nat,
    topologySummary: nat)

  datatype Step<O, C> = Step(
    id: StepId, stage: nat, op: O, pre: seq<C>, post: seq<C>,
    justified: bool)                        // the justification lists at least one checked invariant

  datatype Stage = Stage(
    index: nat, steps: seq<StepId>, verifiedPermutations: nat, verifiedApplications: nat)

  datatype Plan<O, C> = Plan(
    id: nat, binding: Binding, instant: int, stages: seq<Stage>, steps: seq<Step<O, C>>, edges: seq<Edge>,
    verificationDigest: nat, verifiedPermutations: nat, rejected: seq<string>, title: string)

  datatype Fault = InvalidArgument | DuplicateIdentity | IntegrityFailure | NotFound

  /** Position of the first step with identity `id`; |steps| when there is none. */
  function IndexOf<O, C>(steps: seq<Step<O, C>>, id: StepId): (k: nat)
    ensures k <= |steps|
    ensures k < |steps| ==> steps[k].id == id
    ensures forall j :: 0 <= j < k ==> steps[j].id != id
  {
    if steps == [] || steps[0].id == id then 0
    else
      var k := IndexOf(steps[1..], id);
      assert forall j :: 1 <= j < k + 1 ==> steps[j] == steps[1..][j - 1];
      k + 1
  }

  function FindStep<O, C>(plan: Plan<O, C>, id: StepId): Option<Step<O, C>> {
    var k := IndexOf(plan.steps, id);
    if k < |plan.steps| then Some(plan.steps[k]) else None
  }

  function Ids<O, C>(steps: seq<Step<O, C>>): (ids: seq<StepId>)
    ensures |ids| == |steps|
  {
    seq(|steps|, i requires 0 <= i < |steps| => steps[i].id)
  }

  // ----- what a well-formed plan is -----

  ghost predicate StepOk<O, C>(step: Step<O, C>, stepId: O -> StepId) {
    step.id != 0 && step.id == stepId(step.op) && step.pre != [] && step.post != [] && step.justified
  }

  ghost predicate StepsOk<O, C>(steps: seq<Step<O, C>>, stepId: O -> StepId) {
    && Distinct(Ids(steps))
    && (forall i :: 0 <= i < |steps| ==> StepOk(steps[i], stepId))
  }

  /** Stage `k` is numbered `k`, is not empty, lists no step twice and lists only steps that say
      they belong to it. */
  ghost predicate StageOk<O, C>(plan: Plan<O, C>, k: nat)
    requires k < |plan.stages|
  {
    var stage := plan.stages[k];
    && stage.index == k
    && stage.steps != []
    && Distinct(stage.steps)
    && (forall id :: id in stage.steps ==> FindStep(plan, id).Some? && FindStep(plan, id).value.stage == k)
  }

  ghost predicate Listed<O, C>(plan: Plan<O, C>, step: Step<O, C>) {
    step.stage < |plan.stages| && step.id in plan.stages[step.stage].steps
  }

  ghost predicate EdgeOk<O, C>(plan: Plan<O, C>, e: Edge) {
    && FindStep(plan, e.from).Some? && FindStep(plan, e.to).Some?
    && FindStep(plan, e.from).value.stage < FindStep(plan, e.to).value.stage
  }

  ghost predicate HeaderOk<O, C>(plan: Plan<O, C>) {
    && plan.id != 0 && plan.binding.authority != 0
    && plan.binding.topologyDigest != 0 && plan.binding.targetDigest != 0
    && plan.binding.constraintDigest != 0 && plan.binding.evidenceDigest != 0
  }

  /** A plan is well formed when its steps are genuine and distinct, its stages are numbered and
      partition the steps, and every edge goes to a strictly later stage. */
  ghost predicate StructureOk<O, C>(plan: Plan<O, C>, stepId: O -> StepId) {
    && HeaderOk(plan)
    && (plan.steps == [] <==> plan.stages == [])
    && (plan.steps != [] ==>
      && StepsOk(plan.steps, stepId)
      && (forall k :: 0 <= k < |plan.stages| ==> StageOk(plan, k))
      && (forall i :: 0 <= i < |plan.steps| ==> Listed(plan, plan.steps[i]))
      && (forall e :: e in plan.edges ==> EdgeOk(plan, e)))
  }

  // ----- what is wrong with one that is not -----

  ghost predicate StepsFault<O, C>(steps: seq<Step<O, C>>, stepId: O -> StepId, fault: Fault) {
    match fault
    case InvalidArgument => exists i :: 0 <= i < |steps| && Incomplete(steps[i])
    case DuplicateIdentity => exists i, j :: 0 <= i < j < |steps| && steps[i].id == steps[j].id
    case IntegrityFailure => exists i :: 0 <= i < |steps| && steps[i].id != stepId(steps[i].op)
    case NotFound => false
  }

  ghost predicate Incomplete<O, C>(step: Step<O, C>) {
    step.id == 0 || step.pre == [] || step.post == [] || !step.justified
  }

  /** A stage is misnumbered or empty, lists a step again, one the plan does not have, or one that says it
      belongs elsewhere. */
  ghost predicate StageFault<O, C>(plan: Plan<O, C>, k: nat, fault: Fault)
    requires k < |plan.stages|
  {
    var stage := plan.stages[k];
    match fault
    case InvalidArgument => stage.index != k || stage.steps == []
    case DuplicateIdentity =>
      || (exists i, j :: 0 <= i < j < |stage.steps| && stage.steps[i] == stage.steps[j])
      || (exists j, id :: 0 <= j < k && id in plan.stages[j].steps && id in stage.steps)
    case IntegrityFailure =>
      exists id :: id in stage.steps && FindStep(plan, id).Some? && FindStep(plan, id).value.stage != k
    case NotFound => exists id :: id in stage.steps && FindStep(plan, id) == None
  }

  ghost predicate EdgeFault<O, C>(plan: Plan<O, C>, e: Edge, fault: Fault) {
    var from, to := FindStep(plan, e.from), FindStep(plan, e.to);
    match fault
    case InvalidArgument => e.from == e.to
    case DuplicateIdentity => false
    case IntegrityFailure => from.Some? && to.Some? && from.value.stage >= to.value.stage
    case NotFound => from == None || to == None
  }

  /** The plan has the fault: in its header, as one that has steps without stages or stages without steps,
      in a step, a stage or an edge, or in a step that no stage lists. */
  ghost predicate HasFault<O, C>(plan: Plan<O, C>, stepId: O -> StepId, fault: Fault) {
    || (fault == InvalidArgument && (!HeaderOk(plan) || (plan.steps == [] <==> plan.stages != [])))
    || StepsFault(plan.steps, stepId, fault)
    || (exists k :: 0 <= k < |plan.stages| && StageFault(plan, k, fault))
    || (exists e :: e in plan.edges && EdgeFault(plan, e, fault))
    || (fault == IntegrityFailure && exists i :: 0 <= i < |plan.steps| && !Listed(plan, plan.steps[i]))
  }

  // ----- the check -----

  method CheckSteps<O(==), C>(steps: seq<Step<O, C>>, stepId: O -> StepId)
    returns (fault: Option<Fault>, ids: set<StepId>)
    ensures fault == None <==> StepsOk(steps, stepId)
    ensures fault.Some? ==> StepsFault(steps, stepId, fault.value)
    ensures fault == None ==> ids == Elements(Ids(steps))
  {
    ids := {};
    for i := 0 to |steps|
      invariant ids == Elements(Ids(steps)[..i])
      invariant forall j :: 0 <= j < i ==> StepOk(steps[j], stepId)
      invariant Distinct(Ids(steps)[..i])
    {
      var step := steps[i];
      assert Ids(steps)[..i + 1] == Ids(steps)[..i] + [step.id];
      if step.id == 0 {
        assert Incomplete(step);
        return Some(InvalidArgument), ids;
      }
      if step.id in ids {
        var j :| 0 <= j < i && Ids(steps)[..i][j] == step.id;
        assert Ids(steps)[j] == Ids(steps)[i];
        return Some(DuplicateIdentity), ids;
      }
      ids := ids + {step.id};
      if step.id != stepId(step.op) { return Some(IntegrityFailure), ids; }
      if step.pre == [] || step.post == [] || !step.justified {
        assert Incomplete(step);
        return Some(InvalidArgument), ids;
      }
    }
    assert Ids(steps)[..|steps|] == Ids(steps);
    fault := None;
  }

  /** Everything the stages before `k` list. */
  ghost function Staged<O, C>(plan: Plan<O, C>, k: nat): set<StepId>
    requires k <= |plan.stages|
  {
    if k == 0 then {} else Staged(plan, k - 1) + Elements(plan.stages[k - 1].steps)
  }

  lemma {:induction false} StagedMeans<O, C>(plan: Plan<O, C>, k: nat, id: StepId)
    requires k <= |plan.stages|
    requires forall j :: 0 <= j < k ==> StageOk(plan, j)
    ensures id in Staged(plan, k) <==>
      FindStep(plan, id).Some? && FindStep(plan, id).value.stage < k
      && id in plan.stages[FindStep(plan, id).value.stage].steps
  {
    if k > 0 {
      StagedMeans(plan, k - 1, id);
      assert StageOk(plan, k - 1);
      assert id in Elements(plan.stages[k - 1].steps) <==> id in plan.stages[k - 1].steps;
    }
  }

  method CheckStage<O, C>(plan: Plan<O, C>, k: nat, before: set<StepId>)
    returns (fault: Option<Fault>, staged: set<StepId>)
    requires k < |plan.stages| && before == Staged(plan, k)
    requires forall j :: 0 <= j < k ==> StageOk(plan, j)
    ensures fault == None <==> StageOk(plan, k)
    ensures fault.Some? ==> StageFault(plan, k, fault.value)
    ensures fault == None ==> staged == Staged(plan, k + 1)
  {
    var stage := plan.stages[k];
    staged := before;
    if stage.index != k { return Some(InvalidArgument), staged; }
    if stage.steps == [] { return Some(InvalidArgument), staged; }
    for i := 0 to |stage.steps|
      invariant staged == before + Elements(stage.steps[..i])
      invariant Distinct(stage.steps[..i])
      invariant forall id :: id in stage.steps[..i] ==> FindStep(plan, id).Some? && FindStep(plan, id).value.stage == k
    {
      var id := stage.steps[i];
      assert id in stage.steps;
      assert stage.steps[..i + 1] == stage.steps[..i] + [id];
      StagedMeans(plan, k, id);
      if id in staged {
        if id in stage.steps[..i] {
          var j :| 0 <= j < i && stage.steps[..i][j] == id;
          assert stage.steps[j] == stage.steps[i];
        } else {
          var j := FindStep(plan, id).value.stage;
          assert 0 <= j < k && id in plan.stages[j].steps && id in stage.steps;
        }
        return Some(DuplicateIdentity), staged;
      }
      staged := staged + {id};
      var found := FindStep(plan, id);
      if found == None { return Some(NotFound), staged; }
      if found.value.stage != k { return Some(IntegrityFailure), staged; }
    }
    assert stage.steps[..|stage.steps|] == stage.steps;
    fault := None;
  }

  method CheckStages<O, C>(plan: Plan<O, C>) returns (fault: Option<Fault>, staged: set<StepId>)
    ensures fault == None <==> forall k :: 0 <= k < |plan.stages| ==> StageOk(plan, k)
    ensures fault.Some? ==> exists k :: 0 <= k < |plan.stages| && StageFault(plan, k, fault.value)
    ensures fault == None ==> staged == Staged(plan, |plan.stages|)
  {
    staged := {};
    for k := 0 to |plan.stages|
      invariant forall j :: 0 <= j < k ==> StageOk(plan, j)
      invariant staged == Staged(plan, k)
    {
      fault, staged := CheckStage(plan, k, staged);
      if fault != None { return; }
    }
    fault := None;
  }

  method CheckEdges<O, C>(plan: Plan<O, C>) returns (fault: Option<Fault>)
    ensures fault == None <==> forall e :: e in plan.edges ==> EdgeOk(plan, e)
    ensures fault.Some? ==> exists e :: e in plan.edges && EdgeFault(plan, e, fault.value)
  {
    for i := 0 to |plan.edges|
      invariant forall j :: 0 <= j < i ==> EdgeOk(plan, plan.edges[j])
    {
      var e := plan.edges[i];
      assert e in plan.edges;
      if e.from == e.to { return Some(InvalidArgument); }
      var from, to := FindStep(plan, e.from), FindStep(plan, e.to);
      if from == None || to == None { return Some(NotFound); }
      if from.value.stage >= to.value.stage { return Some(IntegrityFailure); }
    }
    fault := None;
  }

  lemma FindOwn<O, C>(plan: Plan<O, C>, i: nat)
    requires Distinct(Ids(plan.steps)) && i < |plan.steps|
    ensures FindStep(plan, plan.steps[i].id) == Some(plan.steps[i])
  {
    var k := IndexOf(plan.steps, plan.steps[i].id);
    assert Ids(plan.steps)[k] == Ids(plan.steps)[i];
  }

  /** The stages cover the steps exactly when they list as many steps as the plan has. */
  lemma CoverageBySize<O, C>(plan: Plan<O, C>)
    requires Distinct(Ids(plan.steps))
    requires forall k :: 0 <= k < |plan.stages| ==> StageOk(plan, k)
    ensures |Staged(plan, |plan.stages|)| == |Elements(Ids(plan.steps))| <==>
      forall i :: 0 <= i < |plan.steps| ==> Listed(plan, plan.steps[i])
  {
    var staged, all := Staged(plan, |plan.stages|), Elements(Ids(plan.steps));
    forall id ensures id in staged ==> id in all {
      StagedMeans(plan, |plan.stages|, id);
      if id in staged { assert Ids(plan.steps)[IndexOf(plan.steps, id)] == id; }
    }
    assert all == staged + (all - staged);
    forall i | 0 <= i < |plan.steps| ensures Ids(plan.steps)[i] in staged <==> Listed(plan, plan.steps[i]) {
      FindOwn(plan, i);
      StagedMeans(plan, |plan.stages|, plan.steps[i].id);
    }
    if forall i :: 0 <= i < |plan.steps| ==> Listed(plan, plan.steps[i]) {
      assert all - staged == {};
    } else {
      var i :| 0 <= i < |plan.steps| && !Listed(plan, plan.steps[i]);
      assert Ids(plan.steps)[i] in all - staged;
    }
  }

  /** The structural check accepts exactly the well-formed plans, and a fault it finds is there.  Its
      acyclicity pass can never be what rejects a plan: edges that reach it already rise through the stages. */
  method VerifyStructure<O(==), C>(plan: Plan<O, C>, stepId: O -> StepId) returns (fault: Option<Fault>)
    ensures fault == None <==> StructureOk(plan, stepId)
    ensures fault.Some? ==> HasFault(plan, stepId, fault.value)
  {
    hide StepsFault, StageFault, EdgeFault;
    if plan.id == 0 { return Some(InvalidArgument); }
    if plan.binding.authority == 0 { return Some(InvalidArgument); }
    if plan.binding.topologyDigest == 0 || plan.binding.targetDigest == 0
       || plan.binding.constraintDigest == 0 || plan.binding.evidenceDigest == 0 {
      return Some(InvalidArgument);
    }
    if (plan.steps == []) != (plan.stages == []) { return Some(InvalidArgument); }
    if plan.steps == [] { return None; }
    var stepFault, ids := CheckSteps(plan.steps, stepId);
    if stepFault != None { return stepFault; }
    var stageFault, staged := CheckStages(plan);
    if stageFault != None { return stageFault; }
    CoverageBySize(plan);
    if |staged| != |ids| { return Some(IntegrityFailure); }
    var edgeFault := CheckEdges(plan);
    if edgeFault != None { return edgeFault; }
    EdgesRise(plan);
    var acyclic := Acyclic(Ids(plan.steps), plan.edges);
    if !acyclic { return Some(IntegrityFailure); }
    fault := None;
  }

  lemma EdgesRise<O, C>(plan: Plan<O, C>)
    requires forall e :: e in plan.edges ==> EdgeOk(plan, e)
    ensures Known(Ids(plan.steps), plan.edges)
    ensures !exists t :: Trapped(Ids(plan.steps), plan.edges, t)
  {
    var ids := Ids(plan.steps);
    forall e | e in plan.edges ensures e.from in ids && e.to in ids {
      assert ids[IndexOf(plan.steps, e.from)] == e.from;
      assert ids[IndexOf(plan.steps, e.to)] == e.to;
    }
    var rank: StepId -> nat := id => match FindStep(plan, id) { case Some(step) => step.stage case None => 0 };
    forall t ensures !Trapped(ids, plan.edges, t) {
      RisingUntrapped(ids, plan.edges, rank, t);
    }
  }
}
