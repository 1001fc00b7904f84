/** Scheduling: the linear order found by the search is compressed into stages of steps that may
    run in parallel, each batch being replayed before it is sealed. */
module Schedule {
  import opened Wrappers
  import opened Permutations
  import opened Checked
  import opened Sorting
  import opened Worlds
  import opened Plans
  import opened Verification
  import opened Search

  datatype Limits = Limits(maxStageWidth: nat, maxPermutationChecks: nat, maxStatesVisited: nat)

  /** Counters shared by everything one planning request does. */
  class Diagnostics {
    var permutationChecks: nat
    var statesVisited: nat
    var schedulingAttempts: nat

    constructor ()
      ensures permutationChecks == 0 && statesVisited == 0 && schedulingAttempts == 0
    {
      permutationChecks, statesVisited, schedulingAttempts := 0, 0, 0;
    }

    /** A budget has run out, or a stage may be too wide for its interleavings to be counted. */
    ghost predicate Overdrawn(limits: Limits)
      reads this
    {
      || permutationChecks > limits.maxPermutationChecks || statesVisited > limits.maxStatesVisited
      || limits.maxStageWidth > MAX_COUNTED
    }
  }

  datatype StageCheck = StageCheck(ok: bool, limitExceeded: bool, permutations: nat, applications: nat)

  /** What the steps of a batch do, with the conditions derived at the batch's entry state. */
  function BatchActions<S, O, C>(w: World<S, O, C>, nodes: seq<Node<O>>, entry: S, batch: seq<nat>)
    : (acts: seq<Action<O, C>>)
    requires forall i :: 0 <= i < |batch| ==> batch[i] < |nodes|
    ensures |acts| == |batch|
  {
    seq(|batch|, i requires 0 <= i < |batch| => DerivedAction(w, entry, nodes[batch[i]].op))
  }

  function DerivedAction<S, O, C>(w: World<S, O, C>, entry: S, op: O): Action<O, C> {
    Action(op, w.preconditions(entry, op), w.postconditions(entry, op))
  }

  function BatchIds<O>(nodes: seq<Node<O>>, batch: seq<nat>): (ids: seq<StepId>)
    requires forall i :: 0 <= i < |batch| ==> batch[i] < |nodes|
    ensures |ids| == |batch|
  {
    seq(|batch|, i requires 0 <= i < |batch| => nodes[batch[i]].id)
  }

  /** A batch that replayed safely from `entry`, ending in `exit`: in every order from the
      identity-sorted one on.  Orders before that one are not looked at here. */
  ghost predicate BatchVerified<S, O, C>(w: World<S, O, C>, nodes: seq<Node<O>>, entry: S, batch: seq<nat>, exit: S)
    requires forall i :: 0 <= i < |batch| ==> batch[i] < |nodes|
  {
    ByIdIsOrder(BatchIds(nodes, batch));
    StageVerified(w, entry, BatchActions(w, nodes, entry, batch), ById(BatchIds(nodes, batch)), true, exit)
  }

  /** The batch replays safely from `entry` into whatever state its first order leads to. */
  ghost predicate Passes<S, O, C>(w: World<S, O, C>, nodes: seq<Node<O>>, entry: S, batch: seq<nat>)
    requires forall i :: 0 <= i < |batch| ==> batch[i] < |nodes|
  {
    ByIdIsOrder(BatchIds(nodes, batch));
    var out := RunOf(w, entry, BatchActions(w, nodes, entry, batch), ById(BatchIds(nodes, batch)));
    out.Some? && BatchVerified(w, nodes, entry, batch, out.value)
  }

  /** There is no other state it could lead to. */
  lemma PassesIffVerified<S, O, C>(w: World<S, O, C>, nodes: seq<Node<O>>, entry: S, batch: seq<nat>, exit: S)
    requires forall i :: 0 <= i < |batch| ==> batch[i] < |nodes|
    ensures BatchVerified(w, nodes, entry, batch, exit) ==> Passes(w, nodes, entry, batch)
  {
    hide Converges, BatchIds, BatchActions, ById, IsOrder;
    ByIdIsOrder(BatchIds(nodes, batch));
    Verification.Reached(w, entry, BatchActions(w, nodes, entry, batch), ById(BatchIds(nodes, batch)), exit);
  }

  /** One interleaving under the state budget. */
  method ReplayWithin<S, O, C>(w: World<S, O, C>, s: S, acts: seq<Action<O, C>>, q: seq<nat>, limits: Limits,
                               d: Diagnostics)
    returns (r: Option<S>, limitExceeded: bool, applied: nat)
    requires forall i :: 0 <= i < |q| ==> q[i] < |acts|
    modifies d`statesVisited
    ensures d.statesVisited >= old(d.statesVisited)
    ensures limitExceeded ==> r == None && d.statesVisited > limits.maxStatesVisited
    ensures !limitExceeded ==> Run(w, s, Pick(acts, q)) == r
  {
    var working := s;
    applied := 0;
    for i := 0 to |q|
      invariant Run(w, s, Pick(acts, q)) == Run(w, working, Pick(acts, q)[i..])
      invariant d.statesVisited >= old(d.statesVisited)
    {
      var a := acts[q[i]];
      assert Pick(acts, q)[i..] == [a] + Pick(acts, q)[i + 1..];
      var before := HoldAll(w, working, a.pre);
      if !before { return None, false, applied; }
      var next := w.apply(working, a.op);
      if next == None { return None, false, applied; }
      working := next.value;
      applied := applied + 1;
      d.statesVisited := d.statesVisited + 1;
      if d.statesVisited > limits.maxStatesVisited { return None, true, applied; }
      var after := HoldAll(w, working, a.post);
      if !after { return None, false, applied; }
      if w.violated(working) { return None, false, applied; }
    }
    assert Pick(acts, q)[|q|..] == [];
    r, limitExceeded := Some(working), false;
  }

  /** Replays a batch in every order from the identity-sorted one on. */
  method VerifyBatch<S(==), O, C>(w: World<S, O, C>, nodes: seq<Node<O>>, entry: S, batch: seq<nat>,
                                  limits: Limits, d: Diagnostics)
    returns (check: StageCheck, ghost exit: S)
    requires forall i :: 0 <= i < |batch| ==> batch[i] < |nodes|
    modifies d`permutationChecks, d`statesVisited
    ensures d.statesVisited >= old(d.statesVisited) && d.permutationChecks >= old(d.permutationChecks)
    ensures check.ok ==> BatchVerified(w, nodes, entry, batch, exit) && |batch| <= MAX_COUNTED
    ensures check.ok ==> Passes(w, nodes, entry, batch)
    ensures !check.ok && !check.limitExceeded ==> !Passes(w, nodes, entry, batch)
    ensures check.limitExceeded ==> !check.ok && (d.Overdrawn(limits) || |batch| > MAX_COUNTED)
    ensures check.ok ==> check.permutations == Factorial(|batch|) - Rank(ById(BatchIds(nodes, batch)))
    ensures !check.ok && !check.limitExceeded ==> !BatchVerified(w, nodes, entry, batch, exit)
  {
    hide RunsTo, RanSoFar, IsOrder, Converges, Diverges, Rank, Next, Factorial, ById, BatchIds, BatchActions;
    var acts := BatchActions(w, nodes, entry, batch);
    var start := ById(BatchIds(nodes, batch));
    ByIdIsOrder(BatchIds(nodes, batch));
    exit := ValueOr(RunOf(w, entry, acts, start), entry);
    var limit := CheckedFactorial(|batch|);
    FactorialFits(|batch|);
    if limit == None { return StageCheck(false, true, 0, 0), exit; }
    var permutation, expected, permutations, applications := start, None, 0, 0;
    while true
      invariant IsOrder(permutation, |acts|)
      invariant Rank(permutation) == Rank(start) + permutations
      invariant expected.Some? ==> expected.value == exit && RunsTo(w, entry, acts, start, exit)
      invariant expected.Some? ==> RanSoFar(w, entry, acts, start, Rank(permutation), exit)
      invariant expected.Some? <==> permutations > 0
      invariant permutations == 0 ==> permutation == start
      invariant d.statesVisited >= old(d.statesVisited) && d.permutationChecks >= old(d.permutationChecks)
      decreases Factorial(|acts|) - Rank(permutation)
    {
      permutations := permutations + 1;
      d.permutationChecks := d.permutationChecks + 1;
      if d.permutationChecks > limits.maxPermutationChecks {
        return StageCheck(false, true, permutations, applications), exit;
      }
      OrderInRange(permutation, |acts|);
      Advance(permutation, |acts|);
      var end, exceeded, applied := ReplayWithin(w, entry, acts, permutation, limits, d);
      applications := applications + applied;
      if exceeded { return StageCheck(false, true, permutations, applications), exit; }
      if end == None {
        Refuted(w, entry, acts, start, permutation, true, exit);
        return StageCheck(false, false, permutations, applications), exit;
      }
      Verification.Reached(w, entry, acts, permutation, end.value);
      if expected == None {
        expected := end;
        NoneYet(w, entry, acts, start, exit);
      } else if end.value != expected.value {
        Parted(w, entry, acts, start, permutation, exit, end.value);
        return StageCheck(false, false, permutations, applications), exit;
      }
      OneMore(w, entry, acts, start, permutation, exit);
      var next := Next(permutation);
      if next == None { break; }
      permutation := next.value;
    }
    AllRan(w, entry, acts, start, exit);
    Settled(w, entry, acts, start, true, exit);
    PassesIffVerified(w, nodes, entry, batch, exit);
    check := StageCheck(true, false, permutations, applications);
  }

  // ----- compressing a linear order into stages -----

  predicate Linked(linked: set<(StepId, StepId)>, a: StepId, b: StepId) {
    (a, b) in linked
  }

  ghost predicate InRange<O>(nodes: seq<Node<O>>, batch: seq<nat>) {
    forall i :: 0 <= i < |batch| ==> batch[i] < |nodes|
  }

  /** No two members are joined by an edge. */
  ghost predicate Unlinked<O>(nodes: seq<Node<O>>, linked: set<(StepId, StepId)>, batch: seq<nat>)
    requires InRange(nodes, batch)
  {
    forall i, j :: 0 <= i < j < |batch| ==> !Linked(linked, nodes[batch[i]].id, nodes[batch[j]].id)
  }

  function SortedIds<O>(nodes: seq<Node<O>>, batch: seq<nat>): seq<StepId>
    requires forall i :: 0 <= i < |batch| ==> batch[i] < |nodes|
  {
    Sort(BatchIds(nodes, batch), ByKey(id => id))
  }

  function BatchSteps<S, O, C>(w: World<S, O, C>, nodes: seq<Node<O>>, entry: S, batch: seq<nat>, index: nat)
    : (steps: seq<Step<O, C>>)
    requires forall i :: 0 <= i < |batch| ==> batch[i] < |nodes|
    ensures |steps| == |batch|
  {
    seq(|batch|, i requires 0 <= i < |batch| =>
      var node := nodes[batch[i]];
      Step(node.id, index, node.op, w.preconditions(entry, node.op), w.postconditions(entry, node.op), false))
  }

  /** What a schedule is made for: the steps and which of them are joined by an edge, how wide a
      stage may be, and the state it starts from. */
  datatype Task<!S, !O, !C> = Task(
    w: World<S, O, C>, nodes: seq<Node<O>>, linked: set<(StepId, StepId)>, width: nat, start: S)

  /** Sealed stages and steps, with the batches of nodes they were made from and the states between
      them. */
  datatype Timetable<!S, !O, !C> = Timetable(
    stages: seq<Stage>, steps: seq<Step<O, C>>, batches: seq<seq<nat>>, entries: seq<S>)

  /** A sealed stage: nonempty, narrow enough, free of links, listed by identity, and replayed
      safely from its entry state into its exit state. */
  ghost predicate Sealed<S, O, C>(task: Task<S, O, C>, stage: Stage, index: nat, batch: seq<nat>, entry: S, exit: S) {
    && InRange(task.nodes, batch) && 0 < |batch| <= task.width && Unlinked(task.nodes, task.linked, batch)
    && stage.index == index && stage.steps == SortedIds(task.nodes, batch)
    && BatchVerified(task.w, task.nodes, entry, batch, exit)
  }

  ghost predicate AllInRange<O>(nodes: seq<Node<O>>, batches: seq<seq<nat>>) {
    forall k :: 0 <= k < |batches| ==> InRange(nodes, batches[k])
  }

  /** A batch was closed before the next step for a reason: it has the full width, an edge joins one of
      its members to that step, or with that step added it does not replay safely. */
  ghost predicate Closed<S, O, C>(task: Task<S, O, C>, entry: S, batch: seq<nat>, next: nat) {
    && next < |task.nodes| && InRange(task.nodes, batch)
    && (|| |batch| == task.width
        || JoinedTo(task.nodes, task.linked, batch, next)
        || !Passes(task.w, task.nodes, entry, batch + [next]))
  }

  /** An edge joins a member of the batch to the step. */
  ghost predicate JoinedTo<O>(nodes: seq<Node<O>>, linked: set<(StepId, StepId)>, batch: seq<nat>, next: nat)
    requires InRange(nodes, batch) && next < |nodes|
  {
    exists i :: 0 <= i < |batch| && Linked(linked, nodes[batch[i]].id, nodes[next].id)
  }

  /** Batch `k` was closed before the first step of the one after it. */
  ghost predicate ClosedAt<S, O, C>(task: Task<S, O, C>, t: Timetable<S, O, C>, k: nat)
    requires k + 1 < |t.batches| <= |t.entries|
  {
    t.batches[k + 1] != [] && Closed(task, t.entries[k], t.batches[k], t.batches[k + 1][0])
  }

  /** Everything sealed so far. */
  ghost predicate Built<S, O, C>(task: Task<S, O, C>, t: Timetable<S, O, C>) {
    && |t.stages| == |t.batches| && |t.entries| == |t.batches| + 1 && t.entries[0] == task.start
    && AllInRange(task.nodes, t.batches)
    && (forall k :: 0 <= k < |t.batches| ==> Sealed(task, t.stages[k], k, t.batches[k], t.entries[k], t.entries[k + 1]))
    && t.steps == AllSteps(task.w, task.nodes, t.batches, t.entries)
    && (forall k :: 0 <= k < |t.batches| - 1 ==> ClosedAt(task, t, k))
  }

  ghost function AllSteps<S, O, C>(w: World<S, O, C>, nodes: seq<Node<O>>, batches: seq<seq<nat>>, entries: seq<S>)
    : seq<Step<O, C>>
    requires |entries| > |batches|
    requires AllInRange(nodes, batches)
  {
    if batches == [] then []
    else
      var n := |batches| - 1;
      assert InRange(nodes, batches[n]);
      AllSteps(w, nodes, batches[..n], entries) + BatchSteps(w, nodes, entries[n], batches[n], n)
  }

  ghost function Concat(batches: seq<seq<nat>>): seq<nat> {
    if batches == [] then [] else Concat(batches[..|batches| - 1]) + batches[|batches| - 1]
  }

  lemma {:induction false} StepsKept<S, O, C>(w: World<S, O, C>, nodes: seq<Node<O>>, batches: seq<seq<nat>>,
                                             entries: seq<S>, last: S)
    requires |entries| > |batches|
    requires AllInRange(nodes, batches)
    ensures AllSteps(w, nodes, batches, entries + [last]) == AllSteps(w, nodes, batches, entries)
  {
    if batches != [] {
      StepsKept(w, nodes, batches[..|batches| - 1], entries, last);
    }
  }

  /** One more stage. */
  ghost function Sealing<S, O, C>(task: Task<S, O, C>, t: Timetable<S, O, C>, stage: Stage, batch: seq<nat>,
                                  exit: S): Timetable<S, O, C>
    requires InRange(task.nodes, batch) && |t.entries| > |t.batches|
  {
    Timetable(t.stages + [stage], t.steps + BatchSteps(task.w, task.nodes, t.entries[|t.batches|], batch, |t.batches|),
              t.batches + [batch], t.entries + [exit])
  }

  lemma SealOne<S, O, C>(task: Task<S, O, C>, t: Timetable<S, O, C>, stage: Stage, batch: seq<nat>, exit: S)
    requires Built(task, t) && Sealed(task, stage, |t.batches|, batch, t.entries[|t.batches|], exit)
    requires t.batches != [] ==> batch != [] && LastClosed(task, t, batch[0])
    ensures InRange(task.nodes, batch) && Built(task, Sealing(task, t, stage, batch, exit))
    ensures Concat(t.batches + [batch]) == Concat(t.batches) + batch
  {
    hide Sealed, BatchSteps, InRange, Closed;
    var n := |t.batches|;
    SealedInRange(task, stage, n, batch, t.entries[n], exit);
    var u := Sealing(task, t, stage, batch, exit);
    assert u.batches[..n] == t.batches;
    forall k | 0 <= k < n + 1 ensures Sealed(task, u.stages[k], k, u.batches[k], u.entries[k], u.entries[k + 1]) {
      if k < n { assert u.entries[k] == t.entries[k] && u.entries[k + 1] == t.entries[k + 1]; }
    }
    forall k | 0 <= k < n + 1 ensures InRange(task.nodes, u.batches[k]) {
      SealedInRange(task, u.stages[k], k, u.batches[k], u.entries[k], u.entries[k + 1]);
    }
    StepsKept(task.w, task.nodes, t.batches, t.entries, exit);
    forall k | 0 <= k < n ensures ClosedAt(task, u, k) {
      assert u.entries[k] == t.entries[k] && u.batches[k] == t.batches[k];
      if k < n - 1 {
        assert ClosedAt(task, t, k);
        assert u.batches[k + 1] == t.batches[k + 1];
      }
    }
  }

  /** The last sealed batch was closed before the step. */
  ghost predicate LastClosed<S, O, C>(task: Task<S, O, C>, t: Timetable<S, O, C>, next: nat)
    requires t.batches != [] && |t.entries| == |t.batches| + 1
  {
    Closed(task, t.entries[|t.batches| - 1], t.batches[|t.batches| - 1], next)
  }

  lemma SealedInRange<S, O, C>(task: Task<S, O, C>, stage: Stage, index: nat, batch: seq<nat>, entry: S, exit: S)
    requires Sealed(task, stage, index, batch, entry, exit)
    ensures InRange(task.nodes, batch)
  {
  }

  /** The stages sealed hold the beginning of the order, and the step that comes next does not replay
      safely alone from the state they lead to. */
  ghost predicate Stranded<S, O, C>(task: Task<S, O, C>, t: Timetable<S, O, C>, order: seq<nat>) {
    && Built(task, t) && InRange(task.nodes, order)
    && |Concat(t.batches)| < |order| && Concat(t.batches) == order[..|Concat(t.batches)|]
    && !Passes(task.w, task.nodes, t.entries[|t.batches|], [order[|Concat(t.batches)|]])
  }

  datatype Compressed = Done | Failed | OverLimit

  class Scheduler<S(==), O, C> {
    const w: World<S, O, C>
    const nodes: seq<Node<O>>
    const linked: set<(StepId, StepId)>
    const limits: Limits
    const d: Diagnostics
    ghost const s0: S
    var state: S
    var batch: seq<nat>
    var stages: seq<Stage>
    var steps: seq<Step<O, C>>
    ghost var batches: seq<seq<nat>>
    ghost var entries: seq<S>

    constructor (w: World<S, O, C>, nodes: seq<Node<O>>, linked: set<(StepId, StepId)>, limits: Limits, d: Diagnostics,
                 s0: S)
      ensures this.w == w && this.nodes == nodes && this.linked == linked && this.limits == limits && this.d == d
      ensures this.s0 == s0 && batch == [] && batches == [] && Ready()
    {
      this.w, this.nodes, this.linked, this.limits, this.d, this.s0 := w, nodes, linked, limits, d, s0;
      state, batch, stages, steps, batches, entries := s0, [], [], [], [], [s0];
    }

    ghost function Given(): Task<S, O, C> { Task(w, nodes, linked, limits.maxStageWidth, s0) }

    ghost function Table(): Timetable<S, O, C>
      reads this
    {
      Timetable(stages, steps, batches, entries)
    }

    /** The sealed stages are in order and the open batch may still become one. */
    ghost predicate Ready()
      reads this
    {
      && Built(Given(), Table())
      && state == entries[|batches|]
      && InRange(nodes, batch) && |batch| <= limits.maxStageWidth && Unlinked(nodes, linked, batch)
      && (batch != [] ==> Passes(w, nodes, state, batch))
      && (batch != [] && batches != [] ==> LastClosed(Given(), Table(), batch[0]))
    }

    method Conflicts(candidate: nat) returns (r: bool)
      requires InRange(nodes, batch) && candidate < |nodes|
      ensures r <==> exists i :: 0 <= i < |batch| && Linked(linked, nodes[batch[i]].id, nodes[candidate].id)
    {
      for i := 0 to |batch|
        invariant forall j :: 0 <= j < i ==> !Linked(linked, nodes[batch[j]].id, nodes[candidate].id)
      {
        if Linked(linked, nodes[batch[i]].id, nodes[candidate].id) { return true; }
      }
      r := false;
    }

    /** Replays the open batch, applies it in identity order and records it as a stage. */
    method Seal() returns (ok: bool)
      requires Ready() && batch != []
      modifies this, d`permutationChecks, d`statesVisited
      ensures d.statesVisited >= old(d.statesVisited) && d.permutationChecks >= old(d.permutationChecks)
      ensures ok ==> Ready() && batch == [] && batches == old(batches) + [old(batch)]
      ensures ok ==> entries == old(entries) + [state] && old(state) == old(entries[|batches|])
      ensures ok ==> Concat(batches) == Concat(old(batches)) + old(batch)
      ensures !ok ==> d.Overdrawn(limits)
    {
      hide Built, BatchVerified, Run, SortedIds, BatchSteps, StageVerified, Passes, LastClosed, Unlinked, InRange,
        Sealed, Sealing;
      var entry := state;
      BatchInRange(batch);
      var check, exit := VerifyBatch(w, nodes, entry, batch, limits, d);
      if !check.ok { return false; }
      var acts, order := BatchActions(w, nodes, entry, batch), ById(BatchIds(nodes, batch));
      ReplaysToExit(w, nodes, entry, batch, exit);
      var applied := CanonicalReplay(w, entry, acts, order);
      var index := |stages|;
      var stage := Stage(index, SortedIds(nodes, batch), check.permutations, check.applications);
      StagesCounted();
      MaySeal(check, exit);
      Record(stage, applied.value);
      ok := true;
    }

    /** Records the open batch as a stage that leads to the state. */
    method Record(stage: Stage, exit: S)
      requires Ready() && batch != [] && Sealed(Given(), stage, |batches|, batch, state, exit)
      modifies this
      ensures Ready() && batch == [] && batches == old(batches) + [old(batch)]
      ensures entries == old(entries) + [state] && old(state) == old(entries[|batches|])
      ensures Concat(batches) == Concat(old(batches)) + old(batch)
    {
      hide Built, BatchSteps, Passes, LastClosed, Unlinked, InRange, Sealed;
      StagesCounted();
      BatchInRange(batch);
      SealOne(Given(), Table(), stage, batch, exit);
      steps := steps + BatchSteps(w, nodes, state, batch, |stages|);
      stages := stages + [stage];
      batches, entries := batches + [batch], entries + [exit];
      state, batch := exit, [];
      NothingOpen();
    }

    lemma NothingOpen()
      ensures InRange(nodes, []) && Unlinked(nodes, linked, [])
    {
    }

    lemma MaySeal(check: StageCheck, exit: S)
      requires Ready() && batch != [] && BatchVerified(w, nodes, state, batch, exit)
      ensures Sealed(Given(), Stage(|stages|, SortedIds(nodes, batch), check.permutations, check.applications),
                     |batches|, batch, state, exit)
    {
      hide BatchVerified, SortedIds;
    }

    lemma StagesCounted()
      requires Ready()
      ensures |stages| == |batches| && |entries| == |batches| + 1
    {
    }

    lemma ReplaysToExit(w: World<S, O, C>, nodes: seq<Node<O>>, entry: S, batch: seq<nat>, exit: S)
      requires InRange(nodes, batch) && BatchVerified(w, nodes, entry, batch, exit)
      ensures var order := ById(BatchIds(nodes, batch));
        && (forall i :: 0 <= i < |order| ==> order[i] < |batch|)
        && Replay(w, entry, Ops(Pick(BatchActions(w, nodes, entry, batch), order))) == Some(exit)
    {
      var order := ById(BatchIds(nodes, batch));
      ByIdIsOrder(BatchIds(nodes, batch));
      OrderInRange(order, |batch|);
      RunReplays(w, entry, Pick(BatchActions(w, nodes, entry, batch), order));
    }

    lemma MayJoin(candidate: nat)
      requires Ready() && candidate < |nodes| && |batch| < limits.maxStageWidth
      requires forall i :: 0 <= i < |batch| ==> !Linked(linked, nodes[batch[i]].id, nodes[candidate].id)
      ensures InRange(nodes, batch + [candidate]) && |batch + [candidate]| <= limits.maxStageWidth
      ensures Unlinked(nodes, linked, batch + [candidate])
    {
    }

    /** What has been sealed, followed by what is still open. */
    ghost function Placed(): seq<nat>
      reads this
    {
      Concat(batches) + batch
    }

    /** Seals the open batch before the step that is placed next. */
    method SealBatch(ghost next: nat) returns (ok: bool)
      requires Ready() && batch != [] && Closed(Given(), state, batch, next)
      modifies this, d`permutationChecks, d`statesVisited
      ensures d.statesVisited >= old(d.statesVisited) && d.permutationChecks >= old(d.permutationChecks)
      ensures ok ==> Ready() && batch == [] && Placed() == old(Placed())
      ensures ok ==> batches != [] && LastClosed(Given(), Table(), next)
      ensures !ok ==> d.Overdrawn(limits)
    {
      hide Built, Closed, Passes, Unlinked;
      StagesCounted();
      ok := Seal();
    }

    /** The step alone does not replay safely from the state reached by what has been sealed. */
    ghost predicate Refuses(index: nat)
      reads this
      requires index < |nodes|
    {
      Built(Given(), Table()) && state == entries[|batches|] && !Passes(w, nodes, state, [index])
    }

    /** Finds a place for the next step of the linear order: in the open batch unless that has to be
        closed before it, and then in a new one.  It fails only if the step alone does not replay safely
        or a budget has run out. */
    method Place(index: nat) returns (outcome: Compressed)
      requires Ready() && index < |nodes| && 0 < limits.maxStageWidth && (batch == [] ==> batches == [])
      modifies this, d`permutationChecks, d`statesVisited
      ensures d.statesVisited >= old(d.statesVisited) && d.permutationChecks >= old(d.permutationChecks)
      ensures outcome == Done ==> Ready() && Placed() == old(Placed()) + [index] && batch != []
      ensures outcome == Failed ==>
        d.Overdrawn(limits) || (Refuses(index) && Concat(batches) == old(Placed()))
      ensures outcome == OverLimit ==> d.Overdrawn(limits)
    {
      hide Built, BatchVerified, Unlinked, InRange, Concat, Passes, JoinedTo, LastClosed, Closed;
      var room := MakeRoom(index);
      if !room { return Failed; }
      outcome := Join(index);
    }

    /** Closes the open batch if it is full or joined to the step. */
    method MakeRoom(index: nat) returns (ok: bool)
      requires Ready() && index < |nodes| && 0 < limits.maxStageWidth && (batch == [] ==> batches == [])
      modifies this, d`permutationChecks, d`statesVisited
      ensures d.statesVisited >= old(d.statesVisited) && d.permutationChecks >= old(d.permutationChecks)
      ensures ok ==> Ready() && Placed() == old(Placed()) && RoomFor(index)
      ensures !ok ==> d.Overdrawn(limits)
    {
      hide Built, Unlinked, InRange, Concat, Passes, JoinedTo, LastClosed, Closed;
      if |batch| >= limits.maxStageWidth {
        FullIsClosed(index);
        var sealed := SealBatch(index);
        if !sealed { return false; }
      }
      if batch != [] {
        var conflict := Conflicts(index);
        if conflict {
          JoinedIsClosed(index);
          var sealed := SealBatch(index);
          if !sealed { return false; }
        }
      }
      ok := true;
    }

    /** The step may join the open batch, or start one. */
    ghost predicate RoomFor(index: nat)
      reads this
      requires Ready() && index < |nodes|
    {
      && |batch| < limits.maxStageWidth
      && (forall i :: 0 <= i < |batch| ==> !Linked(linked, nodes[batch[i]].id, nodes[index].id))
      && (batch == [] && batches != [] ==> LastClosed(Given(), Table(), index))
    }

    /** Adds the step to the open batch, or to a new one if the wider batch does not replay safely. */
    method Join(index: nat) returns (outcome: Compressed)
      requires Ready() && index < |nodes| && 0 < limits.maxStageWidth && RoomFor(index)
      modifies this, d`permutationChecks, d`statesVisited
      ensures d.statesVisited >= old(d.statesVisited) && d.permutationChecks >= old(d.permutationChecks)
      ensures outcome == Done ==> Ready() && Placed() == old(Placed()) + [index] && batch != []
      ensures outcome == Failed ==>
        d.Overdrawn(limits) || (Refuses(index) && Concat(batches) == old(Placed()))
      ensures outcome == OverLimit ==> d.Overdrawn(limits)
    {
      hide Built, BatchVerified, Unlinked, InRange, Concat, Passes, JoinedTo, LastClosed, Closed;
      MayJoin(index);
      BatchInRange(batch + [index]);
      var check, _ := VerifyBatch(w, nodes, state, batch + [index], limits, d);
      if check.limitExceeded { return OverLimit; }
      if check.ok {
        assert Concat(batches) + (batch + [index]) == (Concat(batches) + batch) + [index];
        batch := batch + [index];
        return Done;
      }
      if batch == [] {
        assert [] + [index] == [index] && Concat(batches) + [] == Concat(batches);
        return Failed;
      }
      UnsafeIsClosed(index);
      var sealed := SealBatch(index);
      if !sealed { return Failed; }
      outcome := Start(index);
    }

    /** Starts a new batch with the step. */
    method Start(index: nat) returns (outcome: Compressed)
      requires Ready() && index < |nodes| && 0 < limits.maxStageWidth && batch == []
      requires batches != [] && LastClosed(Given(), Table(), index)
      modifies this, d`permutationChecks, d`statesVisited
      ensures d.statesVisited >= old(d.statesVisited) && d.permutationChecks >= old(d.permutationChecks)
      ensures outcome == Done ==> Ready() && Placed() == old(Placed()) + [index] && batch != []
      ensures outcome != Done ==>
        outcome == Failed && (d.Overdrawn(limits) || (Refuses(index) && Concat(batches) == old(Placed())))
    {
      hide Built, BatchVerified, Unlinked, InRange, Concat, Passes, JoinedTo, LastClosed, Closed;
      MayJoin(index);
      assert batch + [index] == [index];
      assert Concat(batches) + [] == Concat(batches);
      batch := [index];
      BatchInRange(batch);
      var single, _ := VerifyBatch(w, nodes, state, batch, limits, d);
      outcome := if single.ok then Done else Failed;
    }

    lemma FullIsClosed(index: nat)
      requires Ready() && index < |nodes| && |batch| >= limits.maxStageWidth
      ensures Closed(Given(), state, batch, index)
    {
    }

    lemma JoinedIsClosed(index: nat)
      requires Ready() && index < |nodes|
      requires exists i :: 0 <= i < |batch| && Linked(linked, nodes[batch[i]].id, nodes[index].id)
      ensures Closed(Given(), state, batch, index)
    {
    }

    lemma UnsafeIsClosed(index: nat)
      requires Ready() && index < |nodes| && InRange(nodes, batch + [index])
      requires !Passes(w, nodes, state, batch + [index])
      ensures Closed(Given(), state, batch, index)
    {
    }

    /** Compresses a linear order: the stages, read one after the other, are that order. */
    method Compress(linear: seq<nat>) returns (outcome: Compressed)
      requires Ready() && batch == [] && batches == [] && InRange(nodes, linear) && 0 < limits.maxStageWidth
      modifies this, d`permutationChecks, d`statesVisited
      ensures d.statesVisited >= old(d.statesVisited) && d.permutationChecks >= old(d.permutationChecks)
      ensures outcome == Done ==> Ready() && batch == [] && Concat(batches) == linear
      ensures outcome == Failed ==> d.Overdrawn(limits) || Stranded(Given(), Table(), linear)
      ensures outcome == OverLimit ==> d.Overdrawn(limits)
    {
      hide Built, BatchVerified, Unlinked, InRange, Passes, LastClosed;
      for i := 0 to |linear|
        invariant Ready() && Placed() == linear[..i] && (batch == [] ==> batches == [])
        invariant d.statesVisited >= old(d.statesVisited) && d.permutationChecks >= old(d.permutationChecks)
      {
        IndexInRange(linear, i);
        assert linear[..i + 1] == linear[..i] + [linear[i]];
        outcome := Place(linear[i]);
        if outcome != Done { return; }
      }
      assert linear[..|linear|] == linear;
      if batch != [] {
        var sealed := Seal();
        if !sealed { return Failed; }
      }
      assert Concat(batches) + [] == Concat(batches);
      outcome := Done;
    }

    lemma IndexInRange(linear: seq<nat>, i: nat)
      requires InRange(nodes, linear) && i < |linear|
      ensures linear[i] < |nodes|
    {
    }

    lemma BatchInRange(b: seq<nat>)
      requires InRange(nodes, b)
      ensures forall i :: 0 <= i < |b| ==> b[i] < |nodes|
    {
    }
  }
}
