/** What the planner needs to know about the system it plans for, and what it means to run a
    sequence of steps.  The evaluation functions are parameters here, so everything proved about
    planning and verification holds for whatever they are; Evaluate.dfy supplies the real ones. */
module Worlds {
  import opened Wrappers
  import opened Permutations
  import opened Sorting

  /** Step identities are a fixed prefix and 24 hexadecimal digits; ordering their texts is
      ordering the 96-bit numbers they spell. */
  type StepId = nat

  /** The evaluation functions, already applied to one evaluation context. */
  datatype World<!S, !O, !C> = World(
    holds: (S, C) -> Option<bool>,          // evaluate_condition; None is an evaluation error
    apply: (S, O) -> Option<S>,             // apply_operation; None is a rejection
    violated: S -> bool,                    // check_invariants reports a hard violation
    preconditions: (S, O) -> seq<C>,        // derive_preconditions
    postconditions: (S, O) -> seq<C>,       // derive_postconditions
    stepId: O -> StepId)                    // step_id_for

  /** No two operations share an identity. */
  ghost predicate Unrepeated<O>(ops: seq<O>, stepId: O -> StepId) {
    forall i, j :: 0 <= i < j < |ops| ==> stepId(ops[i]) != stepId(ops[j])
  }

  ghost function OpIds<O>(ops: seq<O>, stepId: O -> StepId): seq<StepId> {
    seq(|ops|, i requires 0 <= i < |ops| => stepId(ops[i]))
  }

  /** A step as it is executed: the operation with the conditions that must hold around it. */
  datatype Action<O, C> = Action(op: O, pre: seq<C>, post: seq<C>)

  predicate AllHold<S, O, C>(w: World<S, O, C>, s: S, cs: seq<C>) {
    forall i :: 0 <= i < |cs| ==> w.holds(s, cs[i]) == Some(true)
  }

  /** One safe step: preconditions hold, the operation is accepted, postconditions hold and the
      state reached breaks no obligation. */
  function SafeStep<S, O, C>(w: World<S, O, C>, s: S, a: Action<O, C>): Option<S> {
    if !AllHold(w, s, a.pre) then None
    else
      match w.apply(s, a.op)
      case None => None
      case Some(t) => if AllHold(w, t, a.post) && !w.violated(t) then Some(t) else None
  }

  /** A safe run: every step of it is safe.  None as soon as one is not. */
  function Run<S, O, C>(w: World<S, O, C>, s: S, acts: seq<Action<O, C>>): Option<S> {
    if acts == [] then Some(s)
    else
      match SafeStep(w, s, acts[0])
      case None => None
      case Some(t) => Run(w, t, acts[1..])
  }

  /** Applying operations without looking at conditions or obligations. */
  function Replay<S, O, C>(w: World<S, O, C>, s: S, ops: seq<O>): Option<S> {
    if ops == [] then Some(s)
    else
      match w.apply(s, ops[0])
      case None => None
      case Some(t) => Replay(w, t, ops[1..])
  }

  function Ops<O, C>(acts: seq<Action<O, C>>): seq<O> {
    seq(|acts|, i requires 0 <= i < |acts| => acts[i].op)
  }

  /** The actions of a stage, taken in the order `q` of its slots. */
  function Pick<T>(xs: seq<T>, q: seq<nat>): (r: seq<T>)
    requires forall i :: 0 <= i < |q| ==> q[i] < |xs|
    ensures |r| == |q|
  {
    seq(|q|, i requires 0 <= i < |q| => xs[q[i]])
  }

  ghost predicate IsOrder(q: seq<nat>, n: nat) {
    SameElements(Identity(n), q)
  }

  lemma OrderInRange(q: seq<nat>, n: nat)
    requires IsOrder(q, n)
    ensures |q| == n
    ensures forall i :: 0 <= i < |q| ==> q[i] < n
  {
    forall i | 0 <= i < |q| ensures q[i] < n {
      assert q[i] in Elements(q);
      assert q[i] in Identity(n);
    }
  }

  /** `p` holds each of 0..n once, so it is an order of n slots. */
  lemma OrderFromMultiset(q: seq<nat>, n: nat)
    requires multiset(q) == multiset(Identity(n))
    ensures IsOrder(q, n)
  {
    assert |multiset(q)| == |q| && |multiset(Identity(n))| == n;
    forall x ensures x in Elements(q) <==> x in Elements(Identity(n)) {
      assert x in q <==> x in multiset(q);
      assert x in Identity(n) <==> x in multiset(Identity(n));
    }
    forall i, j | 0 <= i < j < |q| ensures q[i] != q[j] {
      if q[i] == q[j] {
        Twice(q, i, j);
        DistinctOnce(Identity(n), q[i]);
      }
    }
  }

  lemma Twice<T>(q: seq<T>, i: int, j: int)
    requires 0 <= i < j < |q| && q[i] == q[j]
    ensures multiset(q)[q[i]] >= 2
  {
    assert q == q[..j] + q[j..];
    assert q[i] in multiset(q[..j]) && q[j] in multiset(q[j..]) by {
      assert q[..j][i] == q[i] && q[j..][0] == q[j];
    }
  }

  lemma {:induction false} DistinctOnce(p: seq<nat>, x: nat)
    requires Distinct(p)
    ensures multiset(p)[x] <= 1
  {
    if p != [] {
      assert p == [p[0]] + p[1..];
      DistinctOnce(p[1..], x);
      if x == p[0] { assert x !in p[1..]; }
    }
  }

  lemma {:induction false} RunAppend<S, O, C>(w: World<S, O, C>, s: S, a: seq<Action<O, C>>, b: seq<Action<O, C>>)
    ensures Run(w, s, a + b) ==
      match Run(w, s, a) { case None => None case Some(t) => Run(w, t, b) }
  {
    if a == [] {
      assert a + b == b;
    } else {
      assert (a + b)[1..] == a[1..] + b;
      if SafeStep(w, s, a[0]).Some? { RunAppend(w, SafeStep(w, s, a[0]).value, a[1..], b); }
    }
  }

  lemma {:induction false} ReplayAppend<S, O, C>(w: World<S, O, C>, s: S, a: seq<O>, b: seq<O>)
    ensures Replay(w, s, a + b) ==
      match Replay(w, s, a) { case None => None case Some(t) => Replay(w, t, b) }
  {
    if a == [] {
      assert a + b == b;
    } else {
      assert (a + b)[1..] == a[1..] + b;
      if w.apply(s, a[0]).Some? { ReplayAppend(w, w.apply(s, a[0]).value, a[1..], b); }
    }
  }

  lemma ReplayOne<S, O, C>(w: World<S, O, C>, s: S, op: O)
    ensures Replay(w, s, [op]) == w.apply(s, op)
  {
    if w.apply(s, op).Some? {
      assert [op][1..] == [];
      assert Replay(w, w.apply(s, op).value, []) == w.apply(s, op);
    }
  }

  /** A safe run is a replay of its operations. */
  lemma {:induction false} RunReplays<S, O, C>(w: World<S, O, C>, s: S, acts: seq<Action<O, C>>)
    requires Run(w, s, acts).Some?
    ensures Replay(w, s, Ops(acts)) == Run(w, s, acts)
  {
    if acts != [] {
      assert Ops(acts)[1..] == Ops(acts[1..]);
      RunReplays(w, SafeStep(w, s, acts[0]).value, acts[1..]);
    }
  }

  /** In a safe run nothing goes wrong at any point: before every step its preconditions hold,
      the step is accepted, its postconditions hold after it, and no obligation is broken. */
  lemma RunIsSafeThroughout<S, O, C>(w: World<S, O, C>, s: S, acts: seq<Action<O, C>>, k: nat)
    requires Run(w, s, acts).Some? && k < |acts|
    ensures Run(w, s, acts[..k]).Some? && Run(w, s, acts[..k + 1]).Some?
    ensures var before := Run(w, s, acts[..k]).value; var after := Run(w, s, acts[..k + 1]).value;
      && AllHold(w, before, acts[k].pre)
      && w.apply(before, acts[k].op) == Some(after)
      && AllHold(w, after, acts[k].post)
      && !w.violated(after)
  {
    assert acts == acts[..k] + acts[k..];
    RunAppend(w, s, acts[..k], acts[k..]);
    var before := Run(w, s, acts[..k]).value;
    assert acts[k..] == [acts[k]] + acts[k + 1..];
    assert acts[..k + 1] == acts[..k] + [acts[k]];
    RunAppend(w, s, acts[..k], [acts[k]]);
    RunAppend(w, before, [acts[k]], acts[k + 1..]);
    assert Run(w, before, [acts[k]]) == SafeStep(w, before, acts[k]) by {
      if SafeStep(w, before, acts[k]).Some? {
        assert Run(w, SafeStep(w, before, acts[k]).value, [acts[k]][1..]) == SafeStep(w, before, acts[k]);
      }
    }
  }

  // ----- replaying a stage in every order from a start -----

  /** The order in which the slots are listed when they are sorted by step identity. */
  function ById(ids: seq<StepId>): (q: seq<nat>)
    ensures |q| == |ids|
  {
    Sort(Identity(|ids|), ByKey(i => if 0 <= i < |ids| then ids[i] else 0))
  }

  lemma ByIdIsOrder(ids: seq<StepId>)
    ensures IsOrder(ById(ids), |ids|)
  {
    SortKeeps(Identity(|ids|), ByKey(i => if 0 <= i < |ids| then ids[i] else 0));
    OrderFromMultiset(ById(ids), |ids|);
  }

  lemma ByIdAscends(ids: seq<StepId>, i: int, j: int)
    requires 0 <= i < j < |ids|
    ensures ById(ids)[i] < |ids| && ById(ids)[j] < |ids|
    ensures ids[ById(ids)[i]] <= ids[ById(ids)[j]]
  {
    var key := i => if 0 <= i < |ids| then ids[i] else 0;
    SortOrdered(Identity(|ids|), key);
    ByIdIsOrder(ids);
    OrderInRange(ById(ids), |ids|);
  }

  /** Slots listed by ascending identity start the walk at the very first order. */
  lemma ByIdIdentity(ids: seq<StepId>)
    requires forall i, j :: 0 <= i < j < |ids| ==> ids[i] < ids[j]
    ensures ById(ids) == Identity(|ids|)
  {
    var key := i => if 0 <= i < |ids| then ids[i] else 0;
    SortFixed(Identity(|ids|), key);
  }

  /** Every order ranked at or above `start` is a safe run from `s`, and they all end in `out`. */
  ghost predicate Converges<S, O, C>(w: World<S, O, C>, s: S, acts: seq<Action<O, C>>, start: seq<nat>, out: S) {
    forall q :: IsOrder(q, |acts|) && Rank(q) >= Rank(start) ==> RunsTo(w, s, acts, q, out)
  }

  ghost predicate RunsTo<S, O, C>(w: World<S, O, C>, s: S, acts: seq<Action<O, C>>, q: seq<nat>, out: S)
    requires IsOrder(q, |acts|)
  {
    OrderInRange(q, |acts|);
    Run(w, s, Pick(acts, q)) == Some(out)
  }
}
