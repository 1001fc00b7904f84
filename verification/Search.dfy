/** The search for a safe linear order of the steps: a depth-first search with an explicit stack
    of frames and a parallel stack of saved states.

    Written as a backtracking search, it never tries a second choice in a frame: two steps that
    are ready at the same time are never linked, so committing to one marks all the others as
    skipped.  That is also the only reason its undo is right, because a frame that resumed with
    an untried candidate would do so with its previous choice still applied.  Both facts are
    consequences of the loop invariants below, and they make the search equal to a greedy run. */
module Search {
  import opened Wrappers
  import opened Permutations
  import opened Sorting
  import opened Worlds

  datatype Node<O> = Node(op: O, id: StepId, predecessors: seq<nat>, successors: nat)

  datatype Frame = Frame(ready: seq<nat>, skipped: seq<bool>, next: nat, committed: bool, chosen: Option<nat>)

  predicate NodesOk<O>(nodes: seq<Node<O>>) {
    forall i, j :: 0 <= i < |nodes| && 0 <= j < |nodes[i].predecessors| ==> nodes[i].predecessors[j] < |nodes|
  }

  // ----- what the search amounts to -----

  predicate IsReady<O>(nodes: seq<Node<O>>, done: set<nat>, i: nat)
    requires i < |nodes|
  {
    i !in done && forall j :: 0 <= j < |nodes[i].predecessors| ==> nodes[i].predecessors[j] in done
  }

  ghost function ReadyUpTo<O>(nodes: seq<Node<O>>, done: set<nat>, k: nat): (r: seq<nat>)
    requires k <= |nodes|
  {
    if k == 0 then []
    else ReadyUpTo(nodes, done, k - 1) + (if IsReady(nodes, done, k - 1) then [k - 1] else [])
  }

  /** The strategy's order on ready steps, reversed for the reverse-canonical strategy. */
  datatype Strategy = Strategy(before: (nat, nat) -> bool, reversed: bool)

  function Arrange(strategy: Strategy, ready: seq<nat>): seq<nat> {
    var sorted := Sort(ready, strategy.before);
    if strategy.reversed then Reverse(sorted) else sorted
  }

  ghost function Candidates<O>(nodes: seq<Node<O>>, strategy: Strategy, done: set<nat>): seq<nat> {
    Arrange(strategy, ReadyUpTo(nodes, done, |nodes|))
  }

  /** Trying one step: its preconditions hold, it is accepted, and no obligation breaks. */
  function Try<S, O, C>(w: World<S, O, C>, s: S, op: O): Option<S> {
    if !AllHold(w, s, w.preconditions(s, op)) then None
    else
      match w.apply(s, op)
      case None => None
      case Some(t) => if w.violated(t) then None else Some(t)
  }

  /** Position of the first candidate that can be taken; |ready| when there is none. */
  ghost function FirstFit<S, O, C>(w: World<S, O, C>, nodes: seq<Node<O>>, s: S, ready: seq<nat>): (k: nat)
    requires forall i :: 0 <= i < |ready| ==> ready[i] < |nodes|
    ensures k <= |ready|
    ensures k < |ready| ==> Try(w, s, nodes[ready[k]].op).Some?
    ensures forall i :: 0 <= i < k ==> Try(w, s, nodes[ready[i]].op) == None
  {
    if ready == [] || Try(w, s, nodes[ready[0]].op).Some? then 0
    else
      var k := FirstFit(w, nodes, s, ready[1..]);
      assert forall i :: 1 <= i < k + 1 ==> ready[i] == ready[1..][i - 1];
      k + 1
  }

  /** `k` is where the first fitting candidate stands, or |ready| when none fits. */
  ghost predicate FitsAt<S, O, C>(w: World<S, O, C>, nodes: seq<Node<O>>, s: S, ready: seq<nat>, k: nat) {
    && k <= |ready| && (forall i :: 0 <= i < |ready| ==> ready[i] < |nodes|)
    && (k < |ready| ==> Try(w, s, nodes[ready[k]].op).Some?)
    && (forall i :: 0 <= i < k ==> Try(w, s, nodes[ready[i]].op) == None)
  }

  /** Take the first candidate that fits, again and again, until everything is done or nothing
      fits.  Some(order, state) when everything is done. */
  ghost function Greedy<S, O, C>(w: World<S, O, C>, nodes: seq<Node<O>>, strategy: Strategy, done: set<nat>, s: S)
    : Option<(seq<nat>, S)>
    requires done <= All(nodes)
    decreases |All(nodes) - done|
  {
    if done == All(nodes) then Some(([], s))
    else
      CandidatesReady(nodes, strategy, done);
      AllMeans(nodes);
      var ready := Candidates(nodes, strategy, done);
      var k := FirstFit(w, nodes, s, ready);
      if k == |ready| then None
      else
        var t := Try(w, s, nodes[ready[k]].op).value;
        assert All(nodes) - done == (All(nodes) - (done + {ready[k]})) + {ready[k]};
        match Greedy(w, nodes, strategy, done + {ready[k]}, t)
        case None => None
        case Some(rest) => Some(([ready[k]] + rest.0, rest.1))
  }

  ghost function All<O>(nodes: seq<Node<O>>): set<nat> {
    Elements(Identity(|nodes|))
  }

  lemma AllMeans<O>(nodes: seq<Node<O>>)
    ensures forall i: nat :: i in All(nodes) <==> i < |nodes|
    ensures |All(nodes)| == |nodes|
  {
    DistinctSize(Identity(|nodes|));
    forall i: nat | i < |nodes| ensures i in Identity(|nodes|) { assert Identity(|nodes|)[i] == i; }
  }

  // ----- ready lists -----

  lemma {:induction false} ReadyMeans<O>(nodes: seq<Node<O>>, done: set<nat>, k: nat)
    requires k <= |nodes|
    ensures Distinct(ReadyUpTo(nodes, done, k))
    ensures forall i: nat :: i in ReadyUpTo(nodes, done, k) <==> i < k && IsReady(nodes, done, i)
  {
    if k > 0 { ReadyMeans(nodes, done, k - 1); }
  }

  lemma {:induction false} ReverseKeeps(s: seq<nat>)
    ensures multiset(Reverse(s)) == multiset(s)
  {
    if s != [] {
      ReverseKeeps(s[1..]);
      assert s == [s[0]] + s[1..];
    }
  }

  lemma SameMultiset(p: seq<nat>, q: seq<nat>)
    requires Distinct(p) && multiset(p) == multiset(q)
    ensures Distinct(q) && |p| == |q| && forall x :: x in p <==> x in q
  {
    assert |multiset(p)| == |p| && |multiset(q)| == |q|;
    assert forall x :: x in p <==> x in multiset(p);
    assert forall x :: x in q <==> x in multiset(q);
    forall i, j | 0 <= i < j < |q| ensures q[i] != q[j] {
      if q[i] == q[j] {
        Twice(q, i, j);
        DistinctOnce(p, q[i]);
      }
    }
  }

  /** Arranging rearranges: the candidates are the ready steps, each listed once. */
  lemma CandidatesReady<O>(nodes: seq<Node<O>>, strategy: Strategy, done: set<nat>)
    ensures var ready := Candidates(nodes, strategy, done);
      && Distinct(ready)
      && (forall i :: 0 <= i < |ready| ==> ready[i] < |nodes| && IsReady(nodes, done, ready[i]))
      && (forall i: nat :: i < |nodes| && IsReady(nodes, done, i) ==> i in ready)
  {
    var raw := ReadyUpTo(nodes, done, |nodes|);
    var ready := Candidates(nodes, strategy, done);
    ReadyMeans(nodes, done, |nodes|);
    SortKeeps(raw, strategy.before);
    ReverseKeeps(Sort(raw, strategy.before));
    SameMultiset(raw, ready);
    forall i | 0 <= i < |ready| ensures ready[i] < |nodes| && IsReady(nodes, done, ready[i]) {
      assert ready[i] in raw;
    }
  }

  /** At most one candidate for every step not yet done. */
  lemma CandidatesBound<O>(nodes: seq<Node<O>>, strategy: Strategy, done: set<nat>)
    requires done <= All(nodes)
    ensures |Candidates(nodes, strategy, done)| <= |nodes| - |done|
  {
    var ready := Candidates(nodes, strategy, done);
    CandidatesReady(nodes, strategy, done);
    DistinctSize(ready);
    AllMeans(nodes);
    forall i | i in Elements(ready) ensures i in All(nodes) - done {
      var k :| 0 <= k < |ready| && ready[k] == i;
    }
    Subset(Elements(ready), All(nodes) - done);
    assert All(nodes) == done + (All(nodes) - done);
  }

  predicate Independent<O>(nodes: seq<Node<O>>, a: nat, b: nat)
    requires a < |nodes| && b < |nodes|
  {
    a !in nodes[b].predecessors && b !in nodes[a].predecessors
  }

  /** Two steps that are ready at the same time are never linked. */
  lemma ReadyTogetherIndependent<O>(nodes: seq<Node<O>>, done: set<nat>, a: nat, b: nat)
    requires a < |nodes| && b < |nodes| && IsReady(nodes, done, a) && IsReady(nodes, done, b)
    ensures Independent(nodes, a, b)
  {
  }

  function Triangle(n: nat): nat {
    if n == 0 then 0 else n + Triangle(n - 1)
  }

  /** With `left` steps still to do, the trials made and the most still to come stay within `most`. */
  ghost predicate WithinBudget(trials: int, left: int, most: int) {
    0 <= left && trials + Triangle(left) <= most
  }

  lemma Spend(trials: int, left: int, most: int, now: int)
    requires WithinBudget(trials, left, most) && 0 < left && now <= trials + left
    ensures WithinBudget(now, left - 1, most) && now <= most
  {
  }

  lemma {:induction false} TriangleClosed(n: nat)
    ensures 2 * Triangle(n) == n * (n + 1)
  {
    if n > 0 {
      TriangleClosed(n - 1);
      assert n * (n + 1) == (n - 1) * n + 2 * n;
    }
  }

  // ----- paths: what a committed order means -----

  /** Following an order with Try at every step. */
  ghost function Follow<S, O, C>(w: World<S, O, C>, nodes: seq<Node<O>>, s: S, order: seq<nat>): Option<S>
    requires forall i :: 0 <= i < |order| ==> order[i] < |nodes|
  {
    if order == [] then Some(s)
    else
      match Follow(w, nodes, s, order[..|order| - 1])
      case None => None
      case Some(t) => Try(w, t, nodes[order[|order| - 1]].op)
  }

  /** Every predecessor comes earlier. */
  ghost predicate Topological<O>(nodes: seq<Node<O>>, order: seq<nat>) {
    && (forall i :: 0 <= i < |order| ==> order[i] < |nodes|)
    && Distinct(order)
    && (forall i :: 0 <= i < |order| ==> IsReady(nodes, Elements(order[..i]), order[i]))
  }

  lemma TopologicalNext<O>(nodes: seq<Node<O>>, order: seq<nat>, i: nat)
    requires Topological(nodes, order) && i < |nodes| && IsReady(nodes, Elements(order), i)
    ensures Topological(nodes, order + [i])
    ensures Elements(order + [i]) == Elements(order) + {i}
  {
    var next := order + [i];
    forall k | 0 <= k < |next| ensures IsReady(nodes, Elements(next[..k]), next[k]) {
      assert next[..k] == order[..k];
      if k == |order| { assert order[..k] == order; }
    }
  }

  lemma FollowNext<S, O, C>(w: World<S, O, C>, nodes: seq<Node<O>>, s: S, order: seq<nat>, i: nat)
    requires i < |nodes| && forall k :: 0 <= k < |order| ==> order[k] < |nodes|
    ensures Follow(w, nodes, s, order + [i]) ==
      match Follow(w, nodes, s, order) { case None => None case Some(t) => Try(w, t, nodes[i].op) }
  {
    assert (order + [i])[..|order|] == order;
  }

  /** Prefixing a greedy result with what has been committed. */
  ghost function Prefixed<S>(order: seq<nat>, rest: Option<(seq<nat>, S)>): Option<(seq<nat>, S)> {
    match rest
    case None => None
    case Some(r) => Some((order + r.0, r.1))
  }

  lemma PrefixedTwice<S>(order: seq<nat>, i: nat, rest: Option<(seq<nat>, S)>)
    ensures Prefixed(order, Prefixed([i], rest)) == Prefixed(order + [i], rest)
  {
    if rest.Some? { assert order + ([i] + rest.value.0) == (order + [i]) + rest.value.0; }
  }

  lemma GreedyStuck<S, O, C>(w: World<S, O, C>, nodes: seq<Node<O>>, strategy: Strategy, done: set<nat>, s: S)
    requires done < All(nodes)
    requires var ready := Candidates(nodes, strategy, done); FitsAt(w, nodes, s, ready, |ready|)
    ensures Greedy(w, nodes, strategy, done, s) == None
  {
  }

  lemma GreedyStep<S, O, C>(w: World<S, O, C>, nodes: seq<Node<O>>, strategy: Strategy, order: seq<nat>, s: S, k: nat)
    requires Elements(order) < All(nodes)
    requires var ready := Candidates(nodes, strategy, Elements(order)); FitsAt(w, nodes, s, ready, k) && k < |ready|
    ensures var ready := Candidates(nodes, strategy, Elements(order));
      && Elements(order) + {ready[k]} <= All(nodes)
      && Prefixed(order, Greedy(w, nodes, strategy, Elements(order), s)) ==
         Prefixed(order + [ready[k]], Greedy(w, nodes, strategy, Elements(order) + {ready[k]},
                                             Try(w, s, nodes[ready[k]].op).value))
  {
    var ready := Candidates(nodes, strategy, Elements(order));
    assert k == FirstFit(w, nodes, s, ready);
    CandidatesReady(nodes, strategy, Elements(order));
    AllMeans(nodes);
    assert Elements(order) + {ready[k]} <= All(nodes);
    var rest := Greedy(w, nodes, strategy, Elements(order) + {ready[k]}, Try(w, s, nodes[ready[k]].op).value);
    PrefixedTwice(order, ready[k], rest);
  }

  // ----- the search itself -----

  datatype Outcome = Advanced | Exhausted | OutOfBudget

  datatype Attempted = Taken | Refused | Unaffordable

  class SearchContext<S, O, C> {
    const w: World<S, O, C>
    const nodes: seq<Node<O>>
    const strategy: Strategy
    const maxStatesVisited: nat
    const stop: nat -> bool             // what the n-th poll of the stop token answers
    var polls: nat
    var statesVisited: nat
    var applied: seq<bool>
    var appliedCount: nat
    var state: S
    var order: seq<nat>
    var cancelled: bool
    var limitExceeded: bool

    constructor (w: World<S, O, C>, nodes: seq<Node<O>>, strategy: Strategy, maxStatesVisited: nat,
                 stop: nat -> bool, statesVisited: nat, state: S)
      ensures this.w == w && this.nodes == nodes && this.strategy == strategy
      ensures this.maxStatesVisited == maxStatesVisited && this.stop == stop
      ensures this.statesVisited == statesVisited && this.state == state
      ensures Tracks() && order == [] && !cancelled && !limitExceeded
    {
      this.w, this.nodes, this.strategy := w, nodes, strategy;
      this.maxStatesVisited, this.stop, this.polls, this.statesVisited := maxStatesVisited, stop, 0, statesVisited;
      this.applied, this.appliedCount, this.state := seq(|nodes|, i => false), 0, state;
      this.order, this.cancelled, this.limitExceeded := [], false, false;
    }

    /** `applied` marks exactly the members of `order`, and `appliedCount` counts them. */
    ghost predicate Tracks()
      reads this
    {
      && |applied| == |nodes| && appliedCount == |order| && Distinct(order)
      && (forall i :: 0 <= i < |order| ==> order[i] < |nodes|)
      && (forall i: nat :: i < |nodes| ==> (applied[i] <==> i in order))
    }

    ghost predicate Fresh(f: Frame)
      reads this
    {
      && !f.committed && f.next == 0 && f.chosen == None && |f.skipped| == |f.ready|
      && f.ready == Candidates(nodes, strategy, Elements(order))
      && (forall j :: 0 <= j < |f.skipped| ==> !f.skipped[j])
    }

    /** A frame that has committed to a step and will pass over everything it has left. */
    ghost predicate Spent(f: Frame) {
      && f.committed && f.chosen.Some? && f.next <= |f.ready| == |f.skipped|
      && (forall j :: 0 <= j < |f.ready| ==> f.ready[j] < |nodes|)
      && (forall j :: f.next <= j < |f.ready| ==> f.skipped[j])
    }

    method PushFrame() returns (f: Frame)
      requires Tracks() && NodesOk(nodes)
      ensures Fresh(f)
    {
      var raw := [];
      for i := 0 to |nodes|
        invariant raw == ReadyUpTo(nodes, Elements(order), i)
      {
        if !applied[i] {
          var satisfied := true;
          for j := 0 to |nodes[i].predecessors|
            invariant satisfied <==> forall m :: 0 <= m < j ==> nodes[i].predecessors[m] in Elements(order)
          {
            if !applied[nodes[i].predecessors[j]] { satisfied := false; }
          }
          if satisfied { raw := raw + [i]; }
        }
      }
      var ready := Arrange(strategy, raw);
      f := Frame(ready, seq(|ready|, i => false), 0, false, None);
    }

    /** Marks as skipped every later candidate independent of the committed one. */
    method Skip(f: Frame, chosen: nat) returns (skipped: seq<bool>)
      requires chosen < |nodes| && |f.skipped| == |f.ready| && f.next <= |f.ready|
      requires forall j :: 0 <= j < |f.ready| ==> f.ready[j] < |nodes|
      ensures |skipped| == |f.ready|
      ensures forall j :: f.next <= j < |f.ready| && Independent(nodes, chosen, f.ready[j]) ==> skipped[j]
    {
      skipped := f.skipped;
      for j := f.next to |f.ready|
        invariant |skipped| == |f.ready|
        invariant forall m :: f.next <= m < j && Independent(nodes, chosen, f.ready[m]) ==> skipped[m]
      {
        if Independent(nodes, chosen, f.ready[j]) { skipped := skipped[j := true]; }
      }
    }

    /** Tries one candidate in the current state, committing to it when it fits. */
    method Attempt(candidate: nat) returns (r: Attempted)
      requires Tracks() && candidate < |nodes| && candidate !in order
      modifies this`state, this`applied, this`appliedCount, this`order, this`statesVisited, this`limitExceeded
      ensures Tracks() && statesVisited == old(statesVisited) + 1
      ensures r == Unaffordable ==> limitExceeded && statesVisited > maxStatesVisited
      ensures r != Unaffordable ==> limitExceeded == old(limitExceeded)
      ensures r == Refused ==> Try(w, old(state), nodes[candidate].op) == None
      ensures r != Taken ==> state == old(state) && order == old(order)
      ensures r == Taken ==> Try(w, old(state), nodes[candidate].op) == Some(state) && order == old(order) + [candidate]
    {
      statesVisited := statesVisited + 1;
      if statesVisited > maxStatesVisited {
        limitExceeded := true;
        return Unaffordable;
      }
      var op := nodes[candidate].op;
      var held := HoldEvery(w.preconditions(state, op));
      if !held { return Refused; }
      var next := w.apply(state, op);
      if next == None { return Refused; }
      if w.violated(next.value) { return Refused; }
      state := next.value;
      applied, appliedCount := applied[candidate := true], appliedCount + 1;
      order := order + [candidate];
      r := Taken;
    }

    /** Works through what the top frame has left.  A fresh frame commits to its first fitting
        candidate or runs out; a spent frame only runs out. */
    method Advance(f: Frame) returns (g: Frame, outcome: Outcome, ghost fit: nat)
      requires Tracks() && (Fresh(f) || Spent(f))
      modifies this`state, this`applied, this`appliedCount, this`order, this`statesVisited, this`limitExceeded
      ensures Tracks()
      ensures outcome == OutOfBudget ==> limitExceeded && statesVisited > maxStatesVisited
      ensures outcome != OutOfBudget ==> limitExceeded == old(limitExceeded)
      ensures outcome == Exhausted ==> state == old(state) && order == old(order) && Same(f, g)
      ensures Spent(f) ==> outcome == Exhausted && statesVisited == old(statesVisited)
      ensures old(Fresh(f)) && outcome != OutOfBudget ==>
        FitsAt(w, nodes, old(state), f.ready, fit) && (fit < |f.ready| <==> outcome == Advanced)
      ensures old(Fresh(f)) && outcome == Advanced ==>
        && Spent(g) && g.chosen == Some(f.ready[fit]) && order == old(order) + [f.ready[fit]]
        && Try(w, old(state), nodes[f.ready[fit]].op) == Some(state)
      ensures old(statesVisited) <= statesVisited <= old(statesVisited) + |f.ready|
    {
      g := f;
      outcome := Exhausted;
      ghost var done := Elements(order);
      if !f.committed { CandidatesReady(nodes, strategy, done); }
      while g.next < |g.ready|
        invariant Tracks() && Same(f, g) && f.next <= g.next <= |g.ready|
        invariant state == old(state) && order == old(order) && limitExceeded == old(limitExceeded)
        invariant f.committed ==> statesVisited == old(statesVisited)
        invariant !f.committed ==> statesVisited == old(statesVisited) + g.next
        invariant !f.committed ==> forall i :: 0 <= i < g.next ==> Try(w, state, nodes[f.ready[i]].op) == None
      {
        var candidate, slot := g.ready[g.next], g.next;
        g := g.(next := g.next + 1);
        if g.skipped[slot] || applied[candidate] { continue; }
        var attempted := Attempt(candidate);
        if attempted == Unaffordable { return g, OutOfBudget, slot; }
        if attempted == Refused { continue; }
        g := g.(committed := true, chosen := Some(candidate));
        var skipped := Skip(g, candidate);
        g := g.(skipped := skipped);
        AllSkipped(done, g, slot);
        return g, Advanced, slot;
      }
      fit := g.next;
    }

    lemma AllSkipped(done: set<nat>, g: Frame, slot: nat)
      requires slot < g.next <= |g.ready| == |g.skipped|
      requires forall i :: 0 <= i < |g.ready| ==> g.ready[i] < |nodes| && IsReady(nodes, done, g.ready[i])
      requires forall j :: g.next <= j < |g.ready| && Independent(nodes, g.ready[slot], g.ready[j]) ==> g.skipped[j]
      ensures forall j :: g.next <= j < |g.ready| ==> g.skipped[j]
    {
      forall j | g.next <= j < |g.ready| ensures g.skipped[j] {
        ReadyTogetherIndependent(nodes, done, g.ready[slot], g.ready[j]);
      }
    }

    method HoldEvery(cs: seq<C>) returns (ok: bool)
      ensures ok == AllHold(w, state, cs)
    {
      for i := 0 to |cs|
        invariant forall j :: 0 <= j < i ==> w.holds(state, cs[j]) == Some(true)
      {
        var satisfied := w.holds(state, cs[i]);
        if satisfied == None || !satisfied.value { return false; }
      }
      ok := true;
    }

    ghost predicate Same(f: Frame, g: Frame) {
      g.ready == f.ready && g.skipped == f.skipped && g.committed == f.committed && g.chosen == f.chosen
    }

    /** Closes the top frame: back to its saved state, and its choice, if any, is undone. */
    method Backtrack(closing: Frame, saved: S)
      requires Tracks()
      requires closing.committed ==> order != [] && closing.chosen == Some(order[|order| - 1])
      modifies this`state, this`applied, this`appliedCount, this`order
      ensures Tracks() && state == saved
      ensures order == if closing.committed then old(order)[..|old(order)| - 1] else old(order)
    {
      state := saved;
      if closing.committed {
        assert order == order[..|order| - 1] + [closing.chosen.value];
        applied, appliedCount := applied[closing.chosen.value := false], appliedCount - 1;
        order := order[..|order| - 1];
      }
    }

    /** The first frames have committed to the steps of `path`, in turn. */
    ghost predicate Below(stack: seq<Frame>, path: seq<nat>) {
      |path| <= |stack| && forall i :: 0 <= i < |path| ==> Spent(stack[i]) && stack[i].chosen == Some(path[i])
    }

    /** On the way down: the order so far is a safe topological prefix, the state is where it
        leads, and what a greedy run would still do from here completes the whole greedy run. */
    ghost predicate Descending(stack: seq<Frame>, states: seq<S>, s0: S, most: nat)
      reads this
    {
      && Tracks()
      && |stack| == |states| == |order| + 1 && states[0] == s0 && states[|order|] == state
      && Fresh(stack[|order|]) && Below(stack, order)
      && OnPath(order, state, s0)
      && WithinBudget(statesVisited, |nodes| - |order|, most)
    }

    ghost predicate OnPath(path: seq<nat>, s: S, s0: S) {
      && Topological(nodes, path) && Follow(w, nodes, s0, path) == Some(s)
      && Elements(path) <= All(nodes) && |path| <= |nodes|
      && Prefixed(path, Greedy(w, nodes, strategy, Elements(path), s)) == Greedy(w, nodes, strategy, {}, s0)
    }

    /** On the way up: the greedy run fails, and every frame left is waiting to be undone. */
    ghost predicate Unwinding(stack: seq<Frame>, states: seq<S>, s0: S, most: nat)
      reads this
    {
      && Tracks()
      && |stack| == |states| == |order| < |nodes| && Below(stack, order)
      && (if stack == [] then state == s0 else states[0] == s0)
      && Greedy(w, nodes, strategy, {}, s0) == None
      && statesVisited <= most
    }

    lemma AllDone(s0: S)
      requires Tracks() && |order| == |nodes| && OnPath(order, state, s0)
      ensures Greedy(w, nodes, strategy, {}, s0) == Some((order, state))
    {
      AllMeans(nodes);
      DistinctSize(order);
      var rest := All(nodes) - Elements(order);
      assert All(nodes) == Elements(order) + rest;
      assert Elements(order) == All(nodes);
      assert order + [] == order;
    }

    lemma Begin(f: Frame)
      requires Tracks() && order == [] && Fresh(f)
      ensures Descending([f], [state], state, statesVisited + Triangle(|nodes|))
    {
      var g := Greedy(w, nodes, strategy, {}, state);
      if g.Some? { assert [] + g.value.0 == g.value.0; }
      assert Elements([]) == {};
    }

    lemma NotAllDone(path: seq<nat>)
      requires Topological(nodes, path) && |path| < |nodes|
      ensures Elements(path) < All(nodes)
    {
      AllMeans(nodes);
      DistinctSize(path);
      assert All(nodes) != Elements(path);
    }

    lemma Room(path: seq<nat>, s: S, s0: S)
      requires OnPath(path, s, s0)
      ensures |Candidates(nodes, strategy, Elements(path))| <= |nodes| - |path|
    {
      CandidatesBound(nodes, strategy, Elements(path));
      DistinctSize(path);
    }

    /** A fresh frame found nothing: so does the greedy run. */
    lemma RanOut(path: seq<nat>, s: S, s0: S)
      requires OnPath(path, s, s0) && |path| < |nodes|
      requires var ready := Candidates(nodes, strategy, Elements(path)); FitsAt(w, nodes, s, ready, |ready|)
      ensures Greedy(w, nodes, strategy, {}, s0) == None
    {
      NotAllDone(path);
      GreedyStuck(w, nodes, strategy, Elements(path), s);
    }

    /** A fresh frame committed: what that makes of the order and the greedy run. */
    lemma Committed(path: seq<nat>, s: S, s0: S, fit: nat, t: S)
      requires OnPath(path, s, s0) && |path| < |nodes|
      requires var ready := Candidates(nodes, strategy, Elements(path));
        FitsAt(w, nodes, s, ready, fit) && fit < |ready| && Try(w, s, nodes[ready[fit]].op) == Some(t)
      ensures OnPath(path + [Candidates(nodes, strategy, Elements(path))[fit]], t, s0)
    {
      var chosen := Candidates(nodes, strategy, Elements(path))[fit];
      NotAllDone(path);
      CandidatesReady(nodes, strategy, Elements(path));
      GreedyStep(w, nodes, strategy, path, s, fit);
      TopologicalNext(nodes, path, chosen);
      FollowNext(w, nodes, s0, path, chosen);
    }

    lemma WentDown(stack: seq<Frame>, states: seq<S>, s0: S, most: nat, path: seq<nat>, frame: Frame, next: Frame)
      requires Tracks() && path < order && |order| == |path| + 1
      requires |stack| == |states| == |path| + 1 && states[0] == s0 && Below(stack, path)
      requires Spent(frame) && frame.chosen == Some(order[|path|]) && Fresh(next)
      requires OnPath(order, state, s0)
      requires WithinBudget(statesVisited, |nodes| - |order|, most)
      ensures Descending(stack[|path| := frame] + [next], states + [state], s0, most)
    {
    }

    /** Where the search is: still going down, or on its way back up. */
    ghost predicate Searching(stack: seq<Frame>, states: seq<S>, s0: S, most: nat, down: bool)
      reads this
    {
      if down then Descending(stack, states, s0, most) else Unwinding(stack, states, s0, most)
    }

    /** The top frame has run out, so it can be closed for good. */
    ghost predicate Closable(stack: seq<Frame>, states: seq<S>, frame: Frame, s0: S, most: nat)
      reads this
    {
      && Tracks() && 0 < |stack| == |states| && states[0] == s0 && |order| < |nodes|
      && Greedy(w, nodes, strategy, {}, s0) == None && statesVisited <= most
      && |order| == (if frame.committed then |stack| else |stack| - 1)
      && (frame.committed ==> frame.chosen == Some(order[|stack| - 1]))
      && Below(stack, order[..|stack| - 1])
    }

    method Close(stack: seq<Frame>, states: seq<S>, frame: Frame, ghost s0: S, ghost most: nat)
      returns (stack': seq<Frame>, states': seq<S>)
      requires Closable(stack, states, frame, s0, most)
      modifies this`state, this`applied, this`appliedCount, this`order
      ensures Unwinding(stack', states', s0, most) && |stack'| < |stack|
    {
      var top := |stack| - 1;
      ghost var path := order[..top];
      Backtrack(frame, states[top]);
      assert order == path;
      assert Below(stack[..top], path);
      stack', states' := stack[..top], states[..top];
    }

    /** One turn of the search loop: the top frame advances, or it closes. */
    method Step(stack: seq<Frame>, states: seq<S>, ghost s0: S, ghost most: nat, ghost down: bool)
      returns (stack': seq<Frame>, states': seq<S>, ghost down': bool, running: bool)
      requires stack != [] && NodesOk(nodes) && |order| < |nodes|
      requires Searching(stack, states, s0, most, down) && !limitExceeded
      modifies this`state, this`applied, this`appliedCount, this`order, this`statesVisited, this`limitExceeded
      ensures Tracks() && old(statesVisited) <= statesVisited <= most
      ensures !running ==> limitExceeded && statesVisited > maxStatesVisited
      ensures running ==> !limitExceeded && Searching(stack', states', s0, most, down')
      ensures running && down' ==> down && |order| == old(|order|) + 1
      ensures running && !down' ==> |stack'| < |stack|
    {
      hide OnPath, FitsAt, Candidates;
      var top := |stack| - 1;
      ghost var path, s := order, state;
      if down { Room(path, s, s0); }
      stack', states', down' := stack, states, down;
      ghost var trials := statesVisited;
      var frame, outcome, fit := Advance(stack[top]);
      if down { Spend(trials, |nodes| - |path|, most, statesVisited); }
      if outcome == OutOfBudget { return stack', states', down', false; }
      running := true;
      if outcome == Advanced {
        Committed(path, s, s0, fit, state);
        assert order == path + [frame.chosen.value];
        var next := PushFrame();
        assert OnPath(order, state, s0);
        WentDown(stack, states, s0, most, path, frame, next);
        stack', states' := stack[top := frame] + [next], states + [state];
      } else {
        if down { RanOut(path, s, s0); }
        down' := false;
        stack', states' := Close(stack, states, frame, s0, most);
      }
    }

    /** Runs the search from the state the context holds.

        Found: the order lists every step once, predecessors first, each step fitting in turn, and
        the context holds the state it leads to.  Not found and not stopped: the context is back
        where it started, with nothing applied.  Either way the outcome is that of the greedy run,
        after at most n(n+1)/2 trials. */
    method SearchOrder() returns (found: bool)
      requires Tracks() && order == [] && NodesOk(nodes) && !cancelled && !limitExceeded
      modifies this
      ensures Tracks()
      ensures found ==> |order| == |nodes| && OnPath(order, state, old(state))
      ensures found ==> Greedy(w, nodes, strategy, {}, old(state)) == Some((order, state))
      ensures !found && !cancelled && !limitExceeded ==>
        Greedy(w, nodes, strategy, {}, old(state)) == None && state == old(state) && order == []
      ensures found ==> !cancelled && !limitExceeded
      ensures limitExceeded ==> statesVisited > maxStatesVisited && !cancelled
      ensures cancelled ==> exists n: nat :: stop(n)
      ensures old(statesVisited) <= statesVisited <= old(statesVisited) + Triangle(|nodes|)
    {
      hide OnPath, Candidates;
      ghost var s0, v0, most := state, statesVisited, statesVisited + Triangle(|nodes|);
      var first := PushFrame();
      var stack, states := [first], [state];
      ghost var down := true;
      Begin(first);
      while stack != []
        invariant Searching(stack, states, s0, most, down)
        invariant !cancelled && !limitExceeded && v0 <= statesVisited
        decreases down, if down then |nodes| - |order| else |stack|
      {
        polls := polls + 1;
        if stop(polls - 1) {
          cancelled := true;
          return false;
        }
        if appliedCount == |nodes| {
          AllDone(s0);
          return true;
        }
        var running: bool;
        stack, states, down, running := Step(stack, states, s0, most, down);
        if !running { return false; }
      }
      found := false;
    }
  }
}
