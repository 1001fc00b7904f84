/** What a successful search proves about the dependency relation, and when a failed one proves
    that no safe order exists. */
module Completeness {
  import opened Wrappers
  import opened Permutations
  import opened Worlds
  import opened Search

  ghost predicate WaitsIn<O>(nodes: seq<Node<O>>, x: nat, t: set<nat>) {
    x < |nodes| && exists j :: 0 <= j < |nodes[x].predecessors| && nodes[x].predecessors[j] in t
  }

  /** A complete topological order leaves no set of steps in which everyone waits for another
      member: a search that succeeds proves the dependency relation acyclic. */
  lemma {:induction false} TopologicalAcyclic<O>(nodes: seq<Node<O>>, order: seq<nat>, t: set<nat>)
    requires Topological(nodes, order)
    requires forall x :: x in t ==> WaitsIn(nodes, x, t)
    ensures forall i :: 0 <= i < |order| ==> order[i] !in t
  {
    if order != [] {
      var n := |order| - 1;
      var init := order[..n];
      assert Topological(nodes, init) by {
        forall i | 0 <= i < n ensures IsReady(nodes, Elements(init[..i]), init[i]) { assert init[..i] == order[..i]; }
      }
      TopologicalAcyclic(nodes, init, t);
      assert order == init + [order[n]];
      assert IsReady(nodes, Elements(init), order[n]);
      assert forall x :: x in Elements(init) ==> x !in t;
    }
  }

  /** Steps that are ready together and can both be taken never get in each other's way: taking one
      leaves the other possible, and both ways round reach the same state.  This is asked only of
      states that a run of ready steps reaches from `s0`, and never of steps joined by an edge, which
      are not ready together. */
  ghost predicate Undisturbed<S, O, C>(w: World<S, O, C>, nodes: seq<Node<O>>, s0: S) {
    forall p: seq<nat>, a: nat, b: nat ::
      Topological(nodes, p) && ReadyAfter(nodes, p, a) && ReadyAfter(nodes, p, b) && a != b ==>
        UndisturbedAfter(w, nodes, s0, p, a, b)
  }

  ghost predicate ReadyAfter<O>(nodes: seq<Node<O>>, p: seq<nat>, i: nat) {
    i < |nodes| && IsReady(nodes, Elements(p), i)
  }

  ghost predicate UndisturbedAfter<S, O, C>(w: World<S, O, C>, nodes: seq<Node<O>>, s0: S, p: seq<nat>, a: nat, b: nat)
    requires Topological(nodes, p) && a < |nodes| && b < |nodes|
  {
    Follow(w, nodes, s0, p).Some? ==> Diamond(w, nodes, Follow(w, nodes, s0, p).value, a, b)
  }

  ghost predicate Diamond<S, O, C>(w: World<S, O, C>, nodes: seq<Node<O>>, s: S, a: nat, b: nat)
    requires a < |nodes| && b < |nodes|
  {
    var x, y := Try(w, s, nodes[a].op), Try(w, s, nodes[b].op);
    x.Some? && y.Some? ==>
      Try(w, x.value, nodes[b].op).Some? && Try(w, x.value, nodes[b].op) == Try(w, y.value, nodes[a].op)
  }

  /** Following an order from the front. */
  ghost function Take<S, O, C>(w: World<S, O, C>, nodes: seq<Node<O>>, s: S, order: seq<nat>): Option<S>
    requires forall i :: 0 <= i < |order| ==> order[i] < |nodes|
  {
    if order == [] then Some(s)
    else
      match Try(w, s, nodes[order[0]].op)
      case None => None
      case Some(t) => Take(w, nodes, t, order[1..])
  }

  lemma {:induction false} TakeLast<S, O, C>(w: World<S, O, C>, nodes: seq<Node<O>>, s: S, order: seq<nat>, i: nat)
    requires i < |nodes| && forall k :: 0 <= k < |order| ==> order[k] < |nodes|
    ensures Take(w, nodes, s, order + [i]) ==
      match Take(w, nodes, s, order) { case None => None case Some(t) => Try(w, t, nodes[i].op) }
  {
    if order == [] {
      assert (order + [i])[1..] == [];
    } else {
      assert (order + [i])[1..] == order[1..] + [i];
      if Try(w, s, nodes[order[0]].op).Some? { TakeLast(w, nodes, Try(w, s, nodes[order[0]].op).value, order[1..], i); }
    }
  }

  /** From the front or from the back, an order means the same. */
  lemma {:induction false} TakeIsFollow<S, O, C>(w: World<S, O, C>, nodes: seq<Node<O>>, s: S, order: seq<nat>)
    requires forall k :: 0 <= k < |order| ==> order[k] < |nodes|
    ensures Take(w, nodes, s, order) == Follow(w, nodes, s, order)
  {
    if order != [] {
      var n := |order| - 1;
      assert order == order[..n] + [order[n]];
      TakeIsFollow(w, nodes, s, order[..n]);
      TakeLast(w, nodes, s, order[..n], order[n]);
    }
  }

  /** A complete continuation of `done`: the remaining steps, predecessors first. */
  ghost predicate Continues<O>(nodes: seq<Node<O>>, done: set<nat>, order: seq<nat>) {
    && Distinct(order) && Elements(order) !! done && Elements(order) + done == All(nodes)
    && (forall i :: 0 <= i < |order| ==> order[i] < |nodes| && IsReady(nodes, done + Elements(order[..i]), order[i]))
  }

  /** What comes before a step, once `order[j]` has been moved to the front. */
  lemma EarlierStill(order: seq<nat>, j: nat, i: nat)
    requires j < |order| && i < |order| - 1
    ensures Elements(order[..if i < j then i else i + 1]) <= {order[j]} + Elements(Without(order, j)[..i])
  {
    var rest := Without(order, j);
    if i <= j {
      assert rest[..i] == order[..i];
    } else {
      assert rest[..i] == order[..j] + order[j + 1..i + 1];
      assert order[..i + 1] == order[..j] + [order[j]] + order[j + 1..i + 1];
    }
  }

  lemma ReadyWithMore<O>(nodes: seq<Node<O>>, done: set<nat>, more: set<nat>, i: nat)
    requires i < |nodes| && IsReady(nodes, done, i) && done <= more && i !in more
    ensures IsReady(nodes, more, i)
  {
  }

  lemma ContinuesWithout<O>(nodes: seq<Node<O>>, done: set<nat>, order: seq<nat>, j: nat)
    requires Continues(nodes, done, order) && j < |order|
    ensures Continues(nodes, done + {order[j]}, Without(order, j))
  {
    var rest := Without(order, j);
    WithoutMeans(order, j);
    forall i | 0 <= i < |rest|
      ensures rest[i] < |nodes| && IsReady(nodes, done + {order[j]} + Elements(rest[..i]), rest[i])
    {
      var k := if i < j then i else i + 1;
      EarlierStill(order, j, i);
      assert rest[i] in Elements(rest);
      NotBefore(rest, i);
      ReadyWithMore(nodes, done + Elements(order[..k]), done + {order[j]} + Elements(rest[..i]), rest[i]);
    }
  }

  lemma NotBefore(s: seq<nat>, i: nat)
    requires Distinct(s) && i < |s|
    ensures s[i] !in Elements(s[..i])
  {
  }

  /** The first step of a continuation is ready, and taking it leaves a continuation. */
  lemma ContinuesNext<O>(nodes: seq<Node<O>>, p: seq<nat>, order: seq<nat>)
    requires Topological(nodes, p) && Continues(nodes, Elements(p), order) && order != []
    ensures Topological(nodes, p + [order[0]]) && Elements(p + [order[0]]) == Elements(p) + {order[0]}
    ensures Continues(nodes, Elements(p + [order[0]]), order[1..])
    ensures ReadyAfter(nodes, p, order[0])
  {
    assert Elements(p) + Elements(order[..0]) == Elements(p);
    TopologicalNext(nodes, p, order[0]);
    ContinuesWithout(nodes, Elements(p), order, 0);
    assert Without(order, 0) == order[1..];
    assert Elements(p + [order[0]]) == Elements(p) + {order[0]};
  }

  lemma FollowOne<S, O, C>(w: World<S, O, C>, nodes: seq<Node<O>>, s0: S, p: seq<nat>, i: nat)
    requires Topological(nodes, p) && i < |nodes|
    ensures forall k :: 0 <= k < |p + [i]| ==> (p + [i])[k] < |nodes|
    ensures Follow(w, nodes, s0, p + [i]) ==
      match Follow(w, nodes, s0, p) { case None => None case Some(t) => Try(w, t, nodes[i].op) }
  {
    FollowNext(w, nodes, s0, p, i);
  }

  lemma StillReady<O>(nodes: seq<Node<O>>, p: seq<nat>, a: nat, c: nat)
    requires ReadyAfter(nodes, p, c) && a != c
    ensures ReadyAfter(nodes, p + [a], c)
  {
    assert Elements(p + [a]) == Elements(p) + {a};
  }

  /** A step that is ready and fits now, and comes later in a successful order, can be moved to the
      front of it. */
  lemma {:induction false} MoveToFront<S, O, C>(w: World<S, O, C>, nodes: seq<Node<O>>, s0: S, p: seq<nat>, s: S,
                                                order: seq<nat>, j: nat)
    requires Undisturbed(w, nodes, s0) && Topological(nodes, p) && Follow(w, nodes, s0, p) == Some(s)
    requires Continues(nodes, Elements(p), order) && j < |order| && ReadyAfter(nodes, p, order[j])
    requires Take(w, nodes, s, order).Some? && Try(w, s, nodes[order[j]].op).Some?
    ensures forall i :: 0 <= i < |Without(order, j)| ==> Without(order, j)[i] < |nodes|
    ensures Take(w, nodes, Try(w, s, nodes[order[j]].op).value, Without(order, j)) == Take(w, nodes, s, order)
    decreases j
  {
    hide Continues, Undisturbed, Topological, Follow, IsReady;
    var c := order[j];
    ContinuesWithout(nodes, Elements(p), order, j);
    RestInRange(nodes, Elements(p) + {c}, Without(order, j));
    if j == 0 {
      assert Without(order, 0) == order[1..];
    } else {
      var a := order[0];
      ContinuesNext(nodes, p, order);
      NotAgain(nodes, Elements(p), order, j);
      DiamondHere(w, nodes, s0, p, s, a, c);
      FollowOne(w, nodes, s0, p, a);
      StillReady(nodes, p, a, c);
      var t := Try(w, s, nodes[a].op).value;
      MoveToFront(w, nodes, s0, p + [a], t, order[1..], j - 1);
      assert Without(order, j) == [a] + Without(order[1..], j - 1);
    }
  }

  lemma RestInRange<O>(nodes: seq<Node<O>>, done: set<nat>, order: seq<nat>)
    requires Continues(nodes, done, order)
    ensures forall i :: 0 <= i < |order| ==> order[i] < |nodes|
  {
  }

  lemma NotAgain<O>(nodes: seq<Node<O>>, done: set<nat>, order: seq<nat>, j: nat)
    requires Continues(nodes, done, order) && 0 < j < |order|
    ensures order[0] != order[j]
  {
  }

  lemma DiamondHere<S, O, C>(w: World<S, O, C>, nodes: seq<Node<O>>, s0: S, p: seq<nat>, s: S, a: nat, b: nat)
    requires Undisturbed(w, nodes, s0) && Topological(nodes, p) && Follow(w, nodes, s0, p) == Some(s)
    requires ReadyAfter(nodes, p, a) && ReadyAfter(nodes, p, b) && a != b
    ensures Diamond(w, nodes, s, a, b)
  {
    assert UndisturbedAfter(w, nodes, s0, p, a, b);
  }

  /** The search is complete where steps never disturb one another: if any safe topological order
      exists, the greedy run finds one, and it ends in the same state. */
  lemma {:induction false} CompleteWhenUndisturbed<S, O, C>(w: World<S, O, C>, nodes: seq<Node<O>>, strategy: Strategy,
                                                            s0: S, p: seq<nat>, s: S, order: seq<nat>)
    requires Undisturbed(w, nodes, s0) && Topological(nodes, p) && Follow(w, nodes, s0, p) == Some(s)
    requires Elements(p) <= All(nodes) && Continues(nodes, Elements(p), order)
    requires Take(w, nodes, s, order).Some?
    ensures Greedy(w, nodes, strategy, Elements(p), s).Some?
    ensures Some(Greedy(w, nodes, strategy, Elements(p), s).value.1) == Take(w, nodes, s, order)
    decreases |All(nodes) - Elements(p)|
  {
    hide Candidates, Undisturbed, Continues, Topological, Follow, IsReady;
    var done := Elements(p);
    if done == All(nodes) {
      Finished(nodes, done, order);
    } else {
      CandidatesReady(nodes, strategy, done);
      AllMeans(nodes);
      var ready := Candidates(nodes, strategy, done);
      var k := FirstFit(w, nodes, s, ready);
      FirstIsCandidate(w, nodes, done, s, order, ready);
      var c := ready[k];
      NotDone(nodes, done, c);
      var j := Where(nodes, done, order, c);
      MoveToFront(w, nodes, s0, p, s, order, j);
      ContinuesWithout(nodes, done, order, j);
      TopologicalNext(nodes, p, c);
      FollowOne(w, nodes, s0, p, c);
      assert Elements(p + [c]) == done + {c};
      assert All(nodes) - done == (All(nodes) - (done + {c})) + {c};
      CompleteWhenUndisturbed(w, nodes, strategy, s0, p + [c], Try(w, s, nodes[c].op).value, Without(order, j));
    }
  }

  lemma NotDone<O>(nodes: seq<Node<O>>, done: set<nat>, c: nat)
    requires c < |nodes| && IsReady(nodes, done, c)
    ensures c !in done
  {
  }

  /** Started from nothing: the search refuses only if there is no safe order at all. */
  lemma RefusalMeansNoOrder<S, O, C>(w: World<S, O, C>, nodes: seq<Node<O>>, strategy: Strategy, s: S, order: seq<nat>)
    requires Undisturbed(w, nodes, s) && Topological(nodes, order) && |order| == |nodes|
    requires Follow(w, nodes, s, order).Some?
    ensures Greedy(w, nodes, strategy, {}, s).Some?
    ensures Some(Greedy(w, nodes, strategy, {}, s).value.1) == Follow(w, nodes, s, order)
  {
    hide Continues, Undisturbed, Greedy;
    FromNothing(nodes, order);
    TakeIsFollow(w, nodes, s, order);
    assert Elements([]) == {};
    CompleteWhenUndisturbed(w, nodes, strategy, s, [], s, order);
  }

  lemma FromNothing<O>(nodes: seq<Node<O>>, order: seq<nat>)
    requires Topological(nodes, order) && |order| == |nodes|
    ensures Continues(nodes, {}, order)
    ensures forall i :: 0 <= i < |order| ==> order[i] < |nodes|
  {
    AllMeans(nodes);
    DistinctSize(order);
    assert Elements(order) <= All(nodes);
    assert All(nodes) == Elements(order) + (All(nodes) - Elements(order));
    forall i | 0 <= i < |order| ensures IsReady(nodes, {} + Elements(order[..i]), order[i]) {
      assert {} + Elements(order[..i]) == Elements(order[..i]);
    }
  }

  lemma Finished<O>(nodes: seq<Node<O>>, done: set<nat>, order: seq<nat>)
    requires Continues(nodes, done, order) && done == All(nodes)
    ensures order == []
  {
    assert Elements(order) == {};
    DistinctSize(order);
  }

  /** The first step of a successful continuation is a candidate that fits, so one fits. */
  lemma FirstIsCandidate<S, O, C>(w: World<S, O, C>, nodes: seq<Node<O>>, done: set<nat>, s: S, order: seq<nat>,
                                  ready: seq<nat>)
    requires done < All(nodes) && Continues(nodes, done, order) && Take(w, nodes, s, order).Some?
    requires forall i :: 0 <= i < |ready| ==> ready[i] < |nodes| && IsReady(nodes, done, ready[i])
    requires forall i: nat :: i < |nodes| && IsReady(nodes, done, i) ==> i in ready
    ensures FirstFit(w, nodes, s, ready) < |ready|
    ensures Distinct(order) && forall i :: 0 <= i < |order| ==> order[i] < |nodes|
  {
    assert order == [] ==> Elements(order) == {};
    assert done + Elements(order[..0]) == done;
    assert IsReady(nodes, done, order[0]);
    assert order[0] in ready;
    var m :| 0 <= m < |ready| && ready[m] == order[0];
  }

  lemma Where<O>(nodes: seq<Node<O>>, done: set<nat>, order: seq<nat>, c: nat) returns (j: nat)
    requires Continues(nodes, done, order) && c < |nodes| && c !in done
    ensures j < |order| && order[j] == c
  {
    AllMeans(nodes);
    assert c in Elements(order);
    j :| 0 <= j < |order| && order[j] == c;
  }
}
