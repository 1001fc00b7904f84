/** The acyclicity pass over the dependency edges of a plan: repeatedly take a step with no
    unvisited predecessor.  The pass visits everything exactly when no set of steps is trapped,
    that is, when there is no set in which every member waits for another member. */
module Kahn {
  import opened Permutations
  import opened Worlds

  datatype Edge = Edge(from: StepId, to: StepId)

  ghost predicate Known(ids: seq<StepId>, edges: seq<Edge>) {
    forall e :: e in edges ==> e.from in ids && e.to in ids
  }

  /** A nonempty set of steps each of which waits for a member of the set. */
  ghost predicate Trapped(ids: seq<StepId>, edges: seq<Edge>, t: set<StepId>) {
    && t != {}
    && (forall x :: x in t ==> x in ids)
    && (forall x :: x in t ==> Waits(edges, x, t))
  }

  ghost predicate Waits(edges: seq<Edge>, x: StepId, t: set<StepId>) {
    exists e :: e in edges && e.to == x && e.from in t
  }

  /** Edges into `x` from steps outside `done`, counted with multiplicity. */
  ghost function Unmet(edges: seq<Edge>, x: StepId, done: set<StepId>): nat {
    if edges == [] then 0
    else
      var e := edges[|edges| - 1];
      Unmet(edges[..|edges| - 1], x, done) + (if e.to == x && e.from !in done then 1 else 0)
  }

  ghost function Targets(edges: seq<Edge>, c: StepId): seq<StepId> {
    if edges == [] then []
    else
      var e := edges[|edges| - 1];
      Targets(edges[..|edges| - 1], c) + (if e.from == c then [e.to] else [])
  }

  /** Visiting `c` meets exactly the waits on `c`. */
  lemma {:induction false} VisitMeets(edges: seq<Edge>, x: StepId, done: set<StepId>, c: StepId)
    requires c !in done
    ensures Unmet(edges, x, done) == Unmet(edges, x, done + {c}) + multiset(Targets(edges, c))[x]
  {
    if edges != [] {
      VisitMeets(edges[..|edges| - 1], x, done, c);
    }
  }

  lemma {:induction false} UnmetZero(edges: seq<Edge>, x: StepId, done: set<StepId>)
    ensures Unmet(edges, x, done) == 0 <==> forall e :: e in edges && e.to == x ==> e.from in done
  {
    if edges != [] {
      var init, e := edges[..|edges| - 1], edges[|edges| - 1];
      UnmetZero(init, x, done);
      assert edges == init + [e];
      assert forall d :: d in edges <==> d in init || d == e;
    }
  }

  lemma {:induction false} TargetsKnown(ids: seq<StepId>, edges: seq<Edge>, c: StepId)
    requires Known(ids, edges)
    ensures forall x :: x in Targets(edges, c) ==> x in ids
  {
    if edges != [] {
      assert forall e :: e in edges[..|edges| - 1] ==> e in edges;
      TargetsKnown(ids, edges[..|edges| - 1], c);
    }
  }

  /** An order in which every predecessor comes first leaves no room for a trapped set. */
  lemma {:induction false} OrderedUntrapped(ids: seq<StepId>, edges: seq<Edge>, order: seq<StepId>, t: set<StepId>)
    requires forall i :: 0 <= i < |order| ==> Unmet(edges, order[i], Before(order, i)) == 0
    requires forall x :: x in t ==> Waits(edges, x, t)
    ensures forall i :: 0 <= i < |order| ==> order[i] !in t
  {
    if order != [] {
      var n := |order| - 1;
      forall i | 0 <= i < n ensures Before(order[..n], i) == Before(order, i) {
        assert order[..n][..i] == order[..i];
      }
      OrderedUntrapped(ids, edges, order[..n], t);
      if order[n] in t {
        var e :| e in edges && e.to == order[n] && e.from in t;
        UnmetZero(edges, order[n], Before(order, n));
        assert false;
      }
      forall i | 0 <= i < |order| ensures order[i] !in t {
        if i < n { assert order[..n][i] == order[i]; }
      }
    }
  }

  ghost function Before(order: seq<StepId>, i: nat): set<StepId>
    requires i <= |order|
  {
    Elements(order[..i])
  }

  /** Builds the indegree and successor tables. */
  method Tables(ids: seq<StepId>, edges: seq<Edge>)
    returns (successors: map<StepId, seq<StepId>>, indegree: map<StepId, int>)
    requires Known(ids, edges)
    ensures forall x :: x in ids <==> x in indegree
    ensures forall x :: x in ids ==> indegree[x] == Unmet(edges, x, {})
    ensures forall c :: (if c in successors then successors[c] else []) == Targets(edges, c)
  {
    successors, indegree := map[], map[];
    for i := 0 to |ids|
      invariant forall x :: x in ids[..i] <==> x in indegree
      invariant forall x :: x in indegree ==> indegree[x] == 0
    {
      indegree := indegree[ids[i] := 0];
      assert ids[..i + 1] == ids[..i] + [ids[i]];
    }
    assert ids[..|ids|] == ids;
    for i := 0 to |edges|
      invariant forall x :: x in ids <==> x in indegree
      invariant forall x :: x in ids ==> indegree[x] == Unmet(edges[..i], x, {})
      invariant forall c :: (if c in successors then successors[c] else []) == Targets(edges[..i], c)
    {
      var e := edges[i];
      assert e in edges;
      assert edges[..i + 1][..i] == edges[..i];
      successors := successors[e.from := (if e.from in successors then successors[e.from] else []) + [e.to]];
      indegree := indegree[e.to := indegree[e.to] + 1];
    }
    assert edges[..|edges|] == edges;
  }

  /** The indegree table once `done` has been visited, with the arrivals in `succ` still to be
      taken off. */
  ghost predicate Table(ids: seq<StepId>, edges: seq<Edge>, done: set<StepId>, succ: seq<StepId>,
                        indegree: map<StepId, int>) {
    && (forall x :: x in ids <==> x in indegree)
    && (forall x :: x in ids ==> indegree[x] == Unmet(edges, x, done) + multiset(succ)[x])
    && (forall x :: x in done ==> x in ids && indegree[x] == 0)
  }

  /** The steps that can be visited next, each listed once. */
  ghost predicate ReadyList(ids: seq<StepId>, done: set<StepId>, indegree: map<StepId, int>, ready: seq<StepId>) {
    && (forall x :: x in ids ==> x in indegree)
    && Distinct(ready)
    && (forall x :: x in ready <==> x in ids && x !in done && indegree[x] == 0)
  }

  lemma PopReady(ids: seq<StepId>, done: set<StepId>, indegree: map<StepId, int>, ready: seq<StepId>)
    requires ReadyList(ids, done, indegree, ready) && ready != []
    ensures var c := ready[|ready| - 1];
      && c in ids && c !in done && indegree[c] == 0
      && ReadyList(ids, done + {c}, indegree, ready[..|ready| - 1])
  {
    var c := ready[|ready| - 1];
    assert c in ready;
    assert ready == ready[..|ready| - 1] + [c];
  }

  lemma VisitOwes(ids: seq<StepId>, edges: seq<Edge>, done: set<StepId>, c: StepId, indegree: map<StepId, int>)
    requires Table(ids, edges, done, [], indegree) && c in ids && c !in done && indegree[c] == 0
    ensures Table(ids, edges, done + {c}, Targets(edges, c), indegree)
  {
    forall x | x in ids
      ensures indegree[x] == Unmet(edges, x, done + {c}) + multiset(Targets(edges, c))[x]
    {
      VisitMeets(edges, x, done, c);
    }
  }

  lemma TakeOff(ids: seq<StepId>, edges: seq<Edge>, done: set<StepId>, next: StepId, rest: seq<StepId>,
                indegree: map<StepId, int>)
    requires next in ids && Table(ids, edges, done, [next] + rest, indegree)
    ensures Table(ids, edges, done, rest, indegree[next := indegree[next] - 1])
    ensures indegree[next] > 0 && next !in done
  {
    assert multiset([next] + rest) == multiset{next} + multiset(rest);
  }

  lemma BecomeReady(ids: seq<StepId>, done: set<StepId>, next: StepId, indegree: map<StepId, int>, ready: seq<StepId>)
    requires next in ids && next !in done && ReadyList(ids, done, indegree, ready) && indegree[next] > 0
    ensures var lower := indegree[next := indegree[next] - 1];
      ReadyList(ids, done, lower, if lower[next] == 0 then ready + [next] else ready)
  {
  }

  /** Marks one visited step's successors, collecting those that became ready. */
  method Visit(ids: seq<StepId>, edges: seq<Edge>, succ: seq<StepId>, ghost done: set<StepId>,
               indegree0: map<StepId, int>, ready0: seq<StepId>)
    returns (indegree: map<StepId, int>, ready: seq<StepId>)
    requires forall x :: x in succ ==> x in ids
    requires Table(ids, edges, done, succ, indegree0)
    requires ReadyList(ids, done, indegree0, ready0)
    ensures Table(ids, edges, done, [], indegree)
    ensures ReadyList(ids, done, indegree, ready)
  {
    indegree, ready := indegree0, ready0;
    assert succ[0..] == succ;
    for j := 0 to |succ|
      invariant Table(ids, edges, done, succ[j..], indegree)
      invariant ReadyList(ids, done, indegree, ready)
    {
      var next := succ[j];
      assert succ[j..] == [next] + succ[j + 1..];
      assert next in succ;
      TakeOff(ids, edges, done, next, succ[j + 1..], indegree);
      BecomeReady(ids, done, next, indegree, ready);
      indegree := indegree[next := indegree[next] - 1];
      if indegree[next] == 0 {
        ready := ready + [next];
      }
    }
    assert succ[|succ|..] == [];
  }

  /** An order of visited steps in which every wait was met before its step was visited. */
  ghost predicate Visited(ids: seq<StepId>, edges: seq<Edge>, order: seq<StepId>) {
    && Distinct(order)
    && (forall i :: 0 <= i < |order| ==> order[i] in ids)
    && (forall i :: 0 <= i < |order| ==> Unmet(edges, order[i], Before(order, i)) == 0)
  }

  lemma VisitNext(ids: seq<StepId>, edges: seq<Edge>, order: seq<StepId>, c: StepId)
    requires Visited(ids, edges, order) && c in ids && c !in Elements(order)
    requires Unmet(edges, c, Elements(order)) == 0
    ensures Visited(ids, edges, order + [c])
    ensures Elements(order + [c]) == Elements(order) + {c}
  {
    var next := order + [c];
    forall i | 0 <= i < |next| ensures Unmet(edges, next[i], Before(next, i)) == 0 {
      assert next[..i] == order[..i];
      if i == |order| { assert order[..i] == order; }
    }
  }

  method InitiallyReady(ids: seq<StepId>, indegree: map<StepId, int>) returns (ready: seq<StepId>)
    requires Distinct(ids) && forall x :: x in ids ==> x in indegree
    ensures ReadyList(ids, {}, indegree, ready)
  {
    ready := [];
    for i := 0 to |ids|
      invariant Distinct(ready)
      invariant forall x :: x in ready <==> x in ids[..i] && indegree[x] == 0
    {
      assert ids[..i + 1] == ids[..i] + [ids[i]];
      if indegree[ids[i]] == 0 {
        ready := ready + [ids[i]];
      }
    }
    assert ids[..|ids|] == ids;
  }

  /** The pass itself: true exactly when no set of steps is trapped. */
  method Acyclic(ids: seq<StepId>, edges: seq<Edge>) returns (ok: bool)
    requires Known(ids, edges) && Distinct(ids)
    ensures ok <==> !exists t :: Trapped(ids, edges, t)
  {
    var successors, indegree := Tables(ids, edges);
    var ready := InitiallyReady(ids, indegree);
    var visited := 0;
    ghost var order: seq<StepId> := [];
    ghost var done: set<StepId> := {};
    while ready != []
      invariant visited == |order| && done == Elements(order) <= Elements(ids)
      invariant Visited(ids, edges, order)
      invariant Table(ids, edges, done, [], indegree)
      invariant ReadyList(ids, done, indegree, ready)
      decreases Elements(ids) - done
    {
      var current := ready[|ready| - 1];
      PopReady(ids, done, indegree, ready);
      ready := ready[..|ready| - 1];
      visited := visited + 1;
      assert Unmet(edges, current, done) == 0;
      VisitNext(ids, edges, order, current);
      VisitOwes(ids, edges, done, current, indegree);
      TargetsKnown(ids, edges, current);
      order, done := order + [current], done + {current};
      var succ := if current in successors then successors[current] else [];
      indegree, ready := Visit(ids, edges, succ, done, indegree, ready);
    }
    ok := visited == |ids|;
    Verdict(ids, edges, order);
  }

  /** What the visited order says once nothing is ready. */
  lemma Verdict(ids: seq<StepId>, edges: seq<Edge>, order: seq<StepId>)
    requires Known(ids, edges) && Distinct(ids) && Visited(ids, edges, order)
    requires forall x :: x in ids && x !in Elements(order) ==> Unmet(edges, x, Elements(order)) != 0
    ensures |order| == |ids| <==> !exists t :: Trapped(ids, edges, t)
  {
    var done, all := Elements(order), Elements(ids);
    DistinctSize(order);
    DistinctSize(ids);
    var t := all - done;
    assert all == done + t;
    if |order| == |ids| {
      assert |t| == 0;
      assert forall x :: x in all ==> x in order;
      forall t ensures !Trapped(ids, edges, t) {
        if Trapped(ids, edges, t) {
          OrderedUntrapped(ids, edges, order, t);
        }
      }
    } else {
      forall x | x in t ensures Waits(edges, x, t) {
        UnmetZero(edges, x, done);
        var e :| e in edges && e.to == x && e.from !in done;
        assert e.from in t;
      }
      assert Trapped(ids, edges, t);
    }
  }

  /** Edges that always go to a higher rank trap nothing, so the pass accepts them. */
  lemma RisingUntrapped(ids: seq<StepId>, edges: seq<Edge>, rank: StepId -> nat, t: set<StepId>)
    requires forall e :: e in edges ==> rank(e.from) < rank(e.to)
    ensures !Trapped(ids, edges, t)
  {
    if Trapped(ids, edges, t) {
      var x := Lowest(t, rank);
      assert false;
    }
  }

  lemma Lowest(t: set<StepId>, rank: StepId -> nat) returns (x: StepId)
    requires t != {}
    ensures x in t && forall y :: y in t ==> rank(x) <= rank(y)
  {
    x :| x in t;
    if t != {x} {
      var y := Lowest(t - {x}, rank);
      if rank(y) < rank(x) { x := y; }
    }
  }
}
