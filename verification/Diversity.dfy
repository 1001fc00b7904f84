/** Path diversity and failure-domain redundancy: the exact search for link-disjoint paths, with
    its budget, and how many paths survive the loss of any one domain. */
module Diversity {
  import opened Snapshots
  import opened Eligibility
  import opened Dependencies

  const SEARCH_BUDGET: nat := 200000

  const MAX_PATHS: nat := 24

  function LinksOf(path: seq<Id>): set<Id> { set i | 0 <= i < |path| :: path[i] }

  // ----- what is being maximised -----

  /** The paths with these indices pairwise share no link, and none of them uses a used link. */
  ghost predicate Family(paths: seq<seq<Id>>, used: set<Id>, chosen: set<nat>) {
    && (forall i :: i in chosen ==> i < |paths| && LinksOf(paths[i]) !! used)
    && (forall i, j :: i in chosen && j in chosen && i != j ==> LinksOf(paths[i]) !! LinksOf(paths[j]))
  }

  /** The most paths from `index` on that fit beside the used links. */
  ghost function Most(paths: seq<seq<Id>>, index: nat, used: set<Id>): (n: nat)
    requires index <= |paths|
    ensures n <= |paths| - index
    decreases |paths| - index
  {
    if index == |paths| then 0
    else
      var links := LinksOf(paths[index]);
      var skip := Most(paths, index + 1, used);
      if links !! used then Larger(skip, Most(paths, index + 1, used + links) + 1) else skip
  }

  function Larger(a: nat, b: nat): nat { if a < b then b else a }

  /** `Most` is attained. */
  lemma {:induction false} MostIsAttained(paths: seq<seq<Id>>, index: nat, used: set<Id>) returns (chosen: set<nat>)
    requires index <= |paths|
    ensures Family(paths, used, chosen) && |chosen| == Most(paths, index, used)
    ensures forall i :: i in chosen ==> index <= i
    decreases |paths| - index
  {
    if index == |paths| {
      chosen := {};
    } else {
      var links := LinksOf(paths[index]);
      var skip := Most(paths, index + 1, used);
      if links !! used && Most(paths, index + 1, used + links) + 1 > skip {
        var rest := MostIsAttained(paths, index + 1, used + links);
        chosen := {index} + rest;
        assert forall i :: i in rest ==> LinksOf(paths[i]) !! used && LinksOf(paths[i]) !! links;
      } else {
        chosen := MostIsAttained(paths, index + 1, used);
      }
    }
  }

  /** Nothing beats `Most`. */
  lemma {:induction false} MostIsMost(paths: seq<seq<Id>>, index: nat, used: set<Id>, chosen: set<nat>)
    requires index <= |paths| && Family(paths, used, chosen) && forall i :: i in chosen ==> index <= i
    ensures |chosen| <= Most(paths, index, used)
    decreases |paths| - index
  {
    if index == |paths| {
      assert forall i :: i in chosen ==> false;
      assert chosen == {};
    } else if index in chosen {
      var rest := chosen - {index};
      assert forall i :: i in rest ==> LinksOf(paths[i]) !! used + LinksOf(paths[index]);
      MostIsMost(paths, index + 1, used + LinksOf(paths[index]), rest);
    } else {
      MostIsMost(paths, index + 1, used, chosen);
    }
  }

  // ----- the search -----

  /** How many calls a search over `n` paths can make. */
  function Calls(n: nat): nat { if n == 0 then 1 else 1 + 2 * Calls(n - 1) }

  lemma CallsOfSixteen()
    ensures Calls(16) == 131071 && Calls(16) <= SEARCH_BUDGET && Calls(17) > SEARCH_BUDGET
  {
    assert Calls(4) == 31;
    assert Calls(8) == 1 + 2 * (1 + 2 * (1 + 2 * (1 + 2 * Calls(4))));
    assert Calls(12) == 1 + 2 * (1 + 2 * (1 + 2 * (1 + 2 * Calls(8))));
    assert Calls(16) == 1 + 2 * (1 + 2 * (1 + 2 * (1 + 2 * Calls(12))));
    assert Calls(17) == 1 + 2 * Calls(16);
  }

  lemma {:induction false} CallsGrow(m: nat, n: nat)
    requires m <= n
    ensures Calls(m) <= Calls(n)
  {
    if m < n { CallsGrow(m, n - 1); }
  }

  /** What the search comes to without a budget, from path `index` with `taken` paths chosen beside the
      used links and `best` found so far: how many calls it takes, and the most it finds. */
  datatype Course = Course(calls: nat, best: nat)

  ghost function Unbounded(paths: seq<seq<Id>>, required: nat, index: nat, used: set<Id>, taken: nat, best: nat)
    : (c: Course)
    requires index <= |paths|
    ensures 1 <= c.calls <= Calls(|paths| - index) && c.best >= best
    decreases |paths| - index
  {
    if best >= required then Course(1, best)
    else if index == |paths| then Course(1, Larger(best, taken))
    else if taken + (|paths| - index) <= best then Course(1, best)
    else
      var links := LinksOf(paths[index]);
      var with :=
        if links !! used then Unbounded(paths, required, index + 1, used + links, taken + 1, best) else Course(0, best);
      var without := Unbounded(paths, required, index + 1, used, taken, with.best);
      Course(1 + with.calls + without.calls, without.best)
  }

  /** Without a budget the search finds the maximum, or enough. */
  lemma {:induction false} UnboundedFinds(paths: seq<seq<Id>>, required: nat, index: nat, used: set<Id>, taken: nat,
                                          best: nat)
    requires index <= |paths|
    ensures var c := Unbounded(paths, required, index, used, taken, best);
      c.best < required ==> c.best == Larger(best, taken + Most(paths, index, used))
    decreases |paths| - index
  {
    hide Calls;
    if best < required && index < |paths| && taken + (|paths| - index) > best {
      var links := LinksOf(paths[index]);
      var with :=
        if links !! used then Unbounded(paths, required, index + 1, used + links, taken + 1, best) else Course(0, best);
      if links !! used { UnboundedFinds(paths, required, index + 1, used + links, taken + 1, best); }
      UnboundedFinds(paths, required, index + 1, used, taken, with.best);
    }
  }

  class DisjointSearch {
    const paths: seq<seq<Id>>
    const required: nat
    var used: set<Id>
    var best: nat
    var budget: nat
    var exhausted: bool

    constructor (paths: seq<seq<Id>>, required: nat, budget: nat)
      ensures this.paths == paths && this.required == required && this.budget == budget
      ensures used == {} && best == 0 && !exhausted
    {
      this.paths, this.required, this.budget := paths, required, budget;
      used, best, exhausted := {}, 0, false;
    }

    /** Branch and bound from path `index` with `taken` paths already chosen.  Leaves the used
        links as they were, never claims more than can be had, and unless the budget runs out comes to
        what it comes to without one. */
    method Explore(index: nat, taken: nat)
      requires index <= |paths|
      modifies this
      ensures used == old(used)
      ensures old(best) <= best <= Larger(old(best), taken + Most(paths, index, used))
      ensures old(exhausted) ==> exhausted && best == old(best)
      ensures !old(exhausted) ==>
        var course := Unbounded(paths, required, index, used, taken, old(best));
        && (exhausted <==> course.calls > old(budget))
        && (!exhausted ==> best == course.best && budget == old(budget) - course.calls)
      decreases |paths| - index
    {
      hide LinksOf, Calls;
      if exhausted { return; }
      if budget == 0 {
        exhausted := true;
        return;
      }
      budget := budget - 1;
      if best >= required { return; }
      if index == |paths| {
        best := Larger(best, taken);
        return;
      }
      if taken + (|paths| - index) <= best { return; }
      var links := LinksOf(paths[index]);
      if links !! used {
        used := used + links;
        Explore(index + 1, taken + 1);
        used := used - links;
        assert used == old(used);
      }
      Explore(index + 1, taken);
    }
  }

  datatype DiversityResult = DiversityResult(maximum: nat, exhausted: bool)

  function FirstPaths(eligible: seq<Entry>, limit: nat): (paths: seq<seq<Id>>)
    requires limit <= |eligible|
    ensures |paths| == limit
  {
    seq(limit, i requires 0 <= i < limit => eligible[i].route.spec.path)
  }

  /** At least `k` of the eligible routes pairwise share no link. */
  ghost predicate Disjoint(eligible: seq<Entry>, k: nat) {
    exists chosen :: Family(FirstPaths(eligible, |eligible|), {}, chosen) && |chosen| >= k
  }

  /** How many of the eligible routes are looked at. */
  function LookedAt(eligible: seq<Entry>): (n: nat)
    ensures n <= |eligible|
  {
    if |eligible| < MAX_PATHS then |eligible| else MAX_PATHS
  }

  /** The number of link-disjoint paths among the first 24 eligible routes, as far as `ceiling`
      needs it.  What is found is always there; unless the search says it ran out of budget, nothing
      more is there among those routes if it is short of the ceiling; and it runs out exactly if without a
      budget it would take more than 200000 calls, which with at most 16 routes it never does. */
  method MaximumLinkDisjointPaths(eligible: seq<Entry>, ceiling: nat) returns (r: DiversityResult)
    ensures Disjoint(eligible, r.maximum)
    ensures !r.exhausted && r.maximum < ceiling ==> !Disjoint(eligible[..LookedAt(eligible)], r.maximum + 1)
    ensures !r.exhausted && r.maximum >= ceiling ==> Disjoint(eligible, ceiling)
    ensures |eligible| <= MAX_PATHS && !r.exhausted ==> (r.maximum >= ceiling <==> Disjoint(eligible, ceiling))
    ensures r.exhausted <==>
      Unbounded(FirstPaths(eligible, LookedAt(eligible)), ceiling, 0, {}, 0, 0).calls > SEARCH_BUDGET
    ensures |eligible| <= 16 ==> !r.exhausted
  {
    hide Disjoint, Family, Most, Unbounded;
    var limit := LookedAt(eligible);
    var paths := FirstPaths(eligible, limit);
    var search := new DisjointSearch(paths, ceiling, SEARCH_BUDGET);
    CallsOfSixteen();
    if limit <= 16 { CallsGrow(limit, 16); }
    search.Explore(0, 0);
    UnboundedFinds(paths, ceiling, 0, {}, 0, 0);
    r := DiversityResult(search.best, search.exhausted);
    var chosen := MostIsAttained(paths, 0, {});
    MoreRoutes(eligible, limit, chosen, r.maximum);
    var seen := eligible[..limit];
    assert FirstPaths(seen, limit) == paths;
    forall k: nat | Disjoint(seen, k) { NoMoreThanMost(seen, paths, k); }
    if |eligible| <= MAX_PATHS { assert seen == eligible; }
    if r.maximum >= ceiling { Fewer(eligible, r.maximum, ceiling); }
  }

  lemma NoMoreThanMost(seen: seq<Entry>, paths: seq<seq<Id>>, k: nat)
    requires paths == FirstPaths(seen, |seen|) && Disjoint(seen, k)
    ensures k <= Most(paths, 0, {})
  {
    var family :| Family(paths, {}, family) && |family| >= k;
    MostIsMost(paths, 0, {}, family);
  }

  lemma Fewer(eligible: seq<Entry>, n: nat, k: nat)
    requires k <= n && Disjoint(eligible, n)
    ensures Disjoint(eligible, k)
  {
  }

  /** So many routes are link disjoint exactly if that many can be chosen no two of which have a link of their
      paths in common. */
  lemma DisjointMeans(eligible: seq<Entry>, k: nat)
    ensures Disjoint(eligible, k) <==>
      exists chosen: set<nat> ::
        && |chosen| >= k && (forall i :: i in chosen ==> i < |eligible|)
        && forall i, j, link ::
             i in chosen && j in chosen && i != j && link in eligible[i].route.spec.path ==>
               link !in eligible[j].route.spec.path
  {
    var paths := FirstPaths(eligible, |eligible|);
    forall i, link | 0 <= i < |eligible| ensures link in LinksOf(paths[i]) <==> link in eligible[i].route.spec.path {
      LinksMean(paths[i], link);
    }
    if Disjoint(eligible, k) {
      var chosen :| Family(paths, {}, chosen) && |chosen| >= k;
      forall i, j, link | i in chosen && j in chosen && i != j && link in eligible[i].route.spec.path
        ensures link !in eligible[j].route.spec.path
      {
        assert LinksOf(paths[i]) !! LinksOf(paths[j]) && link in LinksOf(paths[i]);
      }
    }
    if chosen: set<nat> :|
         && |chosen| >= k && (forall i :: i in chosen ==> i < |eligible|)
         && forall i, j, link ::
              i in chosen && j in chosen && i != j && link in eligible[i].route.spec.path ==>
                link !in eligible[j].route.spec.path
    {
      assert Family(paths, {}, chosen);
    }
  }

  lemma LinksMean(path: seq<Id>, link: Id)
    ensures link in LinksOf(path) <==> link in path
  {
  }

  lemma MoreRoutes(eligible: seq<Entry>, limit: nat, chosen: set<nat>, k: nat)
    requires limit <= |eligible| && Family(FirstPaths(eligible, limit), {}, chosen) && |chosen| >= k
    ensures Disjoint(eligible, k)
  {
    assert Family(FirstPaths(eligible, |eligible|), {}, chosen);
  }

  // ----- surviving the loss of a domain -----

  ghost function Surviving(s: Snapshot, eligible: seq<Entry>, domain: Id): (n: nat)
    ensures n <= |eligible|
  {
    if eligible == [] then 0
    else
      var n := |eligible| - 1;
      Surviving(s, eligible[..n], domain) + (if domain in RouteDomains(s, eligible[n].route.spec) then 0 else 1)
  }

  /** There are `k` paths, and `k` are left whichever failure domain is lost. */
  ghost predicate Redundant(s: Snapshot, eligible: seq<Entry>, k: nat) {
    k <= |eligible| && forall d :: Surviving(s, eligible, d) >= k
  }

  ghost predicate OnSomePath(s: Snapshot, eligible: seq<Entry>, domain: Id) {
    exists i :: 0 <= i < |eligible| && domain in RouteDomains(s, eligible[i].route.spec)
  }

  lemma {:induction false} ElsewhereAllSurvive(s: Snapshot, eligible: seq<Entry>, domain: Id)
    requires !OnSomePath(s, eligible, domain)
    ensures Surviving(s, eligible, domain) == |eligible|
  {
    if eligible != [] {
      var n := |eligible| - 1;
      assert eligible[n].route == eligible[n].route;
      assert !OnSomePath(s, eligible[..n], domain) by {
        forall i | 0 <= i < n ensures domain !in RouteDomains(s, eligible[..n][i].route.spec) {
          assert eligible[..n][i] == eligible[i];
        }
      }
      ElsewhereAllSurvive(s, eligible[..n], domain);
    }
  }

  method CountSurviving(s: Snapshot, eligible: seq<Entry>, domain: Id) returns (n: nat)
    ensures n == Surviving(s, eligible, domain)
  {
    n := 0;
    for i := 0 to |eligible|
      invariant n == Surviving(s, eligible[..i], domain)
    {
      assert eligible[..i + 1][..i] == eligible[..i];
      if domain !in RouteDomains(s, eligible[i].route.spec) { n := n + 1; }
    }
    assert eligible[..|eligible|] == eligible;
  }

  method DomainsInUse(s: Snapshot, eligible: seq<Entry>) returns (domains: set<Id>)
    ensures forall d :: d in domains <==> OnSomePath(s, eligible, d)
  {
    domains := {};
    for i := 0 to |eligible|
      invariant forall d :: d in domains <==> exists j :: 0 <= j < i && d in RouteDomains(s, eligible[j].route.spec)
    {
      domains := domains + RouteDomains(s, eligible[i].route.spec);
    }
  }

  /** The least number of eligible paths left after losing any one failure domain: enough survive
      the loss of every single domain exactly when this number is enough. */
  method DomainRedundancy(s: Snapshot, eligible: seq<Entry>) returns (surviving: nat)
    ensures forall k: nat :: Redundant(s, eligible, k) <==> k <= surviving
  {
    var domains := DomainsInUse(s, eligible);
    surviving := |eligible|;
    ghost var worst: Id := 0;
    var left := domains;
    while left != {}
      invariant left <= domains && surviving <= |eligible|
      invariant forall d :: d in domains - left ==> Surviving(s, eligible, d) >= surviving
      invariant surviving == |eligible| || Surviving(s, eligible, worst) == surviving
      decreases |left|
    {
      var d :| d in left;
      var n := CountSurviving(s, eligible, d);
      if n < surviving { surviving, worst := n, d; }
      left := left - {d};
    }
    forall d ensures Surviving(s, eligible, d) >= surviving {
      if d !in domains { ElsewhereAllSurvive(s, eligible, d); }
    }
  }
}
