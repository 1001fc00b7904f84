/** The order in which interleavings of a stage are enumerated.

    The planner walks the interleavings of a stage with the standard library's in-place
    `next_permutation`, starting from some order of the slots and stopping when there is no
    next one.  This module gives that successor function and its rank (the Lehmer code), and
    shows that one step raises the rank by exactly one.  From there: a walk started at `p`
    visits precisely the orders ranked at or above `p`, each once, and there are
    `Factorial(|p|) - Rank(p)` of them.
  */
module Permutations {
  import opened Wrappers

  function Factorial(n: nat): (f: nat)
    ensures f >= 1
  {
    if n == 0 then 1 else n * Factorial(n - 1)
  }

  predicate Distinct(p: seq<nat>) {
    forall i, j :: 0 <= i < j < |p| ==> p[i] != p[j]
  }

  ghost function Elements(p: seq<nat>): set<nat> {
    set x | x in p
  }

  /** `q` lists the elements of `p`, each once, in some order. */
  ghost predicate SameElements(p: seq<nat>, q: seq<nat>) {
    |p| == |q| && Distinct(p) && Distinct(q) && Elements(p) == Elements(q)
  }

  ghost predicate Ascending(p: seq<nat>) {
    forall i, j :: 0 <= i < j < |p| ==> p[i] < p[j]
  }

  ghost predicate Descending(p: seq<nat>) {
    forall i, j :: 0 <= i < j < |p| ==> p[i] > p[j]
  }

  /** The dictionary order on sequences of one length. */
  ghost predicate LexLess(p: seq<nat>, q: seq<nat>)
    requires |p| == |q|
  {
    p != [] && (p[0] < q[0] || (p[0] == q[0] && LexLess(p[1..], q[1..])))
  }

  lemma AscendingDistinct(p: seq<nat>)
    requires Ascending(p)
    ensures Distinct(p)
  {
  }

  function Identity(n: nat): (p: seq<nat>)
    ensures |p| == n && Ascending(p) && Distinct(p)
    ensures forall i :: 0 <= i < n ==> p[i] == i
  {
    seq(n, i => i)
  }

  // ----- the successor function -----

  function Reverse<T>(s: seq<T>): (r: seq<T>)
    ensures |r| == |s|
    ensures forall i :: 0 <= i < |s| ==> r[i] == s[|s| - 1 - i]
  {
    if s == [] then [] else Reverse(s[1..]) + [s[0]]
  }

  /** The last position in `t` holding something larger than `h`, or |t| when there is none. */
  function LastLarger(h: nat, t: seq<nat>): (k: nat)
    ensures k <= |t|
    ensures k < |t| ==> t[k] > h && forall i :: k < i < |t| ==> t[i] <= h
    ensures k == |t| ==> forall i :: 0 <= i < |t| ==> t[i] <= h
  {
    if t == [] then 0
    else if t[|t| - 1] > h then |t| - 1
    else
      var k := LastLarger(h, t[..|t| - 1]);
      if k == |t| - 1 then |t| else k
  }

  /** The next order in dictionary order: advance the tail if it can be advanced; otherwise the
      head is the pivot, trade it for the last larger element and reverse what follows. */
  function Next(p: seq<nat>): Option<seq<nat>> {
    if |p| <= 1 then None
    else
      var h, t := p[0], p[1..];
      match Next(t)
      case Some(t') => Some([h] + t')
      case None =>
        var k := LastLarger(h, t);
        if k == |t| then None else Some([t[k]] + Reverse(t[k := h]))
  }

  // ----- rank -----

  ghost function BelowSet(h: nat, s: set<nat>): set<nat> {
    set x | x in s && x < h
  }

  ghost function Below(h: nat, t: seq<nat>): nat {
    |BelowSet(h, Elements(t))|
  }

  /** How many orders of the same elements come before `p`. */
  ghost function Rank(p: seq<nat>): nat {
    if p == [] then 0 else Below(p[0], p[1..]) * Factorial(|p| - 1) + Rank(p[1..])
  }

  lemma Subset(a: set<nat>, b: set<nat>)
    requires a <= b
    ensures |a| <= |b|
  {
    assert b == a + (b - a);
  }

  lemma Split(p: seq<nat>)
    requires p != []
    ensures p == [p[0]] + p[1..]
    ensures Elements(p) == {p[0]} + Elements(p[1..])
    ensures Distinct(p) ==> p[0] !in Elements(p[1..]) && Distinct(p[1..])
  {
  }

  lemma ConsDistinct(h: nat, t: seq<nat>)
    requires Distinct(t) && h !in Elements(t)
    ensures Distinct([h] + t)
    ensures Elements([h] + t) == {h} + Elements(t)
  {
  }

  lemma DistinctSize(p: seq<nat>)
    requires Distinct(p)
    ensures |Elements(p)| == |p|
  {
    if p != [] {
      Split(p);
      DistinctSize(p[1..]);
    }
  }

  lemma BelowBound(h: nat, t: seq<nat>)
    requires Distinct(t)
    ensures Below(h, t) <= |t|
  {
    DistinctSize(t);
    Subset(BelowSet(h, Elements(t)), Elements(t));
  }

  lemma Scale(a: nat, b: nat, f: nat)
    requires a < b
    ensures a * f + f <= b * f
  {
    assert b == (b - 1) + 1;
    assert b * f == (b - 1) * f + f;
    assert a * f <= (b - 1) * f;
  }

  lemma {:induction false} RankBound(p: seq<nat>)
    requires Distinct(p)
    ensures Rank(p) < Factorial(|p|)
  {
    if p != [] {
      RankBound(p[1..]);
      BelowBound(p[0], p[1..]);
      Scale(Below(p[0], p[1..]), |p|, Factorial(|p| - 1));
    }
  }

  lemma {:induction false} AscendingRank(p: seq<nat>)
    requires Ascending(p)
    ensures Rank(p) == 0
  {
    if p != [] {
      AscendingRank(p[1..]);
      assert BelowSet(p[0], Elements(p[1..])) == {};
    }
  }

  lemma {:induction false} DescendingRank(p: seq<nat>)
    requires Descending(p)
    ensures Distinct(p) && Rank(p) == Factorial(|p|) - 1
  {
    if p != [] {
      var t := p[1..];
      DescendingRank(t);
      assert BelowSet(p[0], Elements(t)) == Elements(t);
      DistinctSize(t);
      assert Factorial(|p|) == (|t| + 1) * Factorial(|t|) == |t| * Factorial(|t|) + Factorial(|t|);
    }
  }

  // ----- one step of the successor -----

  lemma {:induction false} NoNext(p: seq<nat>)
    requires Distinct(p) && Next(p) == None
    ensures Descending(p)
  {
    if |p| > 1 {
      NoNext(p[1..]);
      assert LastLarger(p[0], p[1..]) == |p| - 1;
      forall i, j | 0 <= i < j < |p| ensures p[i] > p[j] {
        assert p[j] == p[1..][j - 1];
        if i > 0 { assert p[i] == p[1..][i - 1]; }
      }
    }
  }

  lemma ReverseElements(s: seq<nat>)
    ensures Elements(Reverse(s)) == Elements(s)
  {
    forall x | x in s ensures x in Reverse(s) {
      var i :| 0 <= i < |s| && s[i] == x;
      assert Reverse(s)[|s| - 1 - i] == x;
    }
  }

  lemma ReplaceElements(t: seq<nat>, k: nat, h: nat)
    requires Distinct(t) && k < |t|
    ensures Elements(t[k := h]) == Elements(t) - {t[k]} + {h}
  {
    var u := t[k := h];
    assert u[k] == h;
    forall x | x in t && x != t[k] ensures x in u {
      var i :| 0 <= i < |t| && t[i] == x;
      assert u[i] == x;
    }
    forall x | x in u && x != h ensures x in t && x != t[k] {
      var i :| 0 <= i < |u| && u[i] == x;
      assert t[i] == x;
    }
  }

  /** Trading the pivot for the last larger element of a descending tail and reversing gives an
      ascending tail over the remaining elements. */
  lemma PivotTail(h: nat, t: seq<nat>, k: nat)
    requires Descending(t) && h !in t && k < |t| && k == LastLarger(h, t)
    ensures var r := Reverse(t[k := h]);
      Ascending(r) && Elements(r) == Elements(t) - {t[k]} + {h}
  {
    var u := t[k := h];
    forall i, j | 0 <= i < j < |u| ensures u[i] > u[j] {
      if j == k { assert t[i] > t[k] > h; }
      if i == k { assert t[j] in t; }
    }
    ReplaceElements(t, k, h);
    ReverseElements(u);
  }

  /** The traded head has exactly one more element below it than the pivot had. */
  lemma PivotBelow(h: nat, t: seq<nat>, k: nat)
    requires Descending(t) && h !in t && k < |t| && k == LastLarger(h, t)
    ensures |BelowSet(t[k], Elements(t) - {t[k]} + {h})| == Below(h, t) + 1
  {
    var a := BelowSet(h, Elements(t));
    var b := BelowSet(t[k], Elements(t) - {t[k]} + {h});
    forall x ensures x in b <==> x in a + {h} {
      if x in b && x != h {
        var i :| 0 <= i < |t| && t[i] == x;
        assert i > k;
      }
    }
    assert b == a + {h};
  }

  lemma NextPivot(h: nat, t: seq<nat>)
    requires Distinct(t) && h !in t && Next(t) == None && LastLarger(h, t) < |t|
    ensures var k := LastLarger(h, t); var r := Reverse(t[k := h]);
      && SameElements([h] + t, [t[k]] + r)
      && Below(t[k], r) == Below(h, t) + 1
      && Rank(r) == 0 && Rank(t) == Factorial(|t|) - 1
  {
    hide Rank, LastLarger, Reverse, Factorial;
    var k := LastLarger(h, t);
    var r := Reverse(t[k := h]);
    NoNext(t);
    DescendingRank(t);
    PivotTail(h, t, k);
    AscendingRank(r);
    PivotBelow(h, t, k);
    ConsDistinct(h, t);
    ConsDistinct(t[k], r);
    assert t[k] in Elements(t);
    assert {t[k]} + Elements(r) == {h} + Elements(t);
  }

  lemma RankCons(h: nat, t: seq<nat>)
    ensures Rank([h] + t) == Below(h, t) * Factorial(|t|) + Rank(t)
  {
    assert ([h] + t)[1..] == t;
  }

  lemma OneMoreBlock(a: nat, f: nat)
    ensures (a + 1) * f == a * f + f
  {
  }

  /** A successor is another order of the same elements, ranked exactly one higher. */
  lemma {:induction false} NextStep(p: seq<nat>)
    requires Distinct(p) && Next(p).Some?
    ensures SameElements(p, Next(p).value)
    ensures Rank(Next(p).value) == Rank(p) + 1
  {
    hide Rank, Factorial, Below, Reverse, LastLarger;
    var h, t := p[0], p[1..];
    Split(p);
    RankCons(h, t);
    if Next(t).Some? {
      var t' := Next(t).value;
      NextStep(t);
      ConsDistinct(h, t');
      RankCons(h, t');
      assert Next(p) == Some([h] + t');
      assert Below(h, t) == Below(h, t') by { SameBelow(h, t, t'); }
    } else {
      NextPivot(h, t);
      var k := LastLarger(h, t);
      var r := Reverse(t[k := h]);
      assert Next(p) == Some([t[k]] + r);
      RankCons(t[k], r);
      OneMoreBlock(Below(h, t), Factorial(|t|));
    }
  }

  lemma SameBelow(h: nat, t: seq<nat>, u: seq<nat>)
    requires Elements(t) == Elements(u)
    ensures Below(h, t) == Below(h, u)
  {
  }

  /** The walk stops exactly at the last order. */
  lemma NextEnd(p: seq<nat>)
    requires Distinct(p)
    ensures Next(p) == None <==> Rank(p) == Factorial(|p|) - 1
  {
    if Next(p) == None {
      NoNext(p);
      DescendingRank(p);
    } else {
      NextStep(p);
      RankBound(Next(p).value);
    }
  }

  // ----- rank is the dictionary order -----

  lemma HeadBelow(p: seq<nat>, q: seq<nat>)
    requires SameElements(p, q) && p != [] && p[0] < q[0]
    ensures Below(p[0], p[1..]) < Below(q[0], q[1..])
  {
    var a := BelowSet(p[0], Elements(p[1..]));
    var b := BelowSet(q[0], Elements(q[1..]));
    Split(p);
    Split(q);
    assert p[0] in Elements(q);
    assert a + {p[0]} <= b;
    Subset(a + {p[0]}, b);
  }

  lemma TailSameElements(p: seq<nat>, q: seq<nat>)
    requires SameElements(p, q) && p != [] && p[0] == q[0]
    ensures SameElements(p[1..], q[1..])
  {
    Split(p);
    Split(q);
    assert Elements(p[1..]) == Elements(p) - {p[0]};
    assert Elements(q[1..]) == Elements(q) - {q[0]};
  }

  lemma {:induction false} LexRank(p: seq<nat>, q: seq<nat>)
    requires SameElements(p, q) && LexLess(p, q)
    ensures Rank(p) < Rank(q)
  {
    Split(p);
    Split(q);
    if p[0] < q[0] {
      HeadBelow(p, q);
      RankBound(p[1..]);
      Scale(Below(p[0], p[1..]), Below(q[0], q[1..]), Factorial(|p| - 1));
    } else {
      TailSameElements(p, q);
      LexRank(p[1..], q[1..]);
    }
  }

  lemma {:induction false} LexTotal(p: seq<nat>, q: seq<nat>)
    requires |p| == |q|
    ensures p == q || LexLess(p, q) || LexLess(q, p)
  {
    if p != [] {
      LexTotal(p[1..], q[1..]);
      assert p == [p[0]] + p[1..] && q == [q[0]] + q[1..];
    }
  }

  /** Rank orders the orders of one set of elements exactly as the dictionary does, and no two
      of them share a rank. */
  lemma RankIsLexOrder(p: seq<nat>, q: seq<nat>)
    requires SameElements(p, q)
    ensures Rank(p) < Rank(q) <==> LexLess(p, q)
    ensures Rank(p) == Rank(q) <==> p == q
  {
    LexTotal(p, q);
    if LexLess(p, q) { LexRank(p, q); }
    if LexLess(q, p) { LexRank(q, p); }
  }

  /** The successor is the least order above `p`: nothing lies strictly between. */
  lemma NextIsLeastAbove(p: seq<nat>, q: seq<nat>)
    requires SameElements(p, q) && LexLess(p, q)
    ensures Next(p).Some? && SameElements(Next(p).value, q)
    ensures q == Next(p).value || LexLess(Next(p).value, q)
  {
    RankIsLexOrder(p, q);
    RankBound(q);
    NextEnd(p);
    NextStep(p);
    RankIsLexOrder(Next(p).value, q);
  }

  /** Rank zero singles out the ascending order, so a walk covers every order exactly when it
      starts from the ascending one. */
  lemma RankZero(p: seq<nat>)
    requires Distinct(p)
    ensures Rank(p) == 0 <==> Ascending(p)
  {
    if Ascending(p) {
      AscendingRank(p);
    } else {
      DescentHasRank(p);
    }
  }

  lemma SomeBelow(h: nat, t: seq<nat>, i: nat)
    requires i < |t| && t[i] < h
    ensures Below(h, t) > 0
  {
    assert t[i] in BelowSet(h, Elements(t));
  }

  lemma HeadRank(p: seq<nat>)
    requires p != []
    ensures Below(p[0], p[1..]) > 0 || Rank(p[1..]) > 0 ==> Rank(p) > 0
  {
    if Below(p[0], p[1..]) > 0 { Scale(0, Below(p[0], p[1..]), Factorial(|p| - 1)); }
  }

  lemma {:induction false} DescentHasRank(p: seq<nat>)
    requires Distinct(p) && !Ascending(p)
    ensures Rank(p) > 0
  {
    hide Rank, Below;
    var t := p[1..];
    if Ascending(t) {
      var i, j :| 0 <= i < j < |p| && p[i] >= p[j];
      assert i == 0;
      assert p[j] == t[j - 1];
      SomeBelow(p[0], t, j - 1);
      HeadRank(p);
    } else {
      DescentHasRank(t);
      HeadRank(p);
    }
  }

  // ----- taking one element out -----

  function Without(s: seq<nat>, k: nat): (r: seq<nat>)
    requires k < |s|
  {
    s[..k] + s[k + 1..]
  }

  lemma WithoutMeans(s: seq<nat>, k: nat)
    requires k < |s| && Distinct(s)
    ensures Distinct(Without(s, k)) && Elements(Without(s, k)) == Elements(s) - {s[k]}
  {
    var r := Without(s, k);
    forall x ensures x in r <==> x in s && x != s[k] {
      if x in s && x != s[k] {
        var i :| 0 <= i < |s| && s[i] == x;
        assert if i < k then r[i] == x else r[i - 1] == x;
      }
    }
  }

  lemma AppendMeans(s: seq<nat>, x: nat)
    requires Distinct(s) && x !in s
    ensures Distinct(s + [x]) && Elements(s + [x]) == Elements(s) + {x}
  {
  }

  lemma Shorter(s: seq<nat>, t: seq<nat>)
    requires Distinct(s) && Distinct(t) && Elements(s) <= Elements(t)
    ensures |s| <= |t|
  {
    DistinctSize(s);
    DistinctSize(t);
    Subset(Elements(s), Elements(t));
  }
}
