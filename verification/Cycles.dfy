/** When a relation on numbered things has a cycle: exactly when one of its steps back is answered
    by a path forward. */
module Cycles {
  import opened Permutations
  import opened Kahn

  /** A nonempty set each member of which is preceded by a member. */
  ghost predicate Stuck(arrow: (nat, nat) -> bool, t: set<nat>) {
    t != {} && forall x :: x in t ==> Preceded(arrow, t, x)
  }

  ghost predicate Preceded(arrow: (nat, nat) -> bool, t: set<nat>, x: nat) {
    exists y :: y in t && arrow(y, x)
  }

  ghost predicate Path(arrow: (nat, nat) -> bool, p: seq<nat>) {
    p != [] && forall i :: 0 <= i < |p| - 1 ==> arrow(p[i], p[i + 1])
  }

  /** A path that rises overall and whose end leads back to its start. */
  ghost predicate BackCycle(arrow: (nat, nat) -> bool, p: seq<nat>) {
    Path(arrow, p) && p[0] < p[|p| - 1] && arrow(p[|p| - 1], p[0])
  }

  lemma Alone(arrow: (nat, nat) -> bool, x: nat)
    ensures Path(arrow, [x])
  {
  }

  lemma PathCons(arrow: (nat, nat) -> bool, y: nat, q: seq<nat>)
    requires Path(arrow, q) && arrow(y, q[0])
    ensures Path(arrow, [y] + q)
  {
    var p := [y] + q;
    forall i | 0 <= i < |p| - 1 ensures arrow(p[i], p[i + 1]) {
      if i > 0 { assert arrow(q[i - 1], q[i - 1 + 1]); }
    }
  }

  lemma PathSlice(arrow: (nat, nat) -> bool, p: seq<nat>, i: nat, j: nat)
    requires Path(arrow, p) && i < j <= |p|
    ensures Path(arrow, p[i..j])
  {
    var c := p[i..j];
    forall m | 0 <= m < |c| - 1 ensures arrow(c[m], c[m + 1]) { assert arrow(p[i + m], p[i + m + 1]); }
  }

  lemma PathSteps(arrow: (nat, nat) -> bool, p: seq<nat>)
    requires Path(arrow, p) && forall x: nat, y: nat :: arrow(x, y) ==> x != y
    ensures forall i :: 0 <= i < |p| - 1 ==> p[i] != p[i + 1]
  {
  }

  lemma StepBack(arrow: (nat, nat) -> bool, t: set<nat>, x: nat) returns (y: nat)
    requires Stuck(arrow, t) && x in t
    ensures y in t && arrow(y, x)
  {
    assert Preceded(arrow, t, x);
    y :| y in t && arrow(y, x);
  }

  /** In a stuck set one can go backwards for ever. */
  lemma {:induction false} BackWalk(arrow: (nat, nat) -> bool, t: set<nat>, k: nat) returns (p: seq<nat>)
    requires Stuck(arrow, t)
    ensures Path(arrow, p) && |p| == k + 1 && forall i :: 0 <= i < |p| ==> p[i] in t
  {
    hide Path, Preceded;
    if k == 0 {
      var x :| x in t;
      p := [x];
      assert Path(arrow, [x]) by { Alone(arrow, x); }
    } else {
      var q := BackWalk(arrow, t, k - 1);
      var y := StepBack(arrow, t, q[0]);
      p := [y] + q;
      PathCons(arrow, y, q);
    }
  }

  lemma Repeats(p: seq<nat>, t: set<nat>) returns (i: nat, j: nat)
    requires |p| > |t| && forall k :: 0 <= k < |p| ==> p[k] in t
    ensures i < j < |p| && p[i] == p[j]
  {
    if Distinct(p) {
      DistinctSize(p);
      Subset(Elements(p), t);
    }
    i, j :| 0 <= i < j < |p| && p[i] == p[j];
  }

  /** A walk back to its start steps down somewhere. */
  lemma {:induction false} StepsDown(p: seq<nat>, n: nat) returns (k: nat)
    requires n < |p| && p[n] <= p[0] && n > 0
    requires forall i :: 0 <= i < |p| - 1 ==> p[i] != p[i + 1]
    ensures k < n && p[k] > p[k + 1]
  {
    if p[n - 1] > p[n] {
      k := n - 1;
    } else {
      k := StepsDown(p, n - 1);
    }
  }

  /** A closed walk, started just after one of its steps down. */
  lemma Rotated(arrow: (nat, nat) -> bool, p: seq<nat>, k: nat) returns (q: seq<nat>)
    requires Path(arrow, p) && k < |p| - 1 && p[0] == p[|p| - 1] && p[k] > p[k + 1]
    ensures BackCycle(arrow, q)
  {
    var n := |p| - 1;
    q := p[k + 1..] + p[1..k + 1];
    assert q[0] == p[k + 1];
    assert q[|q| - 1] == p[k];
    forall i | 0 <= i < |q| - 1 ensures arrow(q[i], q[i + 1]) {
      var m := n - k;
      if i < m - 1 {
        assert q[i] == p[k + 1 + i] && q[i + 1] == p[k + 2 + i];
      } else {
        assert q[i + 1] == p[i + 2 - m];
        assert q[i] == p[i + 1 - m];
      }
    }
  }

  lemma CycleIsStuck(arrow: (nat, nat) -> bool, p: seq<nat>)
    requires BackCycle(arrow, p)
    ensures Stuck(arrow, Elements(p))
  {
    var t := Elements(p);
    assert p[0] in t;
    forall x | x in t ensures Preceded(arrow, t, x) {
      var i :| 0 <= i < |p| && p[i] == x;
      var y := if i == 0 then p[|p| - 1] else p[i - 1];
      assert y in t && arrow(y, x);
    }
  }

  lemma Member(arrow: (nat, nat) -> bool, t: set<nat>) returns (x: nat)
    requires Stuck(arrow, t)
    ensures x in t
  {
    x :| x in t;
  }

  /** Where the relation never leads down in some measure, what is stuck is stuck at one height. */
  lemma Layer(arrow: (nat, nat) -> bool, t: set<nat>, height: nat -> nat) returns (u: set<nat>, h: nat)
    requires Stuck(arrow, t) && forall y, x :: y in t && x in t && arrow(y, x) ==> height(y) <= height(x)
    ensures Stuck(arrow, u) && u <= t && forall x :: x in u ==> height(x) == h
  {
    hide Stuck, Preceded;
    var x0 := Member(arrow, t);
    var least := Lowest(t, height);
    h := height(least);
    u := set x | x in t && height(x) == h;
    forall x | x in u ensures Preceded(arrow, u, x) {
      var y := StepBack(arrow, t, x);
      Precedes(arrow, u, y, x);
    }
    IsStuck(arrow, u, least);
  }

  lemma IsStuck(arrow: (nat, nat) -> bool, u: set<nat>, x: nat)
    requires x in u && forall x :: x in u ==> Preceded(arrow, u, x)
    ensures Stuck(arrow, u)
  {
  }

  lemma Precedes(arrow: (nat, nat) -> bool, t: set<nat>, y: nat, x: nat)
    requires y in t && arrow(y, x)
    ensures Preceded(arrow, t, x)
  {
  }

  lemma ThreeStuck(arrow: (nat, nat) -> bool, x: nat, y: nat, z: nat)
    requires arrow(x, y) && arrow(y, z) && arrow(z, x)
    ensures Stuck(arrow, {x, y, z})
  {
    var t := {x, y, z};
    Precedes(arrow, t, x, y);
    Precedes(arrow, t, y, z);
    Precedes(arrow, t, z, x);
  }

  lemma FourStuck(arrow: (nat, nat) -> bool, x: nat, y: nat, z: nat, w: nat)
    requires arrow(x, y) && arrow(y, z) && arrow(z, w) && arrow(w, x)
    ensures Stuck(arrow, {x, y, z, w})
  {
    var t := {x, y, z, w};
    Precedes(arrow, t, x, y);
    Precedes(arrow, t, y, z);
    Precedes(arrow, t, z, w);
    Precedes(arrow, t, w, x);
  }

  /** Something is stuck if and only if some pair of the relation that goes back, from a higher
      number to a lower, is answered by a path from the lower to the higher. */
  lemma StuckIffBackCycle(arrow: (nat, nat) -> bool)
    requires forall x: nat, y: nat :: arrow(x, y) ==> x != y
    ensures (exists t :: Stuck(arrow, t)) <==> exists p :: BackCycle(arrow, p)
  {
    hide Path, BackCycle, Stuck;
    if t :| Stuck(arrow, t) {
      var p := BackWalk(arrow, t, |t|);
      var i, j := Repeats(p, t);
      var c := p[i..j + 1];
      PathSlice(arrow, p, i, j + 1);
      PathSteps(arrow, c);
      var k := StepsDown(c, |c| - 1);
      var q := Rotated(arrow, c, k);
    }
    if p :| BackCycle(arrow, p) { CycleIsStuck(arrow, p); }
  }
}
