/** Blocking-core minimisation: when no safe ordering exists, which enforced obligations are in
    the way?  Obligations are switched off one by one until planning succeeds, then switched back
    on wherever planning still succeeds without them being off. */
module Blocking {
  import opened Permutations

  datatype Outcome = Planned | Failed | Cancelled

  /** The `n`-th planning attempt with exactly these obligations switched off. */
  type Attempts = (set<nat>, nat) -> Outcome

  /** Planning depends on the obligations only, and is never cancelled. */
  ghost predicate Deterministic(attempt: Attempts, plans: set<nat> -> bool) {
    forall off: set<nat>, n: nat :: attempt(off, n) == if plans(off) then Planned else Failed
  }

  /** Among these obligations, switching more of them off never makes planning harder. */
  ghost predicate MonotoneWithin(plans: set<nat> -> bool, all: set<nat>) {
    forall a: set<nat>, b: set<nat> :: a <= b <= all && plans(a) ==> plans(b)
  }

  /** Planning succeeds with all of `core` off and with no proper subset of it off. */
  ghost predicate Irreducible(plans: set<nat> -> bool, core: set<nat>) {
    plans(core) && forall off: set<nat> :: off < core ==> !plans(off)
  }

  /** Some attempt with these obligations off produced a plan. */
  ghost predicate Unblocks(attempt: Attempts, off: set<nat>) {
    exists n: nat :: attempt(off, n) == Planned
  }

  /** The obligations whose single removal the budget allows to be tried. */
  ghost predicate SingleUnblocks(plans: set<nat> -> bool, slots: seq<nat>, tries: int) {
    exists j :: 0 <= j < |slots| && j < tries && plans({slots[j]})
  }

  /** The first pass when planning depends on the obligations alone: `off` is off, the slots before
      `i` have been tried on top of it, and `left` attempts may still be made. */
  ghost function Grow(plans: set<nat> -> bool, slots: seq<nat>, off: seq<nat>, i: nat, left: nat): seq<nat>
    decreases left, |slots| - i
  {
    if left == 0 || i >= |slots| then off
    else if slots[i] in off then Grow(plans, slots, off, i + 1, left)
    else if plans(Elements(off + [slots[i]])) then Grow(plans, slots, off + [slots[i]], 0, left - 1)
    else Grow(plans, slots, off, i + 1, left - 1)
  }

  function Left(budget: nat, attempts: nat): nat { if attempts < budget then budget - attempts else 0 }

  /** What is off stays off. */
  lemma {:induction false} GrowKeeps(plans: set<nat> -> bool, slots: seq<nat>, off: seq<nat>, i: nat, left: nat)
    ensures off <= Grow(plans, slots, off, i, left)
    decreases left, |slots| - i
  {
    if left != 0 && i < |slots| {
      if slots[i] in off {
        GrowKeeps(plans, slots, off, i + 1, left);
      } else {
        GrowKeeps(plans, slots, off, i + 1, left - 1);
        GrowKeeps(plans, slots, off + [slots[i]], 0, left - 1);
      }
    }
  }

  /** Something comes off exactly when switching off a single obligation within the budget helps. */
  lemma {:induction false} GrowFinds(plans: set<nat> -> bool, slots: seq<nat>, i: nat, left: nat)
    requires i <= |slots|
    ensures Grow(plans, slots, [], i, left) != [] <==> SingleUnblocks(plans, slots[i..], left)
    decreases |slots| - i
  {
    if left != 0 && i < |slots| {
      var rest, one := slots[i + 1..], [slots[i]];
      assert slots[i..] == one + rest && [] + one == one && Elements(one) == {slots[i]};
      GrowKeeps(plans, slots, one, 0, left - 1);
      GrowFinds(plans, slots, i + 1, left - 1);
      if j :| 0 <= j < |rest| && j < left - 1 && plans({rest[j]}) { assert slots[i..][j + 1] == rest[j]; }
      if j :| 0 <= j < |slots[i..]| && j < left && plans({slots[i..][j]}) {
        assert j > 0 ==> rest[j - 1] == slots[i..][j];
      }
      assert slots[i..][0] == slots[i];
    }
  }

  /** First pass: keep switching off any one more obligation that leaves planning successful. */
  method SwitchOff(slots: seq<nat>, attempt: Attempts, ghost plans: set<nat> -> bool, used: nat, budget: nat)
    returns (off: seq<nat>, attempts: nat, cancelled: bool)
    requires Distinct(slots)
    ensures Distinct(off) && Elements(off) <= Elements(slots)
    ensures off != [] ==> Unblocks(attempt, Elements(off))
    ensures cancelled ==> !Deterministic(attempt, plans) && off == []
    ensures used <= attempts && (attempts <= budget || (attempts == used && off == []))
    ensures Deterministic(attempt, plans) ==> off == Grow(plans, slots, [], 0, Left(budget, used))
  {
    off, attempts, cancelled := [], used, false;
    var progress := true;
    ghost var grown := Grow(plans, slots, [], 0, Left(budget, used));
    while progress && attempts < budget
      invariant Distinct(off) && Elements(off) <= Elements(slots)
      invariant off != [] ==> Unblocks(attempt, Elements(off))
      invariant used <= attempts && (attempts <= budget || (attempts == used && off == []))
      invariant Deterministic(attempt, plans) && progress ==>
        Grow(plans, slots, off, 0, Left(budget, attempts)) == grown
      invariant Deterministic(attempt, plans) && !progress ==> off == grown
      decreases |slots| - |off|, progress
    {
      progress := false;
      ghost var before := off;
      var i := 0;
      while i < |slots|
        invariant 0 <= i <= |slots| && off == before
        invariant i < |slots| ==> attempts < budget
        invariant used <= attempts && (attempts <= budget || (attempts == used && off == []))
        invariant Deterministic(attempt, plans) ==> Grow(plans, slots, off, i, Left(budget, attempts)) == grown
      {
        if slots[i] !in off {
          var trial := off + [slots[i]];
          AppendMeans(off, slots[i]);
          Shorter(trial, slots);
          var outcome := Try(attempt, trial, attempts);
          attempts := attempts + 1;
          if outcome == Planned {
            off, progress := trial, true;
            break;
          }
          if outcome == Cancelled { return [], attempts, true; }
          if attempts >= budget { break; }
        }
        i := i + 1;
      }
    }
  }

  /** One attempt; the order in which obligations were switched off does not matter to it. */
  method Try(attempt: Attempts, off: seq<nat>, n: nat) returns (outcome: Outcome)
    ensures outcome == attempt(Elements(off), n)
  {
    var switched: set<nat> := {};
    for i := 0 to |off|
      invariant switched == Elements(off[..i])
    {
      assert off[..i + 1] == off[..i] + [off[i]];
      switched := switched + {off[i]};
    }
    assert off[..|off|] == off;
    outcome := attempt(switched, n);
  }

  /** Somewhere between the core and everything that was off, planning fails for want of `x`. */
  ghost predicate NeededSomewhere(plans: set<nat> -> bool, core: set<nat>, all: set<nat>, x: nat) {
    exists off: set<nat> :: core <= off <= all && plans(off) && !plans(off - {x})
  }

  /** The second pass when planning depends on the obligations alone. */
  ghost function Shrink(plans: set<nat> -> bool, off: seq<nat>, index: nat): seq<nat>
    decreases |off|, |off| - index
  {
    if index >= |off| then off
    else if plans(Elements(Without(off, index))) then Shrink(plans, Without(off, index), index)
    else Shrink(plans, off, index + 1)
  }

  /** The second pass keeps a part that unblocks, each member of which was needed when it was
      tried. */
  lemma {:induction false} ShrinkNeeds(plans: set<nat> -> bool, all: set<nat>, off: seq<nat>, index: nat)
    requires Distinct(off) && Elements(off) <= all && plans(Elements(off)) && index <= |off|
    requires forall j :: 0 <= j < index ==> NeededSomewhere(plans, Elements(off), all, off[j])
    ensures var core := Shrink(plans, off, index);
      && Distinct(core) && Elements(core) <= Elements(off) && plans(Elements(core))
      && forall x :: x in core ==> NeededSomewhere(plans, Elements(core), all, x)
    decreases |off|, |off| - index
  {
    if index < |off| {
      var less := Without(off, index);
      WithoutMeans(off, index);
      if plans(Elements(less)) {
        forall j | 0 <= j < index ensures NeededSomewhere(plans, Elements(less), all, less[j]) {
          assert less[j] == off[j];
        }
        ShrinkNeeds(plans, all, less, index);
      } else {
        assert NeededSomewhere(plans, Elements(off), all, off[index]);
        ShrinkNeeds(plans, all, off, index + 1);
      }
    }
  }

  /** Where switching more off never hurts, needed somewhere is needed at the end. */
  lemma NeededThroughout(plans: set<nat> -> bool, core: set<nat>, all: set<nat>)
    requires MonotoneWithin(plans, all) && core <= all && plans(core)
    requires forall x :: x in core ==> NeededSomewhere(plans, core, all, x)
    ensures Irreducible(plans, core)
  {
    forall less: set<nat> | less < core ensures !plans(less) {
      var x :| x in core && x !in less;
      var off: set<nat> :| core <= off <= all && plans(off) && !plans(off - {x});
      assert less <= off - {x} <= all;
    }
  }

  /** The obligations reported when planning depends on the obligations alone. */
  ghost function Core(plans: set<nat> -> bool, slots: seq<nat>, left: nat): seq<nat> {
    Shrink(plans, Grow(plans, slots, [], 0, left), 0)
  }

  /** Planning succeeds with everything off that the first pass switched off. */
  lemma {:induction false} GrowPlans(plans: set<nat> -> bool, slots: seq<nat>, off: seq<nat>, i: nat, left: nat)
    requires Distinct(off) && (off != [] ==> plans(Elements(off)))
    ensures var grown := Grow(plans, slots, off, i, left); Distinct(grown) && (grown != [] ==> plans(Elements(grown)))
    decreases left, |slots| - i
  {
    if left != 0 && i < |slots| {
      if slots[i] in off {
        GrowPlans(plans, slots, off, i + 1, left);
      } else {
        AppendMeans(off, slots[i]);
        if plans(Elements(off + [slots[i]])) {
          GrowPlans(plans, slots, off + [slots[i]], 0, left - 1);
        } else {
          GrowPlans(plans, slots, off, i + 1, left - 1);
        }
      }
    }
  }

  /** What is reported unblocks planning, and each reported obligation was needed beside some of
      those the first pass switched off.  It is irreducible if, among those alone, switching more
      off never hurts. */
  lemma CoreNeeds(plans: set<nat> -> bool, slots: seq<nat>, left: nat)
    requires !plans({})
    ensures var core, grown := Core(plans, slots, left), Elements(Grow(plans, slots, [], 0, left));
      && (core != [] <==> SingleUnblocks(plans, slots, left))
      && (core != [] ==>
            plans(Elements(core)) && forall x :: x in core ==> NeededSomewhere(plans, Elements(core), grown, x))
      && (core != [] && MonotoneWithin(plans, grown) ==> Irreducible(plans, Elements(core)))
  {
    var grown := Grow(plans, slots, [], 0, left);
    GrowFinds(plans, slots, 0, left);
    assert slots[0..] == slots;
    GrowPlans(plans, slots, [], 0, left);
    if grown != [] {
      ShrinkNeeds(plans, Elements(grown), grown, 0);
      var core := Core(plans, slots, left);
      assert core == [] ==> Elements(core) == {};
      if MonotoneWithin(plans, Elements(grown)) { NeededThroughout(plans, Elements(core), Elements(grown)); }
    }
  }

  /** Second pass: switch back on whatever planning does not need off. */
  method SwitchBackOn(start: seq<nat>, attempt: Attempts, ghost plans: set<nat> -> bool, used: nat)
    returns (off: seq<nat>, attempts: nat)
    requires Distinct(start) && Unblocks(attempt, Elements(start))
    ensures Distinct(off) && Elements(off) <= Elements(start) && Unblocks(attempt, Elements(off))
    ensures Deterministic(attempt, plans) ==> off == Shrink(plans, start, 0)
    ensures used <= attempts <= used + |start| && (Deterministic(attempt, plans) ==> attempts == used + |start|)
  {
    off, attempts := start, used;
    var index := 0;
    while index < |off|
      invariant Distinct(off) && Elements(off) <= Elements(start) && Unblocks(attempt, Elements(off))
      invariant index <= |off| && attempts == used + (|start| - |off|) + index
      invariant |off| <= |start|
      invariant Deterministic(attempt, plans) ==> Shrink(plans, off, index) == Shrink(plans, start, 0)
      decreases |off|, |off| - index
    {
      var trial := Without(off, index);
      WithoutMeans(off, index);
      var outcome := Try(attempt, trial, attempts);
      attempts := attempts + 1;
      if outcome == Planned {
        off := trial;
        continue;
      }
      if outcome == Cancelled { return; }
      index := index + 1;
    }
  }

  /** The obligations reported as blocking.  Whatever the attempts answer, the reported ones did
      unblock planning together.  If planning depends on the obligations alone and fails with all
      of them on, something is reported exactly when switching off a single obligation within the
      budget helps; and if, among what the first pass switched off, switching off more never hurts,
      what is reported is irreducible. */
  method MinimiseBlockingCore(slots: seq<nat>, attempt: Attempts, ghost plans: set<nat> -> bool, used: nat, budget: nat)
    returns (core: seq<nat>, attempts: nat)
    requires Distinct(slots)
    ensures used <= attempts && (attempts == used || attempts <= budget + |slots|)
    ensures Distinct(core) && Elements(core) <= Elements(slots)
    ensures core != [] ==> Unblocks(attempt, Elements(core))
    ensures Deterministic(attempt, plans) ==> core == Core(plans, slots, Left(budget, used))
    ensures Deterministic(attempt, plans) && !plans({}) ==>
      (core != [] <==> SingleUnblocks(plans, slots, budget - used))
    ensures Deterministic(attempt, plans) && !plans({}) && core != [] ==>
      MonotoneWithin(plans, Elements(Grow(plans, slots, [], 0, Left(budget, used)))) ==>
        Irreducible(plans, Elements(core))
  {
    hide Grow, Shrink, MonotoneWithin, Irreducible, SingleUnblocks, NeededSomewhere;
    if Deterministic(attempt, plans) && !plans({}) {
      CoreNeeds(plans, slots, Left(budget, used));
      LeftMeans(plans, slots, budget, used);
    }
    core, attempts := [], used;
    if slots == [] {
      NothingToGrow(plans, Left(budget, used));
      return;
    }
    var off, tries, cancelled := SwitchOff(slots, attempt, plans, used, budget);
    attempts := tries;
    if cancelled { return; }
    Shorter(off, slots);
    if off == [] {
      NothingToShrink(plans);
      return;
    }
    core, attempts := SwitchBackOn(off, attempt, plans, attempts);
  }

  lemma LeftMeans(plans: set<nat> -> bool, slots: seq<nat>, budget: nat, used: nat)
    ensures SingleUnblocks(plans, slots, budget - used) <==> SingleUnblocks(plans, slots, Left(budget, used))
  {
  }

  lemma NothingToGrow(plans: set<nat> -> bool, left: nat)
    ensures Core(plans, [], left) == []
  {
  }

  lemma NothingToShrink(plans: set<nat> -> bool)
    ensures Shrink(plans, [], 0) == []
  {
  }
}
