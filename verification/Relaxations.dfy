/** Planning once more with some obligations switched off, as the search for the blocking ones does. */
module Relaxations {
  import opened Wrappers
  import opened Permutations
  import opened Plans
  import opened Schedule
  import opened Generate
  import opened Planner
  import B = Blocking
  import opened Snapshots
  import opened Operations
  import opened Conditions
  import opened Eligibility
  import opened Derivation
  import opened Networks
  import opened Obligations

  /** The attempt made for one choice of obligations: a single candidate, and success is all that
      matters.  `trial` gives the request with these obligations switched off. */
  method AttemptWithout<S(==, !new), O(==, !new), C(!new)>(trial: set<nat> -> PlanRequest<S, O, C>, off: set<nat>,
                                                           instant: int, stop: nat -> bool, d: Diagnostics,
                                                           digest: Plan<O, C> -> nat)
    returns (planned: bool, ghost r: Result<Plan<O, C>, Refusal>, ghost made: Record<S, O, C>)
    requires var req := trial(off); 0 < req.limits.maxStageWidth && req.id != 0 && BindingOk(req.base.binding)
    modifies d
    ensures planned <==> r.Ok?
    ensures Startable(trial(off), instant) ==> Decided(trial(off), instant, 1, r, made)
    ensures planned ==> Startable(trial(off), instant) || trial(off).derive(instant) == Some([])
    ensures planned ==> exists plan :: Sound(plan, trial(off)) && plan.instant == instant
    ensures var req := trial(off);
      planned ==> req.derive(instant) == Some([]) || (req.derive(instant).Some? && SomeSearchSucceeds(req, instant))
    ensures trial(off).derive(instant) == Some([]) ==> (planned <==> StartsSafe(trial(off), instant))
  {
    hide Sound, SomeSearchSucceeds, Decided;
    var found, rejected, record := RunAttempt(trial(off), instant, 1, stop, d, digest);
    planned, r, made := found.Ok?, found, record;
  }

  /** What an attempt asks for when there is nothing to do. */
  ghost predicate StartsSafe<S, O, C>(req: PlanRequest<S, O, C>, instant: int) {
    req.capable([]) && !req.base.worldAt(instant).violated(req.base.state)
  }

  function Nothing(): Target { Target(map[], map[], map[], map[], map[], map[]) }

  /** The requests ask for nothing to be changed in `s`, under the obligations that are not off. */
  ghost predicate Holding(trial: set<nat> -> PlanRequest<Snapshot, Operation, Condition>, instant: int, change: Change,
                          items: seq<Item>, broken: (nat, Snapshot) -> bool, s: Snapshot) {
    change.target == Nothing() &&
    forall off: set<nat> :: HoldingWithout(trial(off), instant, change, items, broken, off, s)
  }

  ghost predicate HoldingWithout(req: PlanRequest<Snapshot, Operation, Condition>, instant: int, change: Change,
                                 items: seq<Item>, broken: (nat, Snapshot) -> bool, off: set<nat>, s: Snapshot) {
    && PlansFor(req, instant, change, []) && req.capable([]) && req.base.state == s
    && (req.base.worldAt(instant).violated(s) <==> Breaks(items, broken, off, s))
  }

  ghost function Attempts<S, O, C>(trial: set<nat> -> PlanRequest<S, O, C>, instant: int): set<nat> -> bool {
    off => StartsSafe(trial(off), instant)
  }

  ghost function Slots(items: seq<Item>): set<nat> { set i {:trigger items[i]} | 0 <= i < |items| }

  ghost function Allowing(items: seq<Item>, broken: (nat, Snapshot) -> bool, s: Snapshot): set<nat> -> bool {
    off => !Breaks(items, broken, off, s)
  }

  ghost predicate AlwaysMonotone(items: seq<Item>, broken: (nat, Snapshot) -> bool) {
    forall s :: B.MonotoneWithin(Allowing(items, broken, s), Slots(items))
  }

  /** Switching off more never hurts, whatever the snapshot, if and only if no headroom obligation asks
      for more than one listed before it. */
  lemma MonotoneIffRelaxing(items: seq<Item>, broken: (nat, Snapshot) -> bool)
    requires forall i :: 0 <= i < |items| && items[i].Headroom? ==> items[i].permille <= 1000
    ensures AlwaysMonotone(items, broken) <==> Relaxing(items)
  {
    hide Breaks, Loaded;
    if Relaxing(items) {
      forall s ensures B.MonotoneWithin(Allowing(items, broken, s), Slots(items)) {
        RelaxingIsMonotone(items, broken, Slots(items), s);
      }
    } else {
      var i, j :| 0 <= i < j < |items| && items[i].Headroom? && items[j].Headroom?
        && items[i].permille < items[j].permille;
      var only, s := Slots(items) - {i, j}, Loaded(1000 - items[i].permille);
      StricterBehind(items, broken, i, j);
      var plans := Allowing(items, broken, s);
      assert only <= only + {i} <= Slots(items) && plans(only) && !plans(only + {i});
      assert !B.MonotoneWithin(plans, Slots(items));
    }
  }

  lemma RelaxingIsMonotone(items: seq<Item>, broken: (nat, Snapshot) -> bool, all: set<nat>, s: Snapshot)
    requires Relaxing(items)
    ensures B.MonotoneWithin(Allowing(items, broken, s), all)
  {
    hide Breaks;
    forall a: set<nat>, b: set<nat> | a <= b <= all && !Breaks(items, broken, a, s)
      ensures !Breaks(items, broken, b, s)
    {
      if Breaks(items, broken, b, s) { BreaksLess(items, broken, a, b, s); }
    }
  }

  /** Two headroom obligations alone, the stricter behind: as much load as the first allows is too much
      once the first is off. */
  lemma StricterBehind(items: seq<Item>, broken: (nat, Snapshot) -> bool, i: nat, j: nat)
    requires i < j < |items| && items[i].Headroom? && items[j].Headroom?
    requires items[i].permille < items[j].permille <= 1000
    ensures var only, s := Slots(items) - {i, j}, Loaded(1000 - items[i].permille);
      !Breaks(items, broken, only, s) && Breaks(items, broken, only + {i}, s)
  {
    hide OverCommitted, Loaded;
    var only := Slots(items) - {i, j};
    OnlyThese(items, only, i, 0);
    OnlyThese(items, only + {i}, j, 0);
    LoadedOver(1000 - items[i].permille, items[i].permille);
    LoadedOver(1000 - items[i].permille, items[j].permille);
  }

  lemma {:induction false} OnlyThese(items: seq<Item>, off: set<nat>, i: nat, from: nat)
    requires from <= i < |items| && items[i].Headroom? && i !in off && forall k :: from <= k < i ==> k in off
    ensures FirstHeadroom(items, off, from) == Some(items[i].permille)
    decreases i - from
  {
    if from < i { OnlyThese(items, off, i, from + 1); }
  }

  /** So when no headroom obligation asks for more than one listed before it, and nothing is to be done,
      what is reported is irreducible. */
  lemma RelaxingIsIrreducible(trial: set<nat> -> PlanRequest<Snapshot, Operation, Condition>, instant: int,
                              change: Change, items: seq<Item>, broken: (nat, Snapshot) -> bool, s: Snapshot,
                              slots: seq<nat>, left: nat)
    requires Holding(trial, instant, change, items, broken, s) && Relaxing(items)
    requires Breaks(items, broken, {}, s)
    ensures var plans := Attempts(trial, instant); var core := B.Core(plans, slots, left);
      core != [] ==> B.Irreducible(plans, Elements(core))
  {
    hide Breaks, PlansFor, Relaxing;
    var plans := Attempts(trial, instant);
    AttemptsAnswer(trial, instant, change, items, broken, s);
    var all := Elements(B.Grow(plans, slots, [], 0, left));
    RelaxingIsMonotone(items, broken, all, s);
    assert B.MonotoneWithin(plans, all);
    B.CoreNeeds(plans, slots, left);
  }

  lemma AttemptsAnswer(trial: set<nat> -> PlanRequest<Snapshot, Operation, Condition>, instant: int, change: Change,
                       items: seq<Item>, broken: (nat, Snapshot) -> bool, s: Snapshot)
    requires Holding(trial, instant, change, items, broken, s)
    ensures forall off: set<nat> :: Attempts(trial, instant)(off) <==> !Breaks(items, broken, off, s)
  {
    hide Breaks, PlansFor;
    forall off: set<nat> ensures Attempts(trial, instant)(off) <==> !Breaks(items, broken, off, s) {
      assert HoldingWithout(trial(off), instant, change, items, broken, off, s);
    }
  }

  // ----- a core that is not irreducible -----

  /** Requests that ask for nothing to be changed can be made. */
  ghost function Asking(given: PlanRequest<Snapshot, Operation, Condition>, change: Change, items: seq<Item>,
                        broken: (nat, Snapshot) -> bool, s: Snapshot)
    : set<nat> -> PlanRequest<Snapshot, Operation, Condition>
  {
    (off: set<nat>) =>
      given.(base := given.base.(
               state := s, worldAt := _ => NetworkWorld(change.ctx, u => Breaks(items, broken, off, u), _ => 1)),
             derive := _ => Some([]), dependencies := (_, _) => [], capable := _ => true)
  }

  lemma CanBeAsked(given: PlanRequest<Snapshot, Operation, Condition>, instant: int, change: Change, items: seq<Item>,
                   broken: (nat, Snapshot) -> bool, s: Snapshot)
    requires change.target == Nothing()
    ensures Holding(Asking(given, change, items, broken, s), instant, change, items, broken, s)
  {
    hide Breaks;
    assert Entries(Nothing()) == {};
    assert Derives(change.ctx, s, Nothing(), change.naming, []);
    forall off: set<nat>
      ensures HoldingWithout(Asking(given, change, items, broken, s)(off), instant, change, items, broken, off, s)
    {
    }
  }

  // ----- a core that is not irreducible -----

  /** A workload asks for connectivity and has no eligible route. */
  ghost predicate Disconnected(s: Snapshot) {
    exists id :: id in s.workloads && s.workloads[id].requirements.connectivity
      && EligibleAmong(s, s.workloads[id], s.workloads[id].bindings) == []
  }

  /** Connectivity, no headroom, and then half of every capacity. */
  function Strict(): seq<Item> { [Other(0), Headroom(0), Headroom(500)] }

  ghost function OnlyConnectivity(): (nat, Snapshot) -> bool { (kind, s) => Disconnected(s) }

  lemma StrictAnswers(off: set<nat>)
    ensures Breaks(Strict(), OnlyConnectivity(), off, Loaded(600)) <==> 0 !in off || (1 in off && 2 !in off)
  {
    hide OverCommitted, Disconnected, Loaded;
    LoadedIsDisconnected(600);
    LoadedOver(600, 0);
    LoadedOver(600, 500);
    var items, s := Strict(), Loaded(600);
    assert items[0].Other? && OnlyConnectivity()(items[0].kind, s);
    assert FirstHeadroom(items, off, 3) == None;
    assert FirstHeadroom(items, off, 2) == if 2 !in off then Some(500) else None;
    assert FirstHeadroom(items, off, 0) == FirstHeadroom(items, off, 1);
  }

  lemma LoadedIsDisconnected(load: nat)
    ensures Disconnected(Loaded(load))
  {
    assert EligibleAmong(Loaded(load), Loaded(load).workloads[2], []) == [];
  }

  /** A stricter headroom obligation listed behind another makes a core that is not irreducible: with
      connectivity off planning succeeds, and yet the last obligation is reported as well. */
  lemma CoreCanBeReducible(trial: set<nat> -> PlanRequest<Snapshot, Operation, Condition>, instant: int, change: Change,
                           left: nat)
    requires Holding(trial, instant, change, Strict(), OnlyConnectivity(), Loaded(600)) && left >= 4
    ensures var plans := Attempts(trial, instant);
      && !plans({}) && plans({0}) && !plans({0, 1})
      && B.Core(plans, [0, 1, 2], left) == [0, 2] && !B.Irreducible(plans, Elements([0, 2]))
  {
    hide Breaks, PlansFor, Loaded, Attempts;
    var plans := Attempts(trial, instant);
    AttemptsAnswer(trial, instant, change, Strict(), OnlyConnectivity(), Loaded(600));
    forall off: set<nat> ensures plans(off) <==> 0 in off && !(1 in off && 2 !in off) { StrictAnswers(off); }
    StrictCore(plans, left);
  }

  lemma StrictSets()
    ensures var a: seq<nat>, ab: seq<nat>, ac: seq<nat> := [0], [0, 1], [0, 2];
      var acb: seq<nat>, cb: seq<nat> := [0, 2, 1], [2, 1];
      && Elements(a) == {0} && Elements(ab) == {0, 1} && Elements(ac) == {0, 2} && Elements(acb) == {0, 1, 2}
      && Elements(cb) == {1, 2} && [] + [0 as nat] == a && a + [1] == ab && a + [2] == ac && ac + [1] == acb
      && Without(acb, 0) == cb && Without(acb, 1) == ab && Without(acb, 2) == ac && Elements(Without(ac, 0)) == {2}
      && Without(ac, 1) == a
  {
    var ac: seq<nat>, c: seq<nat> := [0, 2], [2];
    assert Without(ac, 0) == c;
  }

  lemma StrictGrowth(plans: set<nat> -> bool, left: nat)
    requires (forall off: set<nat> :: plans(off) <==> 0 in off && !(1 in off && 2 !in off)) && left >= 4
    ensures B.Grow(plans, [0, 1, 2], [], 0, left) == [0, 2, 1]
  {
    hide Elements, Without;
    StrictSets();
    var slots: seq<nat>, a: seq<nat>, ac: seq<nat>, acb: seq<nat> := [0, 1, 2], [0], [0, 2], [0, 2, 1];
    assert B.Grow(plans, slots, acb, 3, left - 4) == B.Grow(plans, slots, acb, 2, left - 4) == acb;
    assert B.Grow(plans, slots, acb, 1, left - 4) == B.Grow(plans, slots, acb, 0, left - 4) == acb;
    assert B.Grow(plans, slots, ac, 0, left - 3) == B.Grow(plans, slots, ac, 1, left - 3) == acb;
    assert B.Grow(plans, slots, a, 0, left - 1) == B.Grow(plans, slots, a, 1, left - 1);
    assert B.Grow(plans, slots, a, 1, left - 1) == B.Grow(plans, slots, a, 2, left - 2) == acb;
  }

  lemma StrictCore(plans: set<nat> -> bool, left: nat)
    requires (forall off: set<nat> :: plans(off) <==> 0 in off && !(1 in off && 2 !in off)) && left >= 4
    ensures B.Core(plans, [0, 1, 2], left) == [0, 2] && !B.Irreducible(plans, Elements([0, 2]))
  {
    hide Elements, Without, B.Grow;
    StrictSets();
    StrictGrowth(plans, left);
    var ac: seq<nat>, acb: seq<nat> := [0, 2], [0, 2, 1];
    assert B.Shrink(plans, acb, 2) == B.Shrink(plans, ac, 2) == ac;
    assert B.Shrink(plans, acb, 0) == B.Shrink(plans, acb, 1) == ac;
    assert plans({0}) && {0 as nat} < {0, 2};
  }
}
