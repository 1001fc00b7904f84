/** Operations that dependency derivation leaves unlinked commute: however a set of pairwise
    unlinked operations is ordered, every order that is accepted ends in the same snapshot. */
module Commutation {
  import opened Wrappers
  import opened Permutations
  import opened Sorting
  import opened Worlds
  import opened Verification
  import opened ScheduleProperties
  import opened Snapshots
  import opened Operations
  import opened Evaluate
  import opened Dependencies

  /** Both operations write the same entity, and not merely different fields of it. */
  predicate Clash(a: Operation, b: Operation) {
    WriteRef(a) == WriteRef(b) && !IndependentFields(a, b)
  }

  lemma UnlinkedDoNotClash(s: Snapshot, contracts: seq<Contract>, a: Operation, b: Operation)
    requires !Linked(s, contracts, a, b)
    ensures !Clash(a, b)
  {
  }

  // ----- normalising between two steps makes no difference -----

  lemma DevicesAbsorb(m: map<Id, Device>, op: Operation)
    ensures CanonicalDevices(StepDevices(CanonicalDevices(m), op)) == CanonicalDevices(StepDevices(m, op))
  {
    hide SortWindows;
    var c := CanonicalDevices(m);
    forall id | id in m ensures CanonicalDevice(c[id]) == c[id] { CanonicalDeviceTwice(m[id]); }
    if AreaOf(op.kind) == Devices && op.device in m { NextDeviceAbsorbs(op, m[op.device]); }
  }

  lemma NextDeviceAbsorbs(op: Operation, d: Device)
    ensures var x, y := NextDevice(op, Some(CanonicalDevice(d))), NextDevice(op, Some(d));
      x.Some? && y.Some? && CanonicalDevice(x.value) == CanonicalDevice(y.value)
  {
    hide SortWindows;
    SortWindowsTwice(d.exclusions);
    SortWindowsTwice(d.maintenance);
  }

  lemma LinksAbsorb(m: map<Id, Link>, op: Operation)
    ensures CanonicalLinks(StepLinks(CanonicalLinks(m), op)) == CanonicalLinks(StepLinks(m, op))
  {
    hide SortUnique;
    var c := CanonicalLinks(m);
    forall id | id in m ensures CanonicalLink(c[id]) == c[id] { CanonicalLinkTwice(m[id]); }
  }

  lemma WorkloadsAbsorb(m: map<Id, Workload>, op: Operation)
    ensures CanonicalWorkloads(StepWorkloads(CanonicalWorkloads(m), op)) == CanonicalWorkloads(StepWorkloads(m, op))
  {
    hide SortUnique, SortBindings;
    var c := CanonicalWorkloads(m);
    forall id | id in m ensures CanonicalWorkload(c[id]) == c[id] { CanonicalWorkloadTwice(m[id]); }
    if AreaOf(op.kind) == Workloads && op.workload in m { NextWorkloadAbsorbs(op, m[op.workload]); }
  }

  lemma NextWorkloadAbsorbs(op: Operation, w: Workload)
    ensures var x, y := NextWorkload(op, Some(CanonicalWorkload(w))), NextWorkload(op, Some(w));
      x.Some? == y.Some? && (x.Some? ==> CanonicalWorkload(x.value) == CanonicalWorkload(y.value))
  {
    hide SortBindings, SortUnique;
    CanonicalWorkloadTwice(w);
  }

  /** Normalising the snapshot first does not change where an operation leads. */
  lemma EffectAbsorbs(s: Snapshot, op: Operation)
    ensures Effect(Canonical(s), op) == Effect(s, op)
  {
    hide CanonicalDevices, CanonicalLinks, CanonicalWorkloads, StepDevices, StepLinks, StepWorkloads;
    DevicesAbsorb(s.devices, op);
    LinksAbsorb(s.links, op);
    WorkloadsAbsorb(s.workloads, op);
  }

  // ----- unnormalised steps commute -----

  lemma DevicesCommute(m: map<Id, Device>, a: Operation, b: Operation)
    requires !Clash(a, b)
    ensures StepDevices(StepDevices(m, a), b) == StepDevices(StepDevices(m, b), a)
  {
    if AreaOf(a.kind) == Devices && AreaOf(b.kind) == Devices && a.device == b.device {
      assert IndependentFields(a, b);
    }
  }

  lemma LinksCommute(m: map<Id, Link>, a: Operation, b: Operation)
    requires !Clash(a, b)
    ensures StepLinks(StepLinks(m, a), b) == StepLinks(StepLinks(m, b), a)
  {
  }

  lemma RoutesCommute(m: map<Id, Route>, a: Operation, b: Operation)
    requires !Clash(a, b)
    ensures StepRoutes(StepRoutes(m, a), b) == StepRoutes(StepRoutes(m, b), a)
  {
    if AreaOf(a.kind) == Routes && AreaOf(b.kind) == Routes && a.route == b.route {
      assert IndependentFields(a, b);
    }
  }

  lemma WorkloadsCommute(m: map<Id, Workload>, a: Operation, b: Operation)
    requires !Clash(a, b)
    ensures StepWorkloads(StepWorkloads(m, a), b) == StepWorkloads(StepWorkloads(m, b), a)
  {
    if AreaOf(a.kind) == Workloads && AreaOf(b.kind) == Workloads && a.workload == b.workload {
      assert IndependentFields(a, b);
    }
  }

  lemma PoliciesCommute(m: map<Id, Policy>, a: Operation, b: Operation)
    requires !Clash(a, b)
    ensures StepPolicies(StepPolicies(m, a), b) == StepPolicies(StepPolicies(m, b), a)
  {
  }

  lemma ConfigsCommute(m: map<(Id, Id), Config>, a: Operation, b: Operation)
    requires !Clash(a, b)
    ensures StepConfigs(StepConfigs(m, a), b) == StepConfigs(StepConfigs(m, b), a)
  {
  }

  lemma MutateCommutes(s: Snapshot, a: Operation, b: Operation)
    requires !Clash(a, b)
    ensures Mutate(Mutate(s, a), b) == Mutate(Mutate(s, b), a)
  {
    hide StepDevices, StepLinks, StepRoutes, StepWorkloads, StepPolicies, StepConfigs, Clash;
    DevicesCommute(s.devices, a, b);
    LinksCommute(s.links, a, b);
    RoutesCommute(s.routes, a, b);
    WorkloadsCommute(s.workloads, a, b);
    PoliciesCommute(s.policies, a, b);
    ConfigsCommute(s.configs, a, b);
  }

  /** The effects of two operations that do not clash commute, on every snapshot. */
  lemma EffectsCommute(s: Snapshot, a: Operation, b: Operation)
    requires !Clash(a, b)
    ensures Effect(Effect(s, a), b) == Effect(Effect(s, b), a)
  {
    hide Mutate, Canonical, Clash;
    EffectAbsorbs(Mutate(s, a), b);
    EffectAbsorbs(Mutate(s, b), a);
    MutateCommutes(s, a, b);
  }

  // ----- whole orders -----

  function EffectAll(s: Snapshot, ops: seq<Operation>, order: seq<nat>): Snapshot
    requires forall i :: 0 <= i < |order| ==> order[i] < |ops|
    decreases |order|
  {
    if order == [] then s else EffectAll(Effect(s, ops[order[0]]), ops, order[1..])
  }

  ghost predicate NoClash(ops: seq<Operation>) {
    forall i, j :: 0 <= i < |ops| && 0 <= j < |ops| && i != j ==> !Clash(ops[i], ops[j])
  }

  /** An operation may as well be done first. */
  lemma {:induction false} DoFirst(s: Snapshot, ops: seq<Operation>, p: seq<nat>, k: nat)
    requires NoClash(ops) && Distinct(p) && k < |p| && forall i :: 0 <= i < |p| ==> p[i] < |ops|
    ensures EffectAll(s, ops, p) == EffectAll(Effect(s, ops[p[k]]), ops, Without(p, k))
    decreases k
  {
    hide Effect, Clash;
    if k == 0 {
      assert Without(p, 0) == p[1..];
    } else {
      var first, picked := ops[p[0]], ops[p[k]];
      DoFirst(Effect(s, first), ops, p[1..], k - 1);
      EffectsCommute(s, first, picked);
      assert Without(p, k)[0] == p[0] && Without(p, k)[1..] == Without(p[1..], k - 1);
    }
  }

  /** The order does not matter. */
  lemma {:induction false} AnyOrder(s: Snapshot, ops: seq<Operation>, p: seq<nat>, q: seq<nat>)
    requires NoClash(ops) && SameElements(p, q)
    requires forall i :: 0 <= i < |p| ==> p[i] < |ops|
    requires forall i :: 0 <= i < |q| ==> q[i] < |ops|
    ensures EffectAll(s, ops, p) == EffectAll(s, ops, q)
    decreases |p|
  {
    hide Effect, NoClash;
    if q != [] {
      assert q[0] in Elements(q);
      var k :| 0 <= k < |p| && p[k] == q[0];
      DoFirst(s, ops, p, k);
      WithoutMeans(p, k);
      Split(q);
      AnyOrder(Effect(s, ops[q[0]]), ops, Without(p, k), q[1..]);
    }
  }

  // ----- worlds that apply operations this way -----

  ghost predicate Applies<C>(w: World<Snapshot, Operation, C>, ctx: Context) {
    forall s, op :: w.apply(s, op) == match Apply(ctx, s, op) case Ok(t) => Some(t) case Err(_) => None
  }

  lemma {:induction false} ReplayIsEffect<C>(w: World<Snapshot, Operation, C>, ctx: Context, s: Snapshot,
                                            ops: seq<Operation>, order: seq<nat>)
    requires Applies(w, ctx) && forall i :: 0 <= i < |order| ==> order[i] < |ops|
    requires Replay(w, s, Pick(ops, order)).Some?
    ensures Replay(w, s, Pick(ops, order)).value == EffectAll(s, ops, order)
    decreases |order|
  {
    hide Effect, Objection;
    if order != [] {
      assert Pick(ops, order)[1..] == Pick(ops, order[1..]);
      ReplayIsEffect(w, ctx, Effect(s, ops[order[0]]), ops, order[1..]);
    }
  }

  /** Pairwise unlinked, as judged in the snapshot planning starts from. */
  ghost predicate PairwiseUnlinked(s0: Snapshot, contracts: seq<Contract>, ops: seq<Operation>) {
    forall i, j :: 0 <= i < j < |ops| ==> !Linked(s0, contracts, ops[i], ops[j])
  }

  lemma UnlinkedNoClash(s0: Snapshot, contracts: seq<Contract>, ops: seq<Operation>)
    requires PairwiseUnlinked(s0, contracts, ops)
    ensures NoClash(ops)
  {
    hide Clash, Linked;
    forall i, j | 0 <= i < |ops| && 0 <= j < |ops| && i != j ensures !Clash(ops[i], ops[j]) {
      LinkedIsSymmetric(s0, contracts, ops[i], ops[j]);
      UnlinkedDoNotClash(s0, contracts, ops[i], ops[j]);
    }
  }

  /** Any two orders of pairwise unlinked operations that are both accepted end in equal
      snapshots, from whatever snapshot they start. */
  lemma UnlinkedIsOrderFree<C>(w: World<Snapshot, Operation, C>, ctx: Context, s0: Snapshot, contracts: seq<Contract>,
                               ops: seq<Operation>)
    requires Applies(w, ctx) && PairwiseUnlinked(s0, contracts, ops)
    ensures OrderFree(w, ops)
  {
    hide Applies, PairwiseUnlinked, NoClash, Effect;
    UnlinkedNoClash(s0, contracts, ops);
    forall s: Snapshot, p, q | IsOrder(p, |ops|) && IsOrder(q, |ops|) ensures SameEnd(w, s, ops, p, q) {
      OrderInRange(p, |ops|);
      OrderInRange(q, |ops|);
      if Replay(w, s, Pick(ops, p)).Some? && Replay(w, s, Pick(ops, q)).Some? {
        ReplayIsEffect(w, ctx, s, ops, p);
        ReplayIsEffect(w, ctx, s, ops, q);
        assert SameElements(p, q);
        AnyOrder(s, ops, p, q);
      }
    }
  }

  /** So no stage made of pairwise unlinked operations is ever found to depend on the order:
      the verifier's answer "not order independent" is unreachable for it. */
  lemma UnlinkedNeverDiverges<C>(w: World<Snapshot, Operation, C>, ctx: Context, s0: Snapshot, contracts: seq<Contract>,
                                 acts: seq<Action<Operation, C>>, s: Snapshot)
    requires Applies(w, ctx) && PairwiseUnlinked(s0, contracts, Ops(acts))
    ensures !Diverges(w, s, acts)
  {
    hide Applies, PairwiseUnlinked, OrderFree;
    UnlinkedIsOrderFree(w, ctx, s0, contracts, Ops(acts));
    forall p, q | Differ(w, s, acts, p, q) ensures false {
      OrderInRange(p, |acts|);
      OrderInRange(q, |acts|);
      RunReplays(w, s, Pick(acts, p));
      RunReplays(w, s, Pick(acts, q));
      assert Ops(Pick(acts, p)) == Pick(Ops(acts), p);
      assert Ops(Pick(acts, q)) == Pick(Ops(acts), q);
      OrderFreeAt(w, Ops(acts), s, p, q);
    }
  }
}
