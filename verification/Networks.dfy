/** Planning over the real transition system: what it means to plan for a change of the network, and
    what the derived conditions make unplannable. */
module Networks {
  import opened Wrappers
  import opened Permutations
  import opened Sorting
  import opened Worlds
  import opened Plans
  import opened Verification
  import opened Search
  import opened Generate
  import opened Snapshots
  import opened Operations
  import opened Evaluate
  import opened Commutation
  import opened Conditions
  import opened Derivation
  import opened Convergence
  import D = Dependencies
  import T = Tangles

  /** The evaluation functions of the network model; the obligations themselves stay a parameter. */
  function NetworkWorld(ctx: Context, violated: Snapshot -> bool,
                        stepId: Operation -> StepId): World<Snapshot, Operation, Condition> {
    World((s, c) => Holds(ctx, s, c),
          (s, op) => match Apply(ctx, s, op) case Ok(t) => Some(t) case Err(_) => None,
          violated, Preconditions, (s, op) => Postconditions(op), stepId)
  }

  ghost predicate IsNetwork(w: World<Snapshot, Operation, Condition>, ctx: Context) {
    w == NetworkWorld(ctx, w.violated, w.stepId)
  }

  lemma NetworkApplies(w: World<Snapshot, Operation, Condition>, ctx: Context)
    requires IsNetwork(w, ctx)
    ensures Applies(w, ctx)
    ensures forall s, op :: Try(w, s, op).Some? ==> AllTrue(ctx, s, Preconditions(s, op))
  {
    hide Apply, Preconditions, Holds;
    forall s, op | Try(w, s, op).Some? ensures AllTrue(ctx, s, Preconditions(s, op)) {
      assert AllHold(w, s, Preconditions(s, op));
      var cs := Preconditions(s, op);
      forall i | 0 <= i < |cs| ensures Holds(ctx, s, cs[i]) == Some(true) {
        assert w.holds(s, cs[i]) == Some(true);
      }
    }
  }

  /** Trying a step of the network. */
  lemma TryMeans(w: World<Snapshot, Operation, Condition>, ctx: Context, m: Snapshot, op: Operation)
    requires IsNetwork(w, ctx)
    ensures Try(w, m, op).Some? <==>
      && AllTrue(ctx, m, Preconditions(m, op)) && Objection(ctx, m, op) == None
      && Valid(Effect(m, op)) && !w.violated(Effect(m, op))
    ensures Try(w, m, op).Some? ==> Try(w, m, op).value == Effect(m, op)
  {
    hide Holds, Preconditions, Objection, Valid, Effect;
    assert AllHold(w, m, w.preconditions(m, op)) <==> AllTrue(ctx, m, Preconditions(m, op)) by {
      var cs := Preconditions(m, op);
      forall i | 0 <= i < |cs| ensures w.holds(m, cs[i]) == Holds(ctx, m, cs[i]) {}
    }
  }

  /** What a planning request is made for: the evaluation context, the target, the contracts and
      the names operations are sorted by. */
  datatype Change = Change(ctx: Context, target: Target, contracts: seq<D.Contract>, naming: Naming)

  /** At the instant, the request asks for the change: its world is the network, its operations
      are those derived from the target, and its edges those of the pair rule. */
  ghost predicate PlansFor(req: PlanRequest<Snapshot, Operation, Condition>, instant: int, change: Change,
                           ops: seq<Operation>) {
    var w, s := req.base.worldAt(instant), req.base.state;
    && IsNetwork(w, change.ctx)
    && req.derive(instant) == Some(ops) && Derives(change.ctx, s, change.target, change.naming, ops)
    && (forall op :: op in ops ==> w.stepId(op) != 0)
    && T.DerivedEdges(s, change.contracts, w.stepId, ops, req.dependencies(instant, ops))
  }

  // ----- what a walk goes through -----

  lemma {:induction false} TriedAt<S, O, C>(w: World<S, O, C>, s: S, ops: seq<O>, q: seq<nat>, k: nat) returns (t: S)
    requires k < |q| && forall i :: 0 <= i < |q| ==> q[i] < |ops|
    requires Tried(w, s, ops, q).Some?
    ensures Tried(w, s, ops, q[..k]) == Some(t) && Try(w, t, ops[q[k]]).Some?
  {
    var n := |q| - 1;
    if k == n {
      t := Tried(w, s, ops, q[..n]).value;
    } else {
      assert q[..n][..k] == q[..k];
      t := TriedAt(w, s, ops, q[..n], k);
    }
  }

  lemma WalkReaches<S, O, C>(w: World<S, O, C>, s: S, ops: seq<O>, i: nat) returns (q: seq<nat>, k: nat, t: S)
    requires Walks(w, s, ops) && i < |ops|
    ensures IsOrder(q, |ops|) && k < |q| && q[k] == i && forall j :: 0 <= j < |q| ==> q[j] < |ops|
    ensures Tried(w, s, ops, q[..k]) == Some(t) && Try(w, t, ops[i]).Some?
  {
    q :| WalksAlong(w, s, ops, q);
    OrderInRange(q, |ops|);
    assert Identity(|ops|)[i] == i;
    assert i in Elements(Identity(|ops|)) && i in Elements(q);
    k :| 0 <= k < |q| && q[k] == i;
    t := TriedAt(w, s, ops, q, k);
  }

  // ----- routes are never added -----

  /** No walk adds a route. */
  lemma WalksAddNoRoute(w: World<Snapshot, Operation, Condition>, ctx: Context, s: Snapshot, ops: seq<Operation>,
                        i: nat)
    requires IsNetwork(w, ctx) && Walks(w, s, ops) && i < |ops|
    ensures !ops[i].kind.RouteAdd?
  {
    hide Walks, Tried, Try, AllTrue, IsNetwork;
    NetworkApplies(w, ctx);
    var q, k, t := WalkReaches(w, s, ops, i);
    if ops[i].kind.RouteAdd? { RouteAddIsNeverReady(ctx, t, t, ops[i]); }
  }

  /** A target that ensures a route the snapshot does not have is always refused: the addition is
      derived, and no plan containing it comes back. */
  lemma NewRoutesAreRefused(change: Change, plan: Plan<Operation, Condition>,
                            req: PlanRequest<Snapshot, Operation, Condition>, ops: seq<Operation>, id: Id)
    requires PlansFor(req, plan.instant, change, ops)
    requires id in change.target.routes && change.target.routes[id].Ensure? && id !in req.base.state.routes
    ensures !Sound(plan, req)
  {
    hide Verified, Walks, IsNetwork, HasDevice, HasPath, RouteAddOp, SortedBy, T.DerivedEdges;
    if Sound(plan, req) {
      var s, t := req.base.state, change.target;
      var op := RouteAddOp(id, t.routes[id].value);
      assert RouteRef(id) in Entries(t) && op in EntryOps(change.ctx, s, t, RouteRef(id)).value;
      assert op in ops;
      var i :| 0 <= i < |ops| && ops[i] == op;
      WalksAddNoRoute(req.base.worldAt(plan.instant), change.ctx, s, ops, i);
    }
  }

  // ----- removals need a drain even where the policy does not -----

  /** The operation may bring the device into another state. */
  predicate Moves(op: Operation, d: Id) {
    WriteRef(op) == DeviceRef(d) && op.kind !in {DeviceSetCapacity, DeviceSetWindows}
  }

  lemma {:induction false} UnmovedDevice(w: World<Snapshot, Operation, Condition>, ctx: Context, s: Snapshot,
                                         ops: seq<Operation>, q: seq<nat>, d: Id)
    requires IsNetwork(w, ctx) && forall i :: 0 <= i < |q| ==> q[i] < |ops|
    requires Tried(w, s, ops, q).Some? && forall i :: 0 <= i < |q| ==> !Moves(ops[q[i]], d)
    requires d in s.devices
    ensures var t := Tried(w, s, ops, q).value; d in t.devices && t.devices[d].spec.state == s.devices[d].spec.state
  {
    hide Apply, IsNetwork, Moves;
    if q != [] {
      var n := |q| - 1;
      UnmovedDevice(w, ctx, s, ops, q[..n], d);
      var m := Tried(w, s, ops, q[..n]).value;
      NetworkApplies(w, ctx);
      StaysPut(ctx, m, ops[q[n]], d);
    }
  }

  lemma StaysPut(ctx: Context, m: Snapshot, op: Operation, d: Id)
    requires Apply(ctx, m, op).Ok? && !Moves(op, d) && d in m.devices
    ensures var u := Apply(ctx, m, op).value; d in u.devices && u.devices[d].spec.state == m.devices[d].spec.state
  {
    hide Valid, SortWindows, ExclusionGate, WindowGate, KindObjection;
    assert Apply(ctx, m, op).value.devices == CanonicalDevices(StepDevices(m.devices, op));
  }

  /** A walk removes a device that is in use only if some other operation moves that device. */
  lemma RemovalTakesTwo(w: World<Snapshot, Operation, Condition>, ctx: Context, s: Snapshot, ops: seq<Operation>,
                        i: nat)
    requires IsNetwork(w, ctx) && Walks(w, s, ops) && i < |ops| && ops[i].kind.DeviceRemove?
    requires ops[i].device in s.devices && s.devices[ops[i].device].spec.state !in {Draining, InMaintenance}
    ensures exists j :: 0 <= j < |ops| && j != i && Moves(ops[j], ops[i].device)
  {
    hide Walks, Tried, Try, AllTrue, IsNetwork;
    var d := ops[i].device;
    NetworkApplies(w, ctx);
    var q, k, t := WalkReaches(w, s, ops, i);
    RemovalNeedsDrain(ctx, t, t, ops[i]);
    if forall j :: 0 <= j < k ==> !Moves(ops[q[j]], d) {
      UnmovedDevice(w, ctx, s, ops, q[..k], d);
      assert false;
    }
    var j :| 0 <= j < k && Moves(ops[q[j]], d);
    assert q[j] != q[k];
  }

  lemma OnlyDeviceEntriesWriteDevices(ctx: Context, s: Snapshot, t: Target, r: Ref, op: Operation, d: Id)
    requires r in Entries(t) && EntryOps(ctx, s, t, r).Some? && op in EntryOps(ctx, s, t, r).value
    requires WriteRef(op) == DeviceRef(d)
    ensures r == DeviceRef(d)
  {
    hide DeviceEntry, LinkEntry, RouteEntry, WorkloadEntry, PolicyEntry, ConfigEntry;
    match r
    case DeviceRef(id) => DeviceEntryMeans(ctx, id, At(s.devices, id), t.devices[id], op);
    case LinkRef(id) => LinkShape(s, t, id, t.links[id]);
    case RouteRef(id) => RouteOpsElsewhere(s, t, id, t.routes[id], op);
    case WorkloadRef(id) => WorkloadShape(s, t, id, t.workloads[id]);
    case PolicyRef(id) => PolicyShape(s, id, t.policies[id]);
    case ConfigRef(owner, key) => ConfigShape(s, t, (owner, key), t.configs[(owner, key)]);
  }

  /** The target has the device removed, either way of saying so, and the device is in service. */
  predicate Removes(s: Snapshot, t: Target, id: Id) {
    && id in t.devices && InService(At(s.devices, id))
    && match t.devices[id]
       case Remove => true
       case Ensure(d) => d.spec.state in {Removed, Absent} && d.spec.state != s.devices[id].spec.state
  }

  /** Of the operations derived for a device that is to be removed, the removal and, under the
      policy, the drain of a device in use are all that moves it. */
  lemma RemovalEntry(ctx: Context, s: Snapshot, t: Target, id: Id)
    requires Derivable(ctx, s, t) && Removes(s, t, id)
    ensures DeviceOp(DeviceRemove, id) in DerivedOps(ctx, s, t)
    ensures ctx.drainFirst && s.devices[id].spec.state == Present ==>
      DeviceOp(DrainResource, id) in DerivedOps(ctx, s, t)
    ensures !(ctx.drainFirst && s.devices[id].spec.state == Present) ==>
      forall op :: op in DerivedOps(ctx, s, t) && Moves(op, id) ==> op == DeviceOp(DeviceRemove, id)
  {
    hide Entries, Moves, EntryOps;
    DeviceListed(t, id);
    RemovalOps(ctx, s, t, id);
    forall op | op in DerivedOps(ctx, s, t) && Moves(op, id) ensures op in EntryOps(ctx, s, t, DeviceRef(id)).value {
      var r :| r in Entries(t) && op in EntryOps(ctx, s, t, r).value;
      assert WriteRef(op) == DeviceRef(id) by { MovesWrites(op, id); }
      OnlyDeviceEntriesWriteDevices(ctx, s, t, r, op, id);
    }
  }

  lemma MovesWrites(op: Operation, id: Id)
    requires Moves(op, id)
    ensures WriteRef(op) == DeviceRef(id)
  {
  }

  lemma RemovalOps(ctx: Context, s: Snapshot, t: Target, id: Id)
    requires Removes(s, t, id) && EntryOps(ctx, s, t, DeviceRef(id)).Some?
    ensures var ops := EntryOps(ctx, s, t, DeviceRef(id)).value;
      var drains := ctx.drainFirst && s.devices[id].spec.state == Present;
      && DeviceOp(DeviceRemove, id) in ops && (drains ==> DeviceOp(DrainResource, id) in ops)
      && (!drains ==> forall op :: op in ops && Moves(op, id) ==> op == DeviceOp(DeviceRemove, id))
  {
    hide SameFixedFields, DeviceOp, DeviceCapacityOp, DeviceWindowsOp;
  }

  /** Where a device is to be removed that is in use, and no drain is derived for it, because
      draining first is not the policy or the device is not in state present, the conditions of the
      bare removal cannot be met: such a target is always refused. */
  lemma UndrainedRemovalsAreRefused(change: Change, plan: Plan<Operation, Condition>,
                                    req: PlanRequest<Snapshot, Operation, Condition>, ops: seq<Operation>, id: Id)
    requires PlansFor(req, plan.instant, change, ops) && Removes(req.base.state, change.target, id)
    requires req.base.state.devices[id].spec.state !in {Draining, InMaintenance}
    requires !(change.ctx.drainFirst && req.base.state.devices[id].spec.state == Present)
    ensures !Sound(plan, req)
  {
    hide Verified, Walks, IsNetwork, DeviceOp, Moves, SortedBy, T.DerivedEdges, DerivedOps, EntryOps;
    if Sound(plan, req) {
      var s := req.base.state;
      var op := DeviceOp(DeviceRemove, id);
      RemovalEntry(change.ctx, s, change.target, id);
      var i :| 0 <= i < |ops| && ops[i] == op;
      forall j | 0 <= j < |ops| && j != i ensures !Moves(ops[j], id) { assert ops[j] in ops; }
      RemovalTakesTwo(req.base.worldAt(plan.instant), change.ctx, s, ops, i);
    }
  }
}
