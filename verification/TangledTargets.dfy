/** Which targets make the derived edges cyclic, read off the target and the snapshot, and that
    such targets are always refused. */
module TangledTargets {
  import opened Wrappers
  import opened Permutations
  import opened Sorting
  import opened Worlds
  import opened Kahn
  import opened Plans
  import opened Verification
  import opened Generate
  import opened Snapshots
  import opened Operations
  import opened Evaluate
  import opened Tangles
  import opened Derivation
  import opened Convergence
  import opened Conditions
  import opened Networks

  // ----- the condition -----

  /** The device is both drained and removed. */
  predicate DrainedAway(ctx: Context, s: Snapshot, t: Target, device: Id) {
    ctx.drainFirst && Removes(s, t, device) && s.devices[device].spec.state == Present
  }

  /** The target has the device, which is in service, drained, whether to remove it or not. */
  predicate Drained(ctx: Context, s: Snapshot, t: Target, id: Id) {
    && id in t.devices && InService(At(s.devices, id))
    && match t.devices[id]
       case Remove => ctx.drainFirst && s.devices[id].spec.state == Present
       case Ensure(d) => DrainResource in StateKinds(ctx.drainFirst, s.devices[id].spec.state, d.spec.state)
  }

  predicate Names(id: Id, device: Id) { id == device && id != 0 }

  /** The entry asks for something that is caught between the removal of the device and its
      drain. */
  predicate Caught(ctx: Context, s: Snapshot, t: Target, r: Ref, device: Id) {
    match r
    case DeviceRef(id) =>
      if id == device then Amends(s, t, id)
      else ShareDomain(s, device, id) && ((device < id && Removes(s, t, id)) || (id < device && Drained(ctx, s, t, id)))
    case LinkRef(id) =>
      && id in t.links && t.links[id].Ensure? && LinkEntry(s, t, id, t.links[id]) != Some({})
      && (Names(t.links[id].value.endpointA, device) || Names(t.links[id].value.endpointB, device))
    case RouteRef(id) =>
      && id in t.routes && t.routes[id].Ensure? && Paths(s, id, t.routes[id].value)
      && (Names(t.routes[id].value.spec.source, device) || Names(t.routes[id].value.spec.sink, device))
    case PolicyRef(id) =>
      && id in t.policies && t.policies[id].Ensure? && At(s.policies, id) != Some(t.policies[id].value)
      && t.policies[id].value.target.scope == DeviceScope && Names(t.policies[id].value.target.identity, device)
    case ConfigRef(owner, key) =>
      && (owner, key) in t.configs && ConfigEntry(s, t, (owner, key), t.configs[(owner, key)]) != Some({})
      && Names(owner, device)
    case _ => false
  }

  /** The capacity or the windows of a device in service are to change. */
  predicate Amends(s: Snapshot, t: Target, id: Id) {
    && id in t.devices && t.devices[id].Ensure? && InService(At(s.devices, id))
    && var c, d := s.devices[id], t.devices[id].value;
       || c.spec.capacity != d.spec.capacity || c.spec.reserved != d.spec.reserved
       || c.exclusions != d.exclusions || c.maintenance != d.maintenance
  }

  /** The route is new or its path or policy is to change. */
  predicate Paths(s: Snapshot, id: Id, r: Route) {
    id !in s.routes || s.routes[id].spec.path != r.spec.path || s.routes[id].spec.policy != r.spec.policy
  }

  ghost predicate TargetTangled(ctx: Context, s: Snapshot, t: Target) {
    exists device, r :: DrainedAway(ctx, s, t, device) && r in Entries(t) && Caught(ctx, s, t, r, device)
  }

  // ----- it is the condition on the derived list -----

  ghost predicate SomeEntangles(s: Snapshot, ops: set<Operation>, device: Id) {
    exists op :: op in ops && Entangles(s, op, device)
  }

  lemma DeviceCaught(ctx: Context, s: Snapshot, t: Target, id: Id, device: Id)
    requires id in t.devices && DeviceEntry(ctx, id, At(s.devices, id), t.devices[id]).Some?
    ensures Caught(ctx, s, t, DeviceRef(id), device) <==>
      SomeEntangles(s, DeviceEntry(ctx, id, At(s.devices, id), t.devices[id]).value, device)
  {
    hide DeviceEntry, Caught, Entangles;
    var ops := DeviceEntry(ctx, id, At(s.devices, id), t.devices[id]).value;
    if Caught(ctx, s, t, DeviceRef(id), device) { DeviceCatches(ctx, s, t, id, device); }
    if op :| op in ops && Entangles(s, op, device) { DeviceEntangles(ctx, s, t, id, device, op); }
  }

  lemma DeviceCatches(ctx: Context, s: Snapshot, t: Target, id: Id, device: Id)
    requires id in t.devices && DeviceEntry(ctx, id, At(s.devices, id), t.devices[id]).Some?
    requires Caught(ctx, s, t, DeviceRef(id), device)
    ensures SomeEntangles(s, DeviceEntry(ctx, id, At(s.devices, id), t.devices[id]).value, device)
  {
    hide DeviceEntry;
    var cur, want := At(s.devices, id), t.devices[id];
    DeviceKindsMean(ctx, id, cur, want);
    var kind :=
      if id != device then (if device < id then DeviceRemove else DrainResource)
      else if cur.value.spec.capacity != want.value.spec.capacity then DeviceSetCapacity
      else if cur.value.spec.reserved != want.value.spec.reserved then DeviceSetCapacity
      else DeviceSetWindows;
    assert kind in DeviceKinds(ctx, cur, want);
    var op :| op in DeviceEntry(ctx, id, cur, want).value && op.kind == kind;
    DeviceEntryMeans(ctx, id, cur, want, op);
    assert Entangles(s, op, device);
  }

  lemma DeviceEntangles(ctx: Context, s: Snapshot, t: Target, id: Id, device: Id, op: Operation)
    requires id in t.devices && DeviceEntry(ctx, id, At(s.devices, id), t.devices[id]).Some?
    requires op in DeviceEntry(ctx, id, At(s.devices, id), t.devices[id]).value && Entangles(s, op, device)
    ensures Caught(ctx, s, t, DeviceRef(id), device)
  {
    hide DeviceEntry;
    var cur, want := At(s.devices, id), t.devices[id];
    DeviceEntryMeans(ctx, id, cur, want, op);
    DeviceKindsMean(ctx, id, cur, want);
    assert op.kind in DeviceKinds(ctx, cur, want);
  }

  lemma LinkCaught(ctx: Context, s: Snapshot, t: Target, id: Id, device: Id)
    requires id in t.links && LinkEntry(s, t, id, t.links[id]).Some?
    ensures Caught(ctx, s, t, LinkRef(id), device) <==> SomeEntangles(s, LinkEntry(s, t, id, t.links[id]).value, device)
  {
    hide HasDevice;
    var ops := LinkEntry(s, t, id, t.links[id]).value;
    if Caught(ctx, s, t, LinkRef(id), device) {
      var op :| op in ops;
      assert Entangles(s, op, device);
    }
  }

  lemma RouteCaught(ctx: Context, s: Snapshot, t: Target, id: Id, device: Id)
    requires id in t.routes && RouteEntry(s, t, id, t.routes[id]).Some?
    ensures Caught(ctx, s, t, RouteRef(id), device) <==>
      SomeEntangles(s, RouteEntry(s, t, id, t.routes[id]).value, device)
  {
    hide RouteEntry, Entangles;
    var ops := RouteEntry(s, t, id, t.routes[id]).value;
    forall op | op in ops ensures Entangles(s, op, device) <==>
      t.routes[id].Ensure? && op.kind in {RouteAdd, RouteSetPath}
      && (Names(t.routes[id].value.spec.source, device) || Names(t.routes[id].value.spec.sink, device))
    {
      RouteOpEntangles(s, t, id, op, device);
    }
    if t.routes[id].Ensure? { PathsMean(s, t, id); }
  }

  lemma RouteOpEntangles(s: Snapshot, t: Target, id: Id, op: Operation, device: Id)
    requires id in t.routes && RouteEntry(s, t, id, t.routes[id]).Some?
    requires op in RouteEntry(s, t, id, t.routes[id]).value
    ensures Entangles(s, op, device) <==>
      t.routes[id].Ensure? && op.kind in {RouteAdd, RouteSetPath}
      && (Names(t.routes[id].value.spec.source, device) || Names(t.routes[id].value.spec.sink, device))
  {
    hide RouteEntry;
    if t.routes[id].Remove? {
      if op != RouteRemoveOp(id) {
        Releasing(s, t, id, op);
        OnlyRoutesRead(s, op, device);
      }
    } else {
      RouteForms(s, t, id, op);
    }
  }

  lemma RouteForms(s: Snapshot, t: Target, id: Id, op: Operation)
    requires id in t.routes && t.routes[id].Ensure? && RouteEntry(s, t, id, t.routes[id]).Some?
    requires op in RouteEntry(s, t, id, t.routes[id]).value
    ensures var r := t.routes[id].value; op in {RouteAddOp(id, r), RoutePathOp(id, r), RouteStateOp(id, r)}
  {
    hide HasDevice, HasPath, RouteAddOp, RoutePathOp, RouteStateOp;
  }

  lemma Releasing(s: Snapshot, t: Target, route: Id, op: Operation)
    requires route in t.routes && t.routes[route].Remove? && RouteEntry(s, t, route, t.routes[route]).Some?
    requires op in RouteEntry(s, t, route, t.routes[route]).value && op != RouteRemoveOp(route)
    ensures AreaOf(op.kind) == Workloads
  {
    hide Unbinding, BindsRoute, RouteRemoveOp;
  }

  lemma PathsMean(s: Snapshot, t: Target, id: Id)
    requires id in t.routes && t.routes[id].Ensure? && RouteEntry(s, t, id, t.routes[id]).Some?
    ensures Paths(s, id, t.routes[id].value) <==>
      exists op :: op in RouteEntry(s, t, id, t.routes[id]).value && op.kind in {RouteAdd, RouteSetPath}
  {
    hide HasDevice, HasPath;
    var r := t.routes[id].value;
    if Paths(s, id, r) {
      var op := if id !in s.routes then RouteAddOp(id, r) else RoutePathOp(id, r);
      assert op in RouteEntry(s, t, id, t.routes[id]).value;
    }
  }

  lemma PolicyCaught(ctx: Context, s: Snapshot, t: Target, id: Id, device: Id)
    requires id in t.policies
    ensures Caught(ctx, s, t, PolicyRef(id), device) <==>
      SomeEntangles(s, PolicyEntry(s, id, t.policies[id]).value, device)
  {
    var want := t.policies[id];
    if Caught(ctx, s, t, PolicyRef(id), device) {
      assert PolicyBindOp(id, want.value) in PolicyEntry(s, id, want).value;
      assert Entangles(s, PolicyBindOp(id, want.value), device);
    }
  }

  lemma ConfigCaught(ctx: Context, s: Snapshot, t: Target, key: (Id, Id), device: Id)
    requires key in t.configs && ConfigEntry(s, t, key, t.configs[key]).Some?
    ensures Caught(ctx, s, t, ConfigRef(key.0, key.1), device) <==>
      SomeEntangles(s, ConfigEntry(s, t, key, t.configs[key]).value, device)
  {
    hide HasDevice;
    var ops := ConfigEntry(s, t, key, t.configs[key]).value;
    assert key == (key.0, key.1);
    if Caught(ctx, s, t, ConfigRef(key.0, key.1), device) {
      var op :| op in ops;
      assert Entangles(s, op, device);
    }
  }

  lemma WorkloadNeverCaught(s: Snapshot, t: Target, id: Id, device: Id)
    requires id in t.workloads && WorkloadEntry(s, t, id, t.workloads[id]).Some?
    ensures !SomeEntangles(s, WorkloadEntry(s, t, id, t.workloads[id]).value, device)
  {
    hide WorkloadEntry;
    WorkloadShape(s, t, id, t.workloads[id]);
    forall op | op in WorkloadEntry(s, t, id, t.workloads[id]).value ensures !Entangles(s, op, device) {
      OnlyRoutesRead(s, op, device);
    }
  }

  lemma OnlyRoutesRead(s: Snapshot, op: Operation, device: Id)
    requires AreaOf(op.kind) == Workloads
    ensures !Entangles(s, op, device)
  {
  }

  lemma EntryCaught(ctx: Context, s: Snapshot, t: Target, r: Ref, device: Id)
    requires r in Entries(t) && EntryOps(ctx, s, t, r).Some?
    ensures Caught(ctx, s, t, r, device) <==> SomeEntangles(s, EntryOps(ctx, s, t, r).value, device)
  {
    hide Caught, SomeEntangles, DeviceEntry, LinkEntry, RouteEntry, WorkloadEntry, PolicyEntry, ConfigEntry;
    match r
    case DeviceRef(id) => DeviceCaught(ctx, s, t, id, device);
    case LinkRef(id) => LinkCaught(ctx, s, t, id, device);
    case RouteRef(id) => RouteCaught(ctx, s, t, id, device);
    case WorkloadRef(id) =>
      WorkloadNeverCaught(s, t, id, device);
      WorkloadsUncaught(ctx, s, t, id, device);
    case PolicyRef(id) => PolicyCaught(ctx, s, t, id, device);
    case ConfigRef(owner, key) => ConfigCaught(ctx, s, t, (owner, key), device);
  }

  lemma WorkloadsUncaught(ctx: Context, s: Snapshot, t: Target, id: Id, device: Id)
    ensures !Caught(ctx, s, t, WorkloadRef(id), device)
  {
  }

  /** A device with both a removal and a drain derived for it is drained away. */
  lemma BothMeansDrainedAway(ctx: Context, s: Snapshot, t: Target, removal: Operation, drain: Operation)
    requires Derivable(ctx, s, t) && removal in DerivedOps(ctx, s, t) && drain in DerivedOps(ctx, s, t)
    requires removal.kind.DeviceRemove? && drain.kind.DrainResource? && removal.device == drain.device
    ensures DrainedAway(ctx, s, t, removal.device)
  {
    hide EntryOps, Entries, DrainedAway;
    var d := removal.device;
    var r1 :| r1 in Entries(t) && removal in EntryOps(ctx, s, t, r1).value;
    OnlyDeviceEntriesWriteDevices(ctx, s, t, r1, removal, d);
    var r2 :| r2 in Entries(t) && drain in EntryOps(ctx, s, t, r2).value;
    OnlyDeviceEntriesWriteDevices(ctx, s, t, r2, drain, d);
    BothKinds(ctx, s, t, d, removal, drain);
  }

  lemma BothKinds(ctx: Context, s: Snapshot, t: Target, d: Id, removal: Operation, drain: Operation)
    requires DeviceRef(d) in Entries(t) && EntryOps(ctx, s, t, DeviceRef(d)).Some?
    requires removal in EntryOps(ctx, s, t, DeviceRef(d)).value && drain in EntryOps(ctx, s, t, DeviceRef(d)).value
    requires removal.kind.DeviceRemove? && drain.kind.DrainResource?
    ensures DrainedAway(ctx, s, t, d)
  {
    hide DeviceEntry;
    var cur, want := At(s.devices, d), t.devices[d];
    DeviceKindsMean(ctx, d, cur, want);
    assert removal.kind in DeviceKinds(ctx, cur, want) && drain.kind in DeviceKinds(ctx, cur, want);
  }

  lemma TangledIffTarget(ctx: Context, s: Snapshot, t: Target, naming: Naming, ops: seq<Operation>)
    requires Derives(ctx, s, t, naming, ops)
    ensures Tangled(s, ops) <==> TargetTangled(ctx, s, t)
  {
    hide Tangle, Derives, Caught, DrainedAway, Entries;
    if i: nat, x: nat, j: nat :| Tangle(s, ops, i, x, j) { TangleComesFrom(ctx, s, t, naming, ops, i, x, j); }
    if d, r :| DrainedAway(ctx, s, t, d) && r in Entries(t) && Caught(ctx, s, t, r, d) {
      CaughtMakesTangle(ctx, s, t, naming, ops, d, r);
    }
  }

  lemma TangleComesFrom(ctx: Context, s: Snapshot, t: Target, naming: Naming, ops: seq<Operation>, i: nat, x: nat,
                        j: nat)
    requires Derives(ctx, s, t, naming, ops) && Tangle(s, ops, i, x, j)
    ensures TargetTangled(ctx, s, t)
  {
    hide EntryOps, Entries, Caught, Entangles, DrainedAway, SortedBy;
    assert ops[i] in ops && ops[x] in ops && ops[j] in ops;
    BothMeansDrainedAway(ctx, s, t, ops[i], ops[j]);
    var r :| r in Entries(t) && ops[x] in EntryOps(ctx, s, t, r).value;
    EntryCaught(ctx, s, t, r, ops[i].device);
  }

  lemma CaughtMakesTangle(ctx: Context, s: Snapshot, t: Target, naming: Naming, ops: seq<Operation>, d: Id, r: Ref)
    requires Derives(ctx, s, t, naming, ops) && DrainedAway(ctx, s, t, d) && r in Entries(t) && Caught(ctx, s, t, r, d)
    ensures Tangled(s, ops)
  {
    hide EntryOps, Entries, Caught, Entangles, DrainedAway, SortedBy, DeviceOp;
    BothDerived(ctx, s, t, d);
    EntryCaught(ctx, s, t, r, d);
    var op :| op in EntryOps(ctx, s, t, r).value && Entangles(s, op, d);
    assert op in ops && DeviceOp(DeviceRemove, d) in ops && DeviceOp(DrainResource, d) in ops;
    var i: nat :| i < |ops| && ops[i] == DeviceOp(DeviceRemove, d);
    var x: nat :| x < |ops| && ops[x] == op;
    var j: nat :| j < |ops| && ops[j] == DeviceOp(DrainResource, d);
    assert Tangle(s, ops, i, x, j);
  }

  lemma BothDerived(ctx: Context, s: Snapshot, t: Target, d: Id)
    requires Derivable(ctx, s, t) && DrainedAway(ctx, s, t, d)
    ensures DeviceOp(DeviceRemove, d) in DerivedOps(ctx, s, t) && DeviceOp(DrainResource, d) in DerivedOps(ctx, s, t)
  {
    hide DerivedOps, Removes, Derivable, DeviceOp, Moves;
    RemovalEntry(ctx, s, t, d);
  }

  // ----- derived lists are regular -----

  /** Requirement changes and workload removals are derived without bindings. */
  lemma WorkloadForms(ctx: Context, s: Snapshot, t: Target, op: Operation)
    requires Derivable(ctx, s, t) && op in DerivedOps(ctx, s, t) && op.kind in {WorkloadRemove, WorkloadSetRequirements}
    ensures op.bindings == []
  {
    hide HasBindings, Entries;
    OwnUnlessBindings(ctx, s, t, op);
  }

  /** Nothing else that is derived writes a removed route or an added workload. */
  lemma WrittenOnce(ctx: Context, s: Snapshot, t: Target, a: Operation, b: Operation)
    requires Derivable(ctx, s, t) && a in DerivedOps(ctx, s, t) && b in DerivedOps(ctx, s, t)
    requires a.kind in {RouteRemove, WorkloadAdd} && WriteRef(a) == WriteRef(b)
    ensures a == b
  {
    hide Derivable, DerivedOps, OwnOps, Released, Entries;
    OwnUnlessBindings(ctx, s, t, a);
    Origin(ctx, s, t, b);
    if Released(s, t, b) { ReleasedWrites(s, t, b); }
    OwnIsEntry(ctx, s, t, WriteRef(a));
    OwnShape(ctx, s, t, WriteRef(a));
    if a.kind.RouteRemove? { OnlyRemoval(ctx, s, t, a); } else { OnlyAddition(ctx, s, t, a); }
  }

  lemma OnlyRemoval(ctx: Context, s: Snapshot, t: Target, a: Operation)
    requires a.kind.RouteRemove? && a in OwnOps(ctx, s, t, WriteRef(a))
    ensures IsRemoval(t, WriteRef(a))
  {
    hide HasDevice, HasPath, ReleaseOps;
  }

  lemma OnlyAddition(ctx: Context, s: Snapshot, t: Target, a: Operation)
    requires a.kind.WorkloadAdd? && a in OwnOps(ctx, s, t, WriteRef(a))
    ensures a.workload !in s.workloads && OwnOps(ctx, s, t, WriteRef(a)) == {a}
  {
    hide HasBindings, BindingsOp, RequirementsOp, WorkloadRemoveOp;
  }

  lemma DerivedIsRegular(ctx: Context, s: Snapshot, t: Target, naming: Naming, ops: seq<Operation>)
    requires Derives(ctx, s, t, naming, ops)
    ensures Regular(naming, ops)
  {
    hide EntryOps, Entries, SortedBy;
    forall i | 0 <= i < |ops| ensures !ops[i].kind.DeviceSetState? {
      assert ops[i] in ops;
      var r :| r in Entries(t) && ops[i] in EntryOps(ctx, s, t, r).value;
      NeverSetState(ctx, s, t, r, ops[i]);
    }
    forall i | 0 <= i < |ops| && ops[i].kind in {WorkloadRemove, WorkloadSetRequirements}
      ensures ops[i].bindings == []
    {
      assert ops[i] in ops;
      WorkloadForms(ctx, s, t, ops[i]);
    }
    forall i, j | 0 <= i < j < |ops| && ops[i].kind == ops[j].kind && ops[i].kind in {DeviceRemove, DrainResource}
      ensures ops[i].device != ops[j].device
    {
      assert ops[i] in ops && ops[j] in ops;
      if ops[i].device == ops[j].device { OnePerKind(ctx, s, t, ops[i], ops[j]); }
    }
    forall i, j | 0 <= i < |ops| && 0 <= j < |ops| && i != j && ops[i].kind in {RouteRemove, WorkloadAdd}
      ensures WriteRef(ops[i]) != WriteRef(ops[j])
    {
      assert ops[i] in ops && ops[j] in ops;
      if WriteRef(ops[i]) == WriteRef(ops[j]) { WrittenOnce(ctx, s, t, ops[i], ops[j]); }
    }
  }

  /** Of each kind, at most one operation is derived for a device. */
  lemma OnePerKind(ctx: Context, s: Snapshot, t: Target, a: Operation, b: Operation)
    requires Derivable(ctx, s, t) && a in DerivedOps(ctx, s, t) && b in DerivedOps(ctx, s, t)
    requires a.kind == b.kind && AreaOf(a.kind) == Devices && a.device == b.device
    ensures a == b
  {
    hide Derivable, DerivedOps, OwnOps, Entries;
    OwnUnlessBindings(ctx, s, t, a);
    OwnUnlessBindings(ctx, s, t, b);
    OwnIsEntry(ctx, s, t, WriteRef(a));
    OwnShape(ctx, s, t, WriteRef(a));
  }

  // ----- refusal -----

  /** Where the edges trap a set of steps, no plan comes back. */
  lemma CyclicIsRefused<S, O, C>(plan: Plan<O, C>, req: PlanRequest<S, O, C>, ops: seq<O>, t: set<StepId>)
    requires req.derive(plan.instant) == Some(ops)
    requires Trapped(OpIds(ops, req.base.worldAt(plan.instant).stepId), req.dependencies(plan.instant, ops), t)
    ensures !Sound(plan, req)
  {
    hide PassUpTo, Walks, Waits;
    if Sound(plan, req) {
      var w := req.base.worldAt(plan.instant);
      var id :| id in t;
      assert ops != [];
      forall x | x in t ensures x in Ids(plan.steps) { PerformedId(plan, ops, w.stepId, x); }
      StillTrapped(OpIds(ops, w.stepId), Ids(plan.steps), plan.edges, t);
      EdgesRise(plan);
    }
  }

  lemma StillTrapped(ids: seq<StepId>, more: seq<StepId>, edges: seq<Edge>, t: set<StepId>)
    requires Trapped(ids, edges, t) && forall x :: x in t ==> x in more
    ensures Trapped(more, edges, t)
  {
  }

  lemma PerformedId<O, C>(plan: Plan<O, C>, ops: seq<O>, stepId: O -> StepId, x: StepId)
    requires Performs(plan, ops) && StepsOk(plan.steps, stepId) && x in OpIds(ops, stepId)
    ensures x in Ids(plan.steps)
  {
    var m: nat :| m < |ops| && OpIds(ops, stepId)[m] == x;
    var q :| PerformsInOrder(plan, ops, q);
    assert Identity(|ops|)[m] == m;
    assert m in Elements(Identity(|ops|)) && m in Elements(q);
    var k :| 0 <= k < |q| && q[k] == m;
    assert StepOk(plan.steps[k], stepId);
    assert Ids(plan.steps)[k] == x;
  }

  /** A tangled target is always refused, whatever else it asks for. */
  lemma TangledTargetsAreRefused(change: Change, plan: Plan<Operation, Condition>,
                                 req: PlanRequest<Snapshot, Operation, Condition>, ops: seq<Operation>)
    requires PlansFor(req, plan.instant, change, ops) && TargetTangled(change.ctx, req.base.state, change.target)
    ensures !Sound(plan, req)
  {
    hide Sound, Tangled, TargetTangled, DerivedEdges, Trapped, SortedBy;
    var w, s := req.base.worldAt(plan.instant), req.base.state;
    var edges := req.dependencies(plan.instant, ops);
    TangledIffTarget(change.ctx, s, change.target, change.naming, ops);
    TangledIsCyclic(s, change.contracts, change.naming, w.stepId, ops, edges);
    var t :| Trapped(OpIds(ops, w.stepId), edges, t);
    CyclicIsRefused(plan, req, ops, t);
  }

  /** Draining first, two devices in use of one failure domain can never be removed by one plan. */
  lemma TwoRemovalsOfADomainAreRefused(change: Change, plan: Plan<Operation, Condition>,
                                       req: PlanRequest<Snapshot, Operation, Condition>, ops: seq<Operation>, a: Id,
                                       b: Id)
    requires PlansFor(req, plan.instant, change, ops) && a < b
    requires var ctx, s, t := change.ctx, req.base.state, change.target;
      DrainedAway(ctx, s, t, a) && DrainedAway(ctx, s, t, b) && ShareDomain(s, a, b)
    ensures !Sound(plan, req)
  {
    hide Sound, DrainedAway, ShareDomain, PlansFor;
    var ctx, s, t := change.ctx, req.base.state, change.target;
    assert Removes(s, t, b) by { DrainedAwayRemoves(ctx, s, t, b); }
    assert DeviceRef(b) in Entries(t) && Caught(ctx, s, t, DeviceRef(b), a);
    TangledTargetsAreRefused(change, plan, req, ops);
  }

  lemma DrainedAwayRemoves(ctx: Context, s: Snapshot, t: Target, id: Id)
    requires DrainedAway(ctx, s, t, id)
    ensures Removes(s, t, id)
  {
  }

  /** Nor can a device in use be removed by a plan that also writes a configuration value on it. */
  lemma ConfiguredRemovalsAreRefused(change: Change, plan: Plan<Operation, Condition>,
                                     req: PlanRequest<Snapshot, Operation, Condition>, ops: seq<Operation>,
                                     key: (Id, Id))
    requires PlansFor(req, plan.instant, change, ops)
    requires DrainedAway(change.ctx, req.base.state, change.target, key.0) && key.0 != 0
    requires key in change.target.configs
    requires ConfigEntry(req.base.state, change.target, key, change.target.configs[key]) != Some({})
    ensures !Sound(plan, req)
  {
    hide Sound, DrainedAway, PlansFor, ConfigEntry;
    var ctx, s, t := change.ctx, req.base.state, change.target;
    assert key == (key.0, key.1);
    assert ConfigRef(key.0, key.1) in Entries(t) && Caught(ctx, s, t, ConfigRef(key.0, key.1), key.0);
    TangledTargetsAreRefused(change, plan, req, ops);
  }
}
