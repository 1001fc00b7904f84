/** Shifting a change to the first instant at which its maintenance work is permitted. */
module Windows {
  import opened Wrappers
  import opened Sorting
  import opened Snapshots
  import opened Operations
  import opened Evaluate
  import opened Gates

  /** The devices taking part in maintenance work. */
  function Touched(s: Snapshot, ops: seq<Operation>): set<Id> {
    set i, d | 0 <= i < |ops| && RequiresWindow(ops[i].kind) && d in Subjects(ops[i], s) + ({ops[i].device} - {0}) :: d
  }

  predicate NeedsWindow(ops: seq<Operation>, device: Id) {
    exists i :: 0 <= i < |ops| && RequiresWindow(ops[i].kind) && ops[i].device == device
  }

  predicate PermittedFor(d: Device, needsWindow: bool, at: int) {
    ChangePermitted(d, at) && (needsWindow ==> MaintenancePermitted(d, at))
  }

  /** Every touched device that exists is outside its exclusions, and inside a maintenance window
      if it is worked on itself. */
  predicate Permitted(s: Snapshot, ops: seq<Operation>, at: int) {
    forall id :: id in Touched(s, ops) && id in s.devices ==> PermittedFor(s.devices[id], NeedsWindow(ops, id), at)
  }

  // ----- the instants that are tried -----

  /** The planning instant, and every later opening of a maintenance window or end of an
      exclusion. */
  predicate Turning(d: Device, planning: int, c: int) {
    c >= planning &&
      ((exists i :: 0 <= i < |d.maintenance| && d.maintenance[i].begin == c)
       || (exists i :: 0 <= i < |d.exclusions| && d.exclusions[i].end == c))
  }

  ghost predicate Candidate(s: Snapshot, ops: seq<Operation>, planning: int, c: int) {
    c == planning || exists id :: id in Touched(s, ops) && id in s.devices && Turning(s.devices[id], planning, c)
  }

  /** Between two turning points nothing opens: what is permitted at `j` was already permitted at
      the last turning point before it. */
  lemma PermittedSince(d: Device, needsWindow: bool, planning: int, c: int, j: int)
    requires planning <= c <= j && PermittedFor(d, needsWindow, j)
    requires forall x :: c < x <= j ==> !Turning(d, planning, x)
    ensures PermittedFor(d, needsWindow, c)
  {
    forall i | 0 <= i < |d.exclusions| ensures !d.exclusions[i].Contains(c) {
      var w := d.exclusions[i];
      if w.Contains(c) {
        assert !w.Contains(j);
        assert c < w.end <= j;
        assert Turning(d, planning, w.end);
      }
    }
    if needsWindow {
      var i :| 0 <= i < |d.maintenance| && d.maintenance[i].Contains(j);
      if d.maintenance[i].begin > c { assert Turning(d, planning, d.maintenance[i].begin); }
      assert d.maintenance[i].Contains(c);
    }
  }

  /** If any instant is permitted, so is the last candidate up to it. */
  lemma LastCandidate(s: Snapshot, ops: seq<Operation>, planning: int, cs: seq<int>, j: int) returns (k: nat)
    requires planning <= j && Permitted(s, ops, j)
    requires planning in cs && forall c :: c in cs <==> Candidate(s, ops, planning, c)
    requires forall a, b :: 0 <= a < b < |cs| ==> cs[a] <= cs[b]
    ensures k < |cs| && cs[k] <= j && Permitted(s, ops, cs[k])
  {
    k := LastUpTo(cs, planning, j);
    var c := cs[k];
    assert c >= planning by { assert Candidate(s, ops, planning, c); }
    forall id | id in Touched(s, ops) && id in s.devices ensures PermittedFor(s.devices[id], NeedsWindow(ops, id), c) {
      forall x | c < x <= j ensures !Turning(s.devices[id], planning, x) {
        assert x !in cs;
        assert !Candidate(s, ops, planning, x);
      }
      PermittedSince(s.devices[id], NeedsWindow(ops, id), planning, c, j);
    }
  }

  lemma {:induction false} LastUpTo(cs: seq<int>, first: int, j: int) returns (k: nat)
    requires first in cs && first <= j && forall a, b :: 0 <= a < b < |cs| ==> cs[a] <= cs[b]
    ensures k < |cs| && cs[k] <= j && forall m :: k < m < |cs| ==> cs[m] > j
  {
    var n := |cs| - 1;
    if cs[n] <= j {
      k := n;
    } else {
      assert first in cs[..n];
      k := LastUpTo(cs[..n], first, j);
    }
  }

  // ----- the search -----

  method TurningPoints(d: Device, planning: int) returns (cs: seq<int>)
    ensures forall c :: c in cs <==> Turning(d, planning, c)
  {
    cs := [];
    for i := 0 to |d.maintenance|
      invariant forall c :: c in cs <==> c >= planning && exists j :: 0 <= j < i && d.maintenance[j].begin == c
    {
      if d.maintenance[i].begin >= planning { cs := cs + [d.maintenance[i].begin]; }
    }
    for i := 0 to |d.exclusions|
      invariant forall c :: c in cs <==>
        (c >= planning &&
          ((exists j :: 0 <= j < |d.maintenance| && d.maintenance[j].begin == c)
           || (exists j :: 0 <= j < i && d.exclusions[j].end == c)))
    {
      if d.exclusions[i].end >= planning { cs := cs + [d.exclusions[i].end]; }
    }
  }

  method Candidates(s: Snapshot, ops: seq<Operation>, planning: int) returns (cs: seq<int>)
    ensures planning in cs && forall c :: c in cs <==> Candidate(s, ops, planning, c)
    ensures forall a, b :: 0 <= a < b < |cs| ==> cs[a] <= cs[b]
  {
    hide Turning;
    var found: seq<int> := [planning];
    var left := Touched(s, ops);
    while left != {}
      invariant left <= Touched(s, ops)
      invariant forall c :: c in found <==>
        c == planning || exists id ::
          id in Touched(s, ops) - left && id in s.devices && Turning(s.devices[id], planning, c)
      decreases |left|
    {
      var id :| id in left;
      if id in s.devices {
        var more := TurningPoints(s.devices[id], planning);
        found := found + more;
      }
      left := left - {id};
    }
    var key := (x: int) => x;
    SortOrdered(found, key);
    cs := Sort(found, ByKey(key));
    forall c ensures c in cs <==> c in found { SortMembers(found, ByKey(key), c); }
  }

  method IsPermitted(s: Snapshot, ops: seq<Operation>, at: int) returns (ok: bool)
    ensures ok == Permitted(s, ops, at)
  {
    hide PermittedFor;
    var left := Touched(s, ops);
    while left != {}
      invariant left <= Touched(s, ops)
      invariant forall id :: id in Touched(s, ops) - left && id in s.devices ==>
        PermittedFor(s.devices[id], NeedsWindow(ops, id), at)
      decreases |left|
    {
      var id :| id in left;
      if id in s.devices && !PermittedFor(s.devices[id], NeedsWindow(ops, id), at) { return false; }
      left := left - {id};
    }
    ok := true;
  }

  /** The least instant from the planning instant on at which the maintenance work is permitted;
      None exactly when there is none.  Only finitely many instants are tried. */
  method ShiftInstant(s: Snapshot, ops: seq<Operation>, planning: int) returns (r: Option<int>)
    ensures r.Some? ==> planning <= r.value && Permitted(s, ops, r.value)
    ensures r.Some? ==> forall j :: planning <= j < r.value ==> !Permitted(s, ops, j)
    ensures r == None ==> forall j :: planning <= j ==> !Permitted(s, ops, j)
  {
    hide Permitted;
    var cs := Candidates(s, ops, planning);
    for i := 0 to |cs|
      invariant forall m :: 0 <= m < i ==> !Permitted(s, ops, cs[m])
    {
      var usable := IsPermitted(s, ops, cs[i]);
      if usable {
        assert Candidate(s, ops, planning, cs[i]);
        forall j | planning <= j < cs[i] ensures !Permitted(s, ops, j) {
          if Permitted(s, ops, j) { var k := LastCandidate(s, ops, planning, cs, j); }
        }
        return Some(cs[i]);
      }
    }
    forall j | planning <= j ensures !Permitted(s, ops, j) {
      if Permitted(s, ops, j) { var k := LastCandidate(s, ops, planning, cs, j); }
    }
    r := None;
  }

  /** At a permitted instant no maintenance operation is stopped by a gate. */
  lemma PermittedOpensGates(ctx: Context, s: Snapshot, ops: seq<Operation>, i: nat)
    requires i < |ops| && RequiresWindow(ops[i].kind) && Permitted(s, ops, ctx.instant)
    ensures ExclusionGate(ctx, s, ops[i]) && WindowGate(ctx, s, ops[i])
  {
    var op := ops[i];
    if op.device != 0 && op.device in s.devices {
      assert op.device in {ops[i].device} - {0};
      assert op.device in Subjects(ops[i], s) + ({ops[i].device} - {0});
      assert op.device in Touched(s, ops);
      assert NeedsWindow(ops, op.device);
      assert PermittedFor(s.devices[op.device], true, ctx.instant);
    }
    assert Subjects(op, s) == {op.device} - {0};
  }

  /** An instant is permitted exactly if each maintenance operation finds its device outside its exclusions
      and inside one of its maintenance windows. */
  lemma PermittedExactly(s: Snapshot, ops: seq<Operation>, at: int)
    ensures Permitted(s, ops, at) <==> forall op ::
      op in ops && op.kind in {DrainResource, EnterMaintenance, ExitMaintenance, DeviceRemove} ==>
        !Excluded(s, at, op.device) && !Closed(s, at, op.device)
  {
    hide Excluded, Closed, ChangePermitted, MaintenancePermitted;
    forall id | id in s.devices { DeviceOpen(s, id, at); }
    forall op | op in ops && RequiresWindow(op.kind) ensures Subjects(op, s) == {op.device} - {0} {}
    if Permitted(s, ops, at) {
      forall op | op in ops && RequiresWindow(op.kind)
        ensures !Excluded(s, at, op.device) && !Closed(s, at, op.device)
      {
        var i :| 0 <= i < |ops| && ops[i] == op;
        if op.device == 0 || op.device !in s.devices {
          NobodyHome(s, at, op.device);
        } else {
          assert op.device in Subjects(ops[i], s) + ({ops[i].device} - {0});
          assert op.device in Touched(s, ops) && NeedsWindow(ops, op.device);
        }
      }
    } else {
      var id :| id in Touched(s, ops) && id in s.devices && !PermittedFor(s.devices[id], NeedsWindow(ops, id), at);
      var i :| 0 <= i < |ops| && RequiresWindow(ops[i].kind) && id in Subjects(ops[i], s) + ({ops[i].device} - {0});
      assert ops[i] in ops && ops[i].device == id;
    }
  }

  lemma DeviceOpen(s: Snapshot, id: Id, at: int)
    requires id in s.devices
    ensures Excluded(s, at, id) <==> id != 0 && !ChangePermitted(s.devices[id], at)
    ensures Closed(s, at, id) <==> id != 0 && !MaintenancePermitted(s.devices[id], at)
  {
    OpenWindow(s.devices[id].exclusions, at);
    OpenWindow(s.devices[id].maintenance, at);
  }

  lemma NobodyHome(s: Snapshot, at: int, id: Id)
    requires id == 0 || id !in s.devices
    ensures !Excluded(s, at, id) && !Closed(s, at, id)
  {
  }
}
