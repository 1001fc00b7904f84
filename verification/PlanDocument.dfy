/** The plan document: which fields a plan is written as, in order, and the minimum element sizes
    its decoder claims for every list. */
module PlanDocument {
  import opened Wrappers
  import opened Bytes
  import opened Utf8
  import C = Codec
  import opened Codec

  function Ascii(name: string): seq<Byte> {
    seq(|name|, i requires 0 <= i < |name| => if name[i] as int < 256 then name[i] as int else 0)
  }

  const U64: nat := 0xFFFF_FFFF_FFFF_FFFF
  const U32: nat := 0xFFFF_FFFF
  const TOKEN: nat := 512
  const ANY_TEXT: nat := 0xFFFF_FFFF

  /** One field and the fields after it. */
  function Field(head: Schema, tail: Schema): (s: Schema)
    ensures s == Then(head, tail)
    ensures Honest(s) <==> Honest(head) && Honest(tail)
    ensures MinBytes(s) == MinBytes(head) + MinBytes(tail)
    ensures OnlyReferences(s) <==> OnlyReferences(head) && OnlyReferences(tail)
    ensures ShortTags(s) <==> ShortTags(head) && ShortTags(tail)
    ensures Quiet(s) <==> Quiet(head) && Quiet(tail)
  {
    Then(head, tail)
  }

  /** There are no lists of entity references outside other lists. */
  ghost predicate Quiet(s: Schema) {
    match s
    case List(_, element) => element != Then(Small(8), Then(Text(ANY_TEXT), Done))
    case Then(head, tail) => Quiet(head) && Quiet(tail)
    case _ => true
  }

  /** The tags met outside lists are short ASCII texts. */
  predicate ShortTags(s: Schema) {
    match s
    case Tag(name) => |name| <= 32 && forall i :: 0 <= i < |name| ==> name[i] < 0x80
    case Then(head, tail) => ShortTags(head) && ShortTags(tail)
    case _ => true
  }

  /** Every list that claims too much is a list of entity references. */
  ghost predicate OnlyReferences(s: Schema) {
    match s
    case List(minimum, element) =>
      (minimum <= MinBytes(element)
       || (minimum == REF_MINIMUM && element == Then(Small(8), Then(Text(ANY_TEXT), Done))))
      && OnlyReferences(element)
    case Then(head, tail) => OnlyReferences(head) && OnlyReferences(tail)
    case _ => true
  }

  function Counter(): Schema { Number(U64) }

  function Narrow(): Schema { Number(U32) }

  function FreeText(): Schema { Text(ANY_TEXT) }

  function Digest32(): Schema { Fixed(32) }

  function Ids(): Schema { List(4, Identity) }

  function Tagged(name: string, rest: Schema): Schema { Field(Tag(Ascii(name)), rest) }

  function Window(tag: string): Schema {
    Tagged(tag, Field(Identity, Field(Signed, Field(Signed, Field(Text(TOKEN), Done)))))
  }

  function DeviceSpec(): Schema {
    Field(Identity, Field(Small(4), Field(Counter(), Field(Counter(), Field(Word, Field(Word, Field(Text(TOKEN),
      Done)))))))
  }

  function LinkSpec(): Schema {
    Field(Identity, Field(Identity, Field(Counter(), Field(Counter(), Field(Word, Field(Ids(), Done))))))
  }

  function RouteSpec(): Schema { Field(Identity, Field(Identity, Field(Ids(), Field(Identity, Done)))) }

  function RouteBinding(): Schema { Tagged("route-binding", Field(Identity, Field(Flag, Field(Counter(), Done)))) }

  function Requirements(): Schema { Field(Flag, Field(Word, Field(Word, Field(Counter(), Field(Ids(), Done))))) }

  function PolicyTarget(): Schema { Field(Small(4), Field(Text(MAX_IDENTITY), Done)) }

  function OperationTargets(): Schema {
    Field(Identity, Field(PolicyTarget(), Field(FreeText(), Field(Flag, Field(Identity, Field(Identity,
      Field(Counter(), Field(Narrow(), Field(FreeText(), Done)))))))))
  }

  function OperationWorkload(): Schema {
    Field(Identity, Field(List(9, RouteBinding()), Field(Requirements(), Field(FreeText(), OperationTargets()))))
  }

  function OperationRoutes(): Schema {
    Field(Identity, Field(LinkSpec(), Field(Identity, Field(RouteSpec(), Field(Small(1), OperationWorkload())))))
  }

  function OperationDevice(): Schema {
    Field(Identity, Field(DeviceSpec(), Field(List(8, Window("excl-window")), Field(List(8, Window("maint-window")),
      Field(Small(4), Field(Counter(), OperationRoutes()))))))
  }

  function Operation(): Schema { Tagged("operation", Field(Small(22), OperationDevice())) }

  function EntityRef(): Schema { Field(Small(8), Field(FreeText(), Done)) }

  /** A list of entity references; the decoder claims six bytes each. */
  function Refs(claimed: nat): Schema { List(claimed, EntityRef()) }

  const REF_MINIMUM: nat := 6

  function Condition(): Schema {
    Tagged("condition", Field(Small(12), Field(EntityRef(), Field(FreeText(), Field(Counter(), Done)))))
  }

  function Invariants(): Schema { List(1, Small(10)) }

  function Justification(claimed: nat): Schema {
    Tagged("justification", Field(Identity, Field(Digest32(), Field(Counter(), Field(Invariants(), Field(Refs(claimed),
      Field(FreeText(), Field(List(4, FreeText()), Done))))))))
  }

  function Compensation(): Schema {
    Tagged("compensation", Field(Small(2), Field(Flag, Field(Operation(), Field(FreeText(), Done)))))
  }

  function Edge(): Schema {
    Tagged("dependency-edge", Field(Identity, Field(Identity, Field(Small(7), Field(FreeText(), Done)))))
  }

  function StepEffects(claimed: nat): Schema {
    Field(Compensation(), Field(Narrow(), Field(Counter(), Field(Ids(), Field(Justification(claimed), Done)))))
  }

  function Step(claimed: nat): Schema {
    Tagged("step", Field(Identity, Field(Narrow(), Field(Operation(), Field(List(8, Condition()),
      Field(List(8, Condition()),
      StepEffects(claimed)))))))
  }

  function Stage(): Schema {
    Tagged("stage", Field(Narrow(), Field(Ids(), Field(FreeText(), Field(Counter(), Field(Counter(), Done))))))
  }

  function EntityFingerprint(): Schema { Tagged("entity-fingerprint", Field(EntityRef(), Field(Digest32(), Done))) }

  function TopologySummary(): Schema {
    Tagged("topology-summary", Field(List(40, EntityFingerprint()), Field(Counter(), Field(Counter(), Field(Counter(),
      Done)))))
  }

  function Digests(): Schema {
    Field(Digest32(), Field(Digest32(), Field(Digest32(), Field(Digest32(), Field(TopologySummary(), Done)))))
  }

  function ValidityBinding(): Schema {
    Tagged("validity-binding", Field(Counter(), Field(Identity, Field(Counter(), Field(Counter(), Field(Counter(),
      Field(Counter(), Field(Counter(), Digests()))))))))
  }

  function ObjectiveVector(): Schema {
    Tagged("objective-vector", Field(Narrow(), Field(Narrow(), Field(Counter(), Field(Counter(), Field(Digest32(),
      Done))))))
  }

  function PlanLineage(): Schema {
    Tagged("plan-lineage", Field(Small(2), Field(Identity, Field(Counter(), Field(Narrow(), Field(Digest32(), Done))))))
  }

  function RejectedAlternative(claimed: nat): Schema {
    Tagged("rejected-alternative", Field(FreeText(), Field(FreeText(), Field(Small(10), Field(Refs(claimed), Done)))))
  }

  function PlanTail(claimed: nat): Schema {
    Field(ObjectiveVector(), Field(Invariants(), Field(Digest32(), Field(Counter(),
      Field(List(8, RejectedAlternative(claimed)),
      Field(Justification(claimed), Field(FreeText(), Done)))))))
  }

  function PlanBody(claimed: nat): Schema {
    Field(List(16, Stage()), Field(List(16, Step(claimed)), Field(List(8, Edge()), PlanTail(claimed))))
  }

  function PlanSchema(claimed: nat): Schema {
    Tagged("cplan.plan.v1", Field(Identity, Field(Counter(), Field(PlanLineage(), Field(ValidityBinding(), Field(Signed,
      Field(Digest32(), PlanBody(claimed))))))))
  }

  // ----- which minimums are honest -----

  lemma TargetsHonest()
    ensures Honest(OperationTargets())
  {
    hide OnlyReferences, ShortTags;
  }

  lemma WorkloadPartsHonest()
    ensures Honest(Requirements()) && MinBytes(RouteBinding()) >= 9 && Honest(RouteBinding())
  {
    hide OnlyReferences, ShortTags;
  }

  lemma SpecsHonest()
    ensures Honest(LinkSpec()) && Honest(RouteSpec()) && Honest(DeviceSpec())
  {
    hide OnlyReferences, ShortTags;
  }

  lemma WindowHonest(tag: string)
    ensures MinBytes(Window(tag)) >= 8 && Honest(Window(tag))
  {
  }

  lemma OperationHonest()
    ensures Honest(Operation())
  {
    hide OperationTargets, Requirements, RouteBinding, LinkSpec, RouteSpec, DeviceSpec, Window, Ascii;
    TargetsHonest();
    WorkloadPartsHonest();
    SpecsHonest();
    WindowHonest("excl-window");
    WindowHonest("maint-window");
  }

  lemma FingerprintHonest()
    ensures MinBytes(EntityFingerprint()) >= 40 && Honest(EntityFingerprint())
  {
  }

  lemma BindingHonest()
    ensures Honest(ValidityBinding())
  {
    hide EntityFingerprint, Ascii;
    FingerprintHonest();
  }

  lemma JustificationHonest(claimed: nat)
    ensures Honest(Justification(claimed)) <==> claimed <= 5
    ensures Honest(RejectedAlternative(claimed)) <==> claimed <= 5
    ensures MinBytes(RejectedAlternative(claimed)) >= 8
  {
    assert MinBytes(EntityRef()) == 5 && Honest(EntityRef());
    assert Honest(Refs(claimed)) <==> claimed <= 5;
  }

  lemma ConditionHonest()
    ensures MinBytes(Condition()) >= 8 && Honest(Condition())
  {
  }

  lemma CompensationHonest()
    ensures Honest(Compensation())
  {
    hide Operation, Ascii;
    OperationHonest();
  }

  lemma EffectsHonest(claimed: nat)
    requires claimed <= 5
    ensures Honest(StepEffects(claimed))
  {
    hide Compensation, Justification;
    JustificationHonest(claimed);
    CompensationHonest();
  }

  lemma StepHonest(claimed: nat)
    requires claimed <= 5
    ensures Honest(Step(claimed)) && MinBytes(Step(claimed)) >= 16
  {
    hide Operation, Condition, StepEffects, Ascii;
    OperationHonest();
    ConditionHonest();
    EffectsHonest(claimed);
  }

  lemma TailHonest(claimed: nat)
    ensures Honest(PlanTail(claimed)) <==> claimed <= 5
  {
    hide RejectedAlternative, Justification, ObjectiveVector, Invariants, Digest32, Counter, FreeText, Ascii;
    JustificationHonest(claimed);
    PartsHonest();
  }

  lemma PartsHonest()
    ensures Honest(ObjectiveVector()) && Honest(Invariants()) && Honest(Digest32()) && Honest(Counter())
    ensures Honest(FreeText())
  {
  }

  lemma StageHonest()
    ensures MinBytes(Stage()) >= 16 && Honest(Stage())
  {
  }

  lemma EdgeHonest()
    ensures MinBytes(Edge()) >= 8 && Honest(Edge())
  {
  }

  lemma LineageHonest()
    ensures Honest(PlanLineage())
  {
  }

  /** Among all the lists of a plan document only the entity references claim too much: with five
      bytes claimed for each the document would be honest throughout, with six it is not. */
  lemma OnlyReferencesOverclaim()
    ensures Honest(PlanSchema(5)) && !Honest(PlanSchema(REF_MINIMUM))
  {
    hide PlanTail, Step, Stage, Edge, ValidityBinding, PlanLineage, Ascii;
    TailHonest(5);
    TailHonest(REF_MINIMUM);
    StepHonest(5);
    StageHonest();
    EdgeHonest();
    LineageHonest();
    BindingHonest();
  }

  // ----- what the overclaim costs -----

  ghost function IdentityBytes(items: seq<Value>, lim: Limits): nat
    requires AllMatch(EntityRef(), items, lim)
  {
    if items == [] then 0 else |items[0].second.first.bytes| + IdentityBytes(items[1..], lim)
  }

  lemma {:induction false} RefsTake(items: seq<Value>, lim: Limits)
    requires AllMatch(EntityRef(), items, lim)
    ensures |EncodeItems(EntityRef(), items, lim)| == 5 * |items| + IdentityBytes(items, lim)
    ensures forall after :: ItemsFit(EntityRef(), items, lim, after)
  {
    forall after ensures ItemsFit(EntityRef(), items, lim, after) { HonestItemsFit(EntityRef(), items, lim, after); }
    if items != [] {
      RefsTake(items[1..], lim);
      RefTakes(items[0], lim);
    }
  }

  lemma RefTakes(v: Value, lim: Limits)
    requires Matches(EntityRef(), v, lim)
    ensures |C.Encode(EntityRef(), v, lim)| == 5 + |v.second.first.bytes|
  {
    assert EntityRef() == Then(Small(8), Then(FreeText(), Done));
  }

  /** A list of references is read back exactly when the identity texts in it and the bytes after
      it together come to at least one byte per reference. */
  lemma RefListComesBackExactly(items: seq<Value>, lim: Limits, rest: seq<Byte>)
    requires Matches(Refs(REF_MINIMUM), ListV(items), lim)
    ensures var s, v := Refs(REF_MINIMUM), ListV(items);
      Decode(s, C.Encode(s, v, lim) + rest, lim) ==
        if |items| <= IdentityBytes(items, lim) + |rest| then Some(Decoded(v, rest)) else None
  {
    var s, v := Refs(REF_MINIMUM), ListV(items);
    RefsTake(items, lim);
    RoundTrip(s, v, lim, rest);
  }

  // ----- which documents come back -----

  lemma {:induction false} HonestHasNone(s: Schema)
    requires Honest(s)
    ensures OnlyReferences(s)
  {
    match s
    case List(_, element) => HonestHasNone(element);
    case Then(head, tail) =>
      HonestHasNone(head);
      HonestHasNone(tail);
    case _ =>
  }

  lemma JustificationsOnly()
    ensures OnlyReferences(Justification(REF_MINIMUM)) && OnlyReferences(RejectedAlternative(REF_MINIMUM))
  {
  }

  lemma StepOnly()
    ensures OnlyReferences(Step(REF_MINIMUM))
  {
    hide Operation, Condition, Justification, Compensation, Ascii;
    OperationHonest();
    HonestHasNone(Operation());
    ConditionHonest();
    HonestHasNone(Condition());
    CompensationHonest();
    HonestHasNone(Compensation());
    JustificationsOnly();
    assert MinBytes(Condition()) >= 8;
  }

  lemma TailOnly()
    ensures OnlyReferences(PlanTail(REF_MINIMUM))
  {
    hide RejectedAlternative, Justification, Ascii;
    JustificationHonest(REF_MINIMUM);
    JustificationsOnly();
  }

  lemma StepTakes()
    ensures MinBytes(Step(REF_MINIMUM)) >= 16
  {
    hide Operation, Condition, StepEffects, Ascii;
  }

  lemma PlanOnly()
    ensures OnlyReferences(PlanSchema(REF_MINIMUM))
  {
    hide PlanTail, Step, Stage, Edge, ValidityBinding, PlanLineage, Ascii;
    TailOnly();
    StepOnly();
    StepTakes();
    StageHonest();
    HonestHasNone(Stage());
    EdgeHonest();
    HonestHasNone(Edge());
    LineageHonest();
    HonestHasNone(PlanLineage());
    BindingHonest();
    HonestHasNone(ValidityBinding());
  }

  ghost predicate AllReferences(ls: seq<Listing>) { forall l :: l in ls ==> IsReferences(l) }

  lemma BothReferences(a: seq<Listing>, b: seq<Listing>)
    requires AllReferences(a) && AllReferences(b)
    ensures AllReferences(a + b)
  {
    hide IsReferences;
  }

  ghost predicate IsReferences(l: Listing) { l.minimum == REF_MINIMUM && l.element == EntityRef() }

  lemma {:induction false} OverclaimsAreReferences(s: Schema, v: Value, lim: Limits, after: nat)
    requires OnlyReferences(s) && Matches(s, v, lim)
    ensures AllReferences(Overclaims(s, v, lim, after))
    decreases s, 0
  {
    hide C.Encode, EncodeItems, AllReferences;
    match s
    case List(minimum, element) =>
      ItemsAreReferences(element, v.items, lim, after);
      OwnIsReferences(minimum, element, v.items, after);
      var own := if minimum <= MinBytes(element) then [] else [Listing(minimum, element, v.items, after)];
      BothReferences(own, ItemsOverclaim(element, v.items, lim, after));
    case Then(head, tail) =>
      var more := |C.Encode(tail, v.second, lim)| + after;
      OverclaimsAreReferences(head, v.first, lim, more);
      OverclaimsAreReferences(tail, v.second, lim, after);
      BothReferences(Overclaims(head, v.first, lim, more), Overclaims(tail, v.second, lim, after));
    case _ => NoReferences();
  }

  lemma NoReferences()
    ensures AllReferences([])
  {
  }

  lemma OwnIsReferences(minimum: nat, element: Schema, items: seq<Value>, after: nat)
    requires OnlyReferences(List(minimum, element))
    ensures AllReferences(if minimum <= MinBytes(element) then [] else [Listing(minimum, element, items, after)])
  {
    hide MinBytes;
  }

  lemma {:induction false} ItemsAreReferences(e: Schema, items: seq<Value>, lim: Limits, after: nat)
    requires OnlyReferences(e) && AllMatch(e, items, lim)
    ensures AllReferences(ItemsOverclaim(e, items, lim, after))
    decreases e, |items| + 1
  {
    hide C.Encode, EncodeItems, AllReferences;
    if items == [] {
      NoReferences();
    } else {
      var more := |EncodeItems(e, items[1..], lim)| + after;
      OverclaimsAreReferences(e, items[0], lim, more);
      ItemsAreReferences(e, items[1..], lim, after);
      BothReferences(Overclaims(e, items[0], lim, more), ItemsOverclaim(e, items[1..], lim, after));
    }
  }

  /** At most as many references as there are identity bytes in them and bytes after them. */
  ghost predicate HasRoom(l: Listing, lim: Limits) {
    AllMatch(EntityRef(), l.items, lim) && |l.items| <= IdentityBytes(l.items, lim) + l.after
  }

  lemma PassesMeansRoom(l: Listing, lim: Limits)
    requires IsReferences(l)
    ensures Passes(l, lim) <==> HasRoom(l, lim)
  {
    hide EncodeItems, IdentityBytes;
    if AllMatch(EntityRef(), l.items, lim) { RefsTake(l.items, lim); }
  }

  /** Every list of entity references met in the document, in whatever step, justification or
      rejected alternative, holds at most as many references as there are identity bytes in the list
      and bytes of the document after it. */
  ghost predicate RoomForReferences(v: Value, lim: Limits)
    requires Matches(PlanSchema(REF_MINIMUM), v, lim)
  {
    forall l :: l in Overclaims(PlanSchema(REF_MINIMUM), v, lim, 0) ==> IsReferences(l) && HasRoom(l, lim)
  }

  lemma FitsMeansRoom(v: Value, lim: Limits)
    requires Matches(PlanSchema(REF_MINIMUM), v, lim)
    ensures Fits(PlanSchema(REF_MINIMUM), v, lim, 0) <==> RoomForReferences(v, lim)
    ensures AllReferences(Overclaims(PlanSchema(REF_MINIMUM), v, lim, 0))
  {
    hide PlanSchema, Matches, Fits, Overclaims, Passes, HasRoom, IsReferences;
    var s := PlanSchema(REF_MINIMUM);
    PlanOnly();
    OverclaimsAreReferences(s, v, lim, 0);
    OverclaimsDecide(s, v, lim, 0);
    var ls := Overclaims(s, v, lim, 0);
    forall l | l in ls ensures Passes(l, lim) <==> HasRoom(l, lim) { PassesMeansRoom(l, lim); }
  }

  /** A whole plan document is read back exactly when there is room for its references: no other list
      in it can be refused. */
  lemma PlanComesBackExactly(v: Value, lim: Limits)
    requires Matches(PlanSchema(REF_MINIMUM), v, lim)
    ensures var s := PlanSchema(REF_MINIMUM);
      Decode(s, C.Encode(s, v, lim), lim) == if RoomForReferences(v, lim) then Some(Decoded(v, [])) else None
  {
    hide PlanSchema, Matches, C.Encode, Decode, Fits, RoomForReferences;
    var s := PlanSchema(REF_MINIMUM);
    FitsMeansRoom(v, lim);
    RoundTrip(s, v, lim, []);
    assert C.Encode(s, v, lim) + [] == C.Encode(s, v, lim);
  }

  // ----- a document that does not -----

  /** The smallest value of a schema, with these items in its lists of entity references. */
  ghost function Sample(s: Schema, refs: seq<Value>): Value {
    match s
    case Flag => BoolV(false)
    case Small(_) => NumV(0)
    case Word => NumV(0)
    case Number(_) => NumV(0)
    case Signed => IntV(0)
    case Text(_) => BytesV([])
    case Identity => BytesV([])
    case Fixed(size) => BytesV(seq(size, _ => 0))
    case Tag(_) => UnitV
    case List(_, element) => ListV(if element == EntityRef() then refs else [])
    case Then(head, tail) => PairV(Sample(head, refs), Sample(tail, refs))
    case Done => UnitV
  }

  lemma {:induction false} SampleMatches(s: Schema, refs: seq<Value>, lim: Limits)
    requires ShortTags(s) && 32 <= lim.maxText
    requires AllMatch(EntityRef(), refs, lim) && |refs| <= lim.maxElements && |refs| < TWO_32
    ensures Matches(s, Sample(s, refs), lim)
  {
    hide IsUtf8;
    AsciiIsUtf8([]);
    if s.Tag? { AsciiIsUtf8(s.name); }
    if s.Then? {
      SampleMatches(s.head, refs, lim);
      SampleMatches(s.tail, refs, lim);
    }
  }

  /** The schema without its first fields. */
  function After(s: Schema, n: nat): Schema
    decreases n
  {
    if n == 0 || !s.Then? then s else After(s.tail, n - 1)
  }

  /** There are at least `n` fields, and no lists of entity references in them. */
  ghost predicate QuietUpTo(s: Schema, n: nat)
    decreases n
  {
    n == 0 || (s.Then? && Quiet(s.head) && QuietUpTo(s.tail, n - 1))
  }

  lemma {:induction false} SampleOfBoth(head: Schema, tail: Schema, refs: seq<Value>)
    ensures Sample(Then(head, tail), refs) == PairV(Sample(head, refs), Sample(tail, refs))
  {
  }

  lemma {:induction false} OverclaimsOfBoth(head: Schema, tail: Schema, a: Value, b: Value, lim: Limits, after: nat)
    requires Matches(head, a, lim) && Matches(tail, b, lim)
    ensures Matches(Then(head, tail), PairV(a, b), lim)
    ensures Overclaims(Then(head, tail), PairV(a, b), lim, after)
      == Overclaims(head, a, lim, |C.Encode(tail, b, lim)| + after) + Overclaims(tail, b, lim, after)
  {
    hide C.Encode, AllMatch, MinBytes, ItemsOverclaim;
  }

  lemma {:induction false} SampleQuiet(s: Schema, refs: seq<Value>, lim: Limits, after: nat)
    requires Quiet(s) && OnlyReferences(s) && Matches(s, Sample(s, refs), lim)
    ensures Overclaims(s, Sample(s, refs), lim, after) == []
  {
    hide C.Encode, MinBytes, AllMatch;
    if s.Then? {
      var a, b := Sample(s.head, refs), Sample(s.tail, refs);
      SampleOfBoth(s.head, s.tail, refs);
      SampleQuiet(s.head, refs, lim, |C.Encode(s.tail, b, lim)| + after);
      SampleQuiet(s.tail, refs, lim, after);
      OverclaimsOfBoth(s.head, s.tail, a, b, lim, after);
    }
  }

  /** The lists met in a document are those met in its later fields. */
  lemma {:induction false} MetLater(s: Schema, refs: seq<Value>, lim: Limits, after: nat, n: nat)
    requires ShortTags(s) && 32 <= lim.maxText && AllMatch(EntityRef(), refs, lim) && |refs| <= lim.maxElements
    requires |refs| < TWO_32
    requires OnlyReferences(s) && QuietUpTo(s, n)
    ensures Matches(After(s, n), Sample(After(s, n), refs), lim) && Matches(s, Sample(s, refs), lim)
    ensures Overclaims(s, Sample(s, refs), lim, after) == Overclaims(After(s, n), Sample(After(s, n), refs), lim, after)
    decreases n
  {
    hide C.Encode, MinBytes;
    SampleMatches(s, refs, lim);
    if n > 0 {
      SampleQuiet(s.head, refs, lim, |C.Encode(s.tail, Sample(s.tail, refs), lim)| + after);
      MetLater(s.tail, refs, lim, after, n - 1);
    }
  }

  lemma PartsAreQuiet()
    ensures Quiet(PlanLineage()) && Quiet(ValidityBinding()) && Quiet(ObjectiveVector())
  {
    hide OnlyReferences, Honest, MinBytes, ShortTags, Ascii, EntityFingerprint;
    FingerprintIsNoReference();
  }

  lemma FingerprintIsNoReference()
    ensures EntityFingerprint() != Then(Small(8), Then(Text(ANY_TEXT), Done))
  {
  }

  lemma ElementsAreNoReferences(claimed: nat)
    ensures var r := Then(Small(8), Then(Text(ANY_TEXT), Done));
      Stage() != r && Step(claimed) != r && Edge() != r && RejectedAlternative(claimed) != r
  {
  }

  lemma BodyFields(claimed: nat)
    ensures After(PlanSchema(claimed), 7) == PlanBody(claimed) && QuietUpTo(PlanSchema(claimed), 7)
  {
    hide PlanLineage, ValidityBinding, PlanBody, Ascii, OnlyReferences, Honest, MinBytes, ShortTags;
    PartsAreQuiet();
    var s := PlanSchema(claimed);
    var t := s.tail.tail.tail;
    assert After(t, 4) == After(t.tail, 3) == After(t.tail.tail, 2) == After(t.tail.tail.tail, 1);
    assert After(s, 7) == After(s.tail, 6) == After(s.tail.tail, 5) == After(t, 4);
    assert QuietUpTo(t.tail.tail.tail, 1) && QuietUpTo(t.tail.tail, 2) && QuietUpTo(t.tail, 3) && QuietUpTo(t, 4);
    assert QuietUpTo(s.tail.tail, 5) && QuietUpTo(s.tail, 6);
  }

  lemma TailFields(claimed: nat)
    ensures After(PlanBody(claimed), 3) == PlanTail(claimed) && QuietUpTo(PlanBody(claimed), 3)
    ensures After(PlanTail(claimed), 5) == Then(Justification(claimed), Then(FreeText(), Done))
    ensures QuietUpTo(PlanTail(claimed), 5)
  {
    hide ObjectiveVector, RejectedAlternative, Justification, Stage, Step, Edge, OnlyReferences, Honest, MinBytes,
      ShortTags;
    PartsAreQuiet();
    ElementsAreNoReferences(claimed);
    var b, t := PlanBody(claimed), PlanTail(claimed);
    assert After(b, 3) == After(b.tail, 2) == After(b.tail.tail, 1) == b.tail.tail.tail;
    assert After(t, 5) == After(t.tail, 4) == After(t.tail.tail, 3) == After(t.tail.tail.tail, 2);
    assert After(t.tail.tail.tail, 2) == After(t.tail.tail.tail.tail, 1);
    assert QuietUpTo(b.tail.tail, 1) && QuietUpTo(b.tail, 2);
    var u := t.tail.tail.tail;
    assert QuietUpTo(u.tail, 1) && QuietUpTo(u, 2) && QuietUpTo(t.tail.tail, 3) && QuietUpTo(t.tail, 4);
  }

  lemma JustificationFields(claimed: nat)
    ensures After(Justification(claimed), 5) == Then(Refs(claimed), Then(FreeText(), Then(List(4, FreeText()), Done)))
    ensures QuietUpTo(Justification(claimed), 5)
  {
    hide Refs, Ascii, OnlyReferences, Honest, MinBytes, ShortTags;
    var j := Justification(claimed);
    assert After(j, 5) == After(j.tail, 4) == After(j.tail.tail, 3) == After(j.tail.tail.tail, 2);
    assert After(j.tail.tail.tail, 2) == After(j.tail.tail.tail.tail, 1);
    var u := j.tail.tail.tail;
    assert QuietUpTo(u.tail, 1) && QuietUpTo(u, 2) && QuietUpTo(j.tail.tail, 3) && QuietUpTo(j.tail, 4);
  }

  lemma ShortName(name: string)
    requires |name| <= 32 && forall i :: 0 <= i < |name| ==> name[i] as int < 0x80
    ensures ShortTags(Tag(Ascii(name)))
  {
  }

  lemma JustificationTags(claimed: nat)
    ensures ShortTags(Justification(claimed))
  {
    hide OnlyReferences, Honest, MinBytes, Ascii;
    ShortName("justification");
  }

  lemma PartTags()
    ensures ShortTags(PlanLineage()) && ShortTags(ObjectiveVector())
  {
    hide OnlyReferences, Honest, MinBytes, Ascii;
    ShortName("plan-lineage");
    ShortName("objective-vector");
  }

  lemma SummaryTags()
    ensures ShortTags(TopologySummary())
  {
    hide OnlyReferences, Honest, MinBytes, EntityFingerprint, Ascii;
    ShortName("topology-summary");
  }

  lemma BindingTags()
    ensures ShortTags(ValidityBinding())
  {
    hide OnlyReferences, Honest, MinBytes, TopologySummary, Ascii;
    ShortName("validity-binding");
    SummaryTags();
  }

  lemma TailTags(claimed: nat)
    ensures ShortTags(PlanTail(claimed))
  {
    hide OnlyReferences, Honest, MinBytes, RejectedAlternative, Justification, ObjectiveVector, Ascii;
    JustificationTags(claimed);
    PartTags();
  }

  lemma BodyTags(claimed: nat)
    ensures ShortTags(PlanBody(claimed))
  {
    hide OnlyReferences, Honest, MinBytes, Stage, Step, Edge, PlanTail, Ascii;
    TailTags(claimed);
  }

  lemma PlanTags(claimed: nat)
    ensures ShortTags(PlanSchema(claimed))
  {
    hide OnlyReferences, Honest, MinBytes, PlanBody, PlanLineage, ValidityBinding, Ascii;
    ShortName("cplan.plan.v1");
    PartTags();
    BindingTags();
    BodyTags(claimed);
  }

  /** A document that is empty but for `n` global references in its justification. */
  ghost function Globals(n: nat): seq<Value> { seq(n, _ => PairV(NumV(0), PairV(BytesV([]), UnitV))) }

  ghost function EmptyPlan(n: nat): Value { Sample(PlanSchema(REF_MINIMUM), Globals(n)) }

  lemma {:induction false} GlobalsTakeNothing(n: nat, lim: Limits)
    ensures AllMatch(EntityRef(), Globals(n), lim) && IdentityBytes(Globals(n), lim) == 0
  {
    hide Matches, EntityRef;
    GlobalMatches(lim);
    if n > 0 {
      GlobalsTakeNothing(n - 1, lim);
      assert Globals(n)[1..] == Globals(n - 1);
    }
  }

  lemma GlobalMatches(lim: Limits)
    ensures Matches(EntityRef(), PairV(NumV(0), PairV(BytesV([]), UnitV)), lim)
  {
    AsciiIsUtf8([]);
  }

  ghost predicate MeetsOnly(s: Schema, v: Value, lim: Limits, after: nat, met: Listing) {
    Matches(s, v, lim) && Overclaims(s, v, lim, after) == [met]
  }

  /** The rationale and the notes follow the references of a justification and take eight bytes. */
  lemma EightBytesFollow(n: nat, lim: Limits)
    requires lim.maxText >= 32 && n <= lim.maxElements && n < TWO_32
    ensures MeetsOnly(Justification(REF_MINIMUM), Sample(Justification(REF_MINIMUM), Globals(n)), lim, 4,
                      Listing(REF_MINIMUM, EntityRef(), Globals(n), 12))
  {
    hide Justification, ShortTags, After, Sample, Matches, C.Encode, Overclaims, EntityRef, FreeText, AllMatch,
      IdentityBytes, QuietUpTo, Quiet;
    GlobalsCount(n);
    var refs, c := Globals(n), REF_MINIMUM;
    GlobalsTakeNothing(n, lim);
    JustificationTags(c);
    JustificationFields(c);
    JustificationsOnly();
    ListHere(refs, lim);
    BothTakeEight(refs, lim);
    TextsAreQuiet();
    MetFirst(Refs(c), Then(FreeText(), Then(List(4, FreeText()), Done)), refs, lim, 4);
    MetLater(Justification(c), refs, lim, 4, 5);
  }

  /** The references of the justification are the only ones in the document, and are followed by the
      rationale, the notes and the label, which take twelve bytes when they are empty. */
  lemma TwelveBytesFollow(n: nat, lim: Limits)
    requires lim.maxText >= 32 && n <= lim.maxElements && n < TWO_32
    ensures MeetsOnly(PlanSchema(REF_MINIMUM), EmptyPlan(n), lim, 0, Listing(REF_MINIMUM, EntityRef(), Globals(n), 12))
  {
    hide PlanSchema, PlanBody, PlanTail, Justification, ShortTags, After, Sample, Matches, C.Encode, Overclaims,
      EntityRef, FreeText, AllMatch, IdentityBytes, QuietUpTo, Quiet;
    GlobalsCount(n);
    var refs, c := Globals(n), REF_MINIMUM;
    PlanTags(c);
    TailTags(c);
    BodyTags(c);
    BodyFields(c);
    TailFields(c);
    PlanOnly();
    TailOnly();
    BodyOnly();
    EightBytesFollow(n, lim);
    LabelTakesFour(refs, lim);
    TextsAreQuiet();
    GlobalsTakeNothing(n, lim);
    MetFirst(Justification(c), Then(FreeText(), Done), refs, lim, 0);
    MetLater(PlanTail(c), refs, lim, 0, 5);
    MetLater(PlanBody(c), refs, lim, 0, 3);
    MetLater(PlanSchema(c), refs, lim, 0, 7);
  }

  lemma BodyOnly()
    ensures OnlyReferences(PlanBody(REF_MINIMUM))
  {
    hide PlanTail, Step, Stage, Edge, Ascii;
    TailOnly();
    StepOnly();
    StepTakes();
    StageHonest();
    HonestHasNone(Stage());
    EdgeHonest();
    HonestHasNone(Edge());
  }

  lemma TextsAreQuiet()
    ensures Quiet(Then(FreeText(), Done)) && Quiet(Then(FreeText(), Then(List(4, FreeText()), Done)))
    ensures OnlyReferences(Then(FreeText(), Done)) && OnlyReferences(Then(FreeText(), Then(List(4, FreeText()), Done)))
  {
  }

  /** The lists met in two fields, the second of which holds none, are those met in the first. */
  lemma {:induction false} MetFirst(head: Schema, tail: Schema, refs: seq<Value>, lim: Limits, after: nat)
    requires Matches(head, Sample(head, refs), lim) && Matches(tail, Sample(tail, refs), lim)
    requires Quiet(tail) && OnlyReferences(tail)
    ensures Matches(Then(head, tail), Sample(Then(head, tail), refs), lim)
    ensures Overclaims(Then(head, tail), Sample(Then(head, tail), refs), lim, after)
      == Overclaims(head, Sample(head, refs), lim, |C.Encode(tail, Sample(tail, refs), lim)| + after)
  {
    hide Overclaims, Sample, Matches, C.Encode, AllMatch, MinBytes, Quiet, OnlyReferences;
    MetBoth(head, tail, refs, lim, after);
    SampleQuiet(tail, refs, lim, after);
  }

  lemma {:induction false} MetBoth(head: Schema, tail: Schema, refs: seq<Value>, lim: Limits, after: nat)
    requires Matches(head, Sample(head, refs), lim) && Matches(tail, Sample(tail, refs), lim)
    ensures Matches(Then(head, tail), Sample(Then(head, tail), refs), lim)
    ensures Overclaims(Then(head, tail), Sample(Then(head, tail), refs), lim, after)
      == Overclaims(head, Sample(head, refs), lim, |C.Encode(tail, Sample(tail, refs), lim)| + after)
         + Overclaims(tail, Sample(tail, refs), lim, after)
  {
    hide C.Encode, AllMatch, MinBytes, Overclaims, Matches;
    SampleOfBoth(head, tail, refs);
    OverclaimsOfBoth(head, tail, Sample(head, refs), Sample(tail, refs), lim, after);
  }

  lemma TextTakesFour(refs: seq<Value>, lim: Limits)
    ensures Matches(FreeText(), Sample(FreeText(), refs), lim)
    ensures |C.Encode(FreeText(), Sample(FreeText(), refs), lim)| == 4
  {
    AsciiIsUtf8([]);
  }

  lemma LabelTakesFour(refs: seq<Value>, lim: Limits)
    ensures var s := Then(FreeText(), Done);
      Matches(s, Sample(s, refs), lim) && |C.Encode(s, Sample(s, refs), lim)| == 4
  {
    hide FreeText;
    TextTakesFour(refs, lim);
  }

  lemma NotesTakeFour(refs: seq<Value>, lim: Limits)
    ensures var s := Then(List(4, FreeText()), Done);
      Matches(s, Sample(s, refs), lim) && |C.Encode(s, Sample(s, refs), lim)| == 4
  {
  }

  lemma BothTakeEight(refs: seq<Value>, lim: Limits)
    ensures var s := Then(FreeText(), Then(List(4, FreeText()), Done));
      Matches(s, Sample(s, refs), lim) && |C.Encode(s, Sample(s, refs), lim)| == 8
  {
    TextTakesFour(refs, lim);
    NotesTakeFour(refs, lim);
    hide FreeText;
    ThenTakes(FreeText(), Then(List(4, FreeText()), Done), refs, lim);
  }

  lemma ThenTakes(head: Schema, tail: Schema, refs: seq<Value>, lim: Limits)
    requires Matches(head, Sample(head, refs), lim) && Matches(tail, Sample(tail, refs), lim)
    ensures Matches(Then(head, tail), Sample(Then(head, tail), refs), lim)
    ensures var s := Then(head, tail);
      |C.Encode(s, Sample(s, refs), lim)| ==
        |C.Encode(head, Sample(head, refs), lim)| + |C.Encode(tail, Sample(tail, refs), lim)|
  {
  }

  lemma {:induction false} ReferencesHoldNone(refs: seq<Value>, lim: Limits, after: nat)
    requires AllMatch(EntityRef(), refs, lim)
    ensures ItemsOverclaim(EntityRef(), refs, lim, after) == []
  {
    hide C.Encode, EncodeItems;
    if refs != [] { ReferencesHoldNone(refs[1..], lim, after); }
  }

  lemma ListHere(refs: seq<Value>, lim: Limits)
    requires AllMatch(EntityRef(), refs, lim) && |refs| <= lim.maxElements && |refs| < TWO_32
    ensures Matches(Refs(REF_MINIMUM), Sample(Refs(REF_MINIMUM), refs), lim)
    ensures Overclaims(Refs(REF_MINIMUM), Sample(Refs(REF_MINIMUM), refs), lim, 12) ==
      [Listing(REF_MINIMUM, EntityRef(), refs, 12)]
  {
    assert MinBytes(EntityRef()) == 5;
    ReferencesHoldNone(refs, lim, 12);
  }

  /** So a plan document that is otherwise empty comes back with up to twelve global references in its
      justification, and is lost with thirteen. */
  lemma CrowdedPlanIsLost(n: nat, lim: Limits)
    requires lim.maxText >= 32 && n <= lim.maxElements && n < TWO_32
    ensures var s, v := PlanSchema(REF_MINIMUM), EmptyPlan(n);
      Matches(s, v, lim) && Decode(s, C.Encode(s, v, lim), lim) == if n <= 12 then Some(Decoded(v, [])) else None
  {
    hide PlanSchema, Matches, C.Encode, Decode, Overclaims, EmptyPlan, Globals;
    TwelveBytesFollow(n, lim);
    GlobalsTakeNothing(n, lim);
    PlanComesBackExactly(EmptyPlan(n), lim);
    var l := Listing(REF_MINIMUM, EntityRef(), Globals(n), 12);
    GlobalsCount(n);
    assert l in [l];
    assert HasRoom(l, lim) <==> n <= 12;
  }

  lemma GlobalsCount(n: nat)
    ensures |Globals(n)| == n
  {
  }
}
