/** The canonical binary form.  A schema says which primitive fields follow each other; encoding
    and decoding are driven by it.  Decoding what was encoded gives the value back with nothing
    consumed beyond it, exactly when every list passes the decoder's check that the rest of the
    payload can hold its declared number of elements. */
module Codec {
  import opened Wrappers
  import opened Bytes
  import opened Utf8

  datatype Limits = Limits(maxTotal: nat, maxText: nat, maxElements: nat)

  datatype Schema =
    | Flag                                       // bool: one byte, any nonzero byte reads as true
    | Small(max: nat)                            // u8 with a largest admissible value
    | Word                                       // u32
    | Number(largest: nat)                       // u64, or a narrower counter widened to it
    | Signed                                     // i64
    | Text(longest: nat)                         // length-prefixed UTF-8
    | Identity                                   // length-prefixed identity text, or empty
    | Fixed(size: nat)                           // raw bytes
    | Tag(name: seq<Byte>)                       // a text that must be this one
    | List(minimum: nat, element: Schema)        // u32 count, claimed minimum bytes per element
    | Then(head: Schema, tail: Schema)
    | Done

  datatype Value =
    | BoolV(b: bool) | NumV(n: nat) | IntV(i: int) | BytesV(bytes: seq<Byte>)
    | ListV(items: seq<Value>) | PairV(first: Value, second: Value) | UnitV

  const TWO_63: int := 0x8000_0000_0000_0000

  const TWO_64: nat := 0x1_0000_0000_0000_0000

  const TWO_32: nat := 0x1_0000_0000

  const MAX_IDENTITY: nat := 128

  predicate IsIdentityByte(b: Byte) {
    0x21 <= b <= 0x7E && b !in {
      0x22, 0x5C, 0x27, 0x60, 0x3C, 0x3E, 0x7C, 0x3F, 0x2A, 0x26, 0x5E, 0x25, 0x23, 0x21, 0x28, 0x29,
      0x5B, 0x5D, 0x7B, 0x7D, 0x2C, 0x3B, 0x24, 0x7E, 0x3D, 0x2B}
  }

  /** Identities are spelled with letters, digits and the marks - . / : @ _ alone. */
  lemma IdentitySpelling(b: Byte)
    ensures IsIdentityByte(b) <==>
      || 0x30 <= b <= 0x39 || 0x41 <= b <= 0x5A || 0x61 <= b <= 0x7A
      || b in [0x2D, 0x2E, 0x2F, 0x3A, 0x40, 0x5F]
  {
  }

  predicate IsIdentity(text: seq<Byte>) {
    0 < |text| <= MAX_IDENTITY && forall i :: 0 <= i < |text| ==> IsIdentityByte(text[i])
  }

  // ----- values of a schema -----

  ghost predicate TextOk(text: seq<Byte>, longest: nat, lim: Limits) {
    |text| < TWO_32 && |text| <= lim.maxText && |text| <= longest && IsUtf8(text)
  }

  /** The value has the schema's shape and is within the limits. */
  ghost predicate Matches(s: Schema, v: Value, lim: Limits)
    decreases s, 0
  {
    match s
    case Flag => v.BoolV?
    case Small(max) => v.NumV? && v.n <= max && v.n < 256
    case Word => v.NumV? && v.n < TWO_32
    case Number(largest) => v.NumV? && v.n <= largest && v.n < TWO_64
    case Signed => v.IntV? && -TWO_63 <= v.i < TWO_63
    case Text(longest) => v.BytesV? && TextOk(v.bytes, longest, lim)
    case Identity => v.BytesV? && (v.bytes == [] || IsIdentity(v.bytes)) && |v.bytes| <= lim.maxText
    case Fixed(size) => v.BytesV? && |v.bytes| == size
    case Tag(name) => v.UnitV? && TextOk(name, |name|, lim)
    case List(_, element) =>
      v.ListV? && |v.items| < TWO_32 && |v.items| <= lim.maxElements && AllMatch(element, v.items, lim)
    case Then(head, tail) => v.PairV? && Matches(head, v.first, lim) && Matches(tail, v.second, lim)
    case Done => v.UnitV?
  }

  ghost predicate AllMatch(e: Schema, items: seq<Value>, lim: Limits)
    decreases e, 1
  {
    forall i :: 0 <= i < |items| ==> Matches(e, items[i], lim)
  }

  // ----- encoding -----

  function EncodeText(text: seq<Byte>): seq<Byte> { Little(|text|, 4) + text }

  function TwosComplement(i: int): int { if i < 0 then i + TWO_64 else i }

  /** A signed number is written as the unsigned one that is equal to it modulo 2^64. */
  lemma SignedAsUnsigned(i: int)
    requires -TWO_63 <= i < TWO_63
    ensures 0 <= TwosComplement(i) < TWO_64 && (TwosComplement(i) - i) % TWO_64 == 0
  {
  }

  ghost function Encode(s: Schema, v: Value, lim: Limits): seq<Byte>
    requires Matches(s, v, lim)
    decreases s, 0
  {
    match s
    case Flag => [if v.b then 1 else 0]
    case Small(_) => [v.n]
    case Word => Little(v.n, 4)
    case Number(_) => Little(v.n, 8)
    case Signed => Little(TwosComplement(v.i), 8)
    case Text(_) => EncodeText(v.bytes)
    case Identity => EncodeText(v.bytes)
    case Fixed(_) => v.bytes
    case Tag(name) => EncodeText(name)
    case List(_, element) => Little(|v.items|, 4) + EncodeItems(element, v.items, lim)
    case Then(head, tail) => Encode(head, v.first, lim) + Encode(tail, v.second, lim)
    case Done => []
  }

  ghost function EncodeItems(e: Schema, items: seq<Value>, lim: Limits): seq<Byte>
    requires AllMatch(e, items, lim)
    decreases e, |items| + 1
  {
    if items == [] then [] else Encode(e, items[0], lim) + EncodeItems(e, items[1..], lim)
  }

  // ----- decoding -----

  datatype Decoded = Decoded(value: Value, rest: seq<Byte>)

  function Take(data: seq<Byte>, n: nat): Option<(seq<Byte>, seq<Byte>)> {
    if n <= |data| then Some((data[..n], data[n..])) else None
  }

  ghost function DecodeText(data: seq<Byte>, lim: Limits): Option<(seq<Byte>, seq<Byte>)> {
    if |data| < 4 then None
    else
      var n := FromLittle(data[..4]);
      if n > lim.maxText || n > |data| - 4 || !IsUtf8(data[4..4 + n]) then None
      else Some((data[4..4 + n], data[4 + n..]))
  }

  ghost function Decode(s: Schema, data: seq<Byte>, lim: Limits): Option<Decoded>
    decreases s, 0
  {
    match s
    case Flag => if data == [] then None else Some(Decoded(BoolV(data[0] != 0), data[1..]))
    case Small(max) => if data == [] || data[0] > max then None else Some(Decoded(NumV(data[0]), data[1..]))
    case Word => if |data| < 4 then None else Some(Decoded(NumV(FromLittle(data[..4])), data[4..]))
    case Number(largest) =>
      if |data| < 8 || FromLittle(data[..8]) > largest then None
      else Some(Decoded(NumV(FromLittle(data[..8])), data[8..]))
    case Signed =>
      if |data| < 8 then None
      else
        var n := FromLittle(data[..8]);
        Some(Decoded(IntV(if n >= TWO_63 then n - TWO_64 else n), data[8..]))
    case Text(longest) =>
      (match DecodeText(data, lim)
       case None => None
       case Some(t) => if |t.0| > longest then None else Some(Decoded(BytesV(t.0), t.1)))
    case Identity =>
      (match DecodeText(data, lim)
       case None => None
       case Some(t) => if t.0 != [] && !IsIdentity(t.0) then None else Some(Decoded(BytesV(t.0), t.1)))
    case Fixed(size) => if |data| < size then None else Some(Decoded(BytesV(data[..size]), data[size..]))
    case Tag(name) =>
      (match DecodeText(data, lim)
       case None => None
       case Some(t) => if t.0 != name then None else Some(Decoded(UnitV, t.1)))
    case List(minimum, element) =>
      if |data| < 4 then None
      else
        var count := FromLittle(data[..4]);
        if count > lim.maxElements || count * minimum > |data| - 4 then None
        else
          (match DecodeItems(element, count, data[4..], lim)
           case None => None
           case Some(t) => Some(Decoded(ListV(t.0), t.1)))
    case Then(head, tail) =>
      (match Decode(head, data, lim)
       case None => None
       case Some(h) =>
         match Decode(tail, h.rest, lim)
         case None => None
         case Some(t) => Some(Decoded(PairV(h.value, t.value), t.rest)))
    case Done => Some(Decoded(UnitV, data))
  }

  ghost function DecodeItems(e: Schema, n: nat, data: seq<Byte>, lim: Limits): Option<(seq<Value>, seq<Byte>)>
    decreases e, n + 1
  {
    if n == 0 then Some(([], data))
    else
      match Decode(e, data, lim)
      case None => None
      case Some(h) =>
        match DecodeItems(e, n - 1, h.rest, lim)
        case None => None
        case Some(t) => Some(([h.value] + t.0, t.1))
  }

  // ----- the counts that pass -----

  /** Every list, with `after` bytes of payload following this value, passes the size check. */
  ghost predicate Fits(s: Schema, v: Value, lim: Limits, after: nat)
    requires Matches(s, v, lim)
    decreases s, 0
  {
    match s
    case List(minimum, element) =>
      && |v.items| * minimum <= |EncodeItems(element, v.items, lim)| + after
      && ItemsFit(element, v.items, lim, after)
    case Then(head, tail) =>
      Fits(head, v.first, lim, |Encode(tail, v.second, lim)| + after) && Fits(tail, v.second, lim, after)
    case _ => true
  }

  ghost predicate ItemsFit(e: Schema, items: seq<Value>, lim: Limits, after: nat)
    requires AllMatch(e, items, lim)
    decreases e, |items| + 1
  {
    items == [] ||
      (Fits(e, items[0], lim, |EncodeItems(e, items[1..], lim)| + after) && ItemsFit(e, items[1..], lim, after))
  }

  // ----- round trip -----

  lemma TextRoundTrip(text: seq<Byte>, rest: seq<Byte>, lim: Limits)
    requires |text| < TWO_32 && |text| <= lim.maxText && IsUtf8(text)
    ensures DecodeText(EncodeText(text) + rest, lim) == Some((text, rest))
  {
    hide IsUtf8, Little, FromLittle;
    PowersInUse();
    LittleRoundTrip(|text|, 4);
    var data := EncodeText(text) + rest;
    assert data[..4] == Little(|text|, 4);
    assert data[4..4 + |text|] == text && data[4 + |text|..] == rest;
  }

  /** Identity texts are printable ASCII, hence UTF-8. */
  lemma {:induction false} AsciiIsUtf8(text: seq<Byte>)
    requires forall i :: 0 <= i < |text| ==> text[i] < 0x80
    ensures IsUtf8(text)
  {
    DecodableIsUtf8(text);
    if text == [] {
    } else {
      AsciiIsUtf8(text[1..]);
      DecodableIsUtf8(text[1..]);
      assert ReadOne(text) == Some(Read(1, text[0]));
    }
  }

  lemma IdentityIsUtf8(text: seq<Byte>)
    requires text == [] || IsIdentity(text)
    ensures IsUtf8(text) && |text| < TWO_32
  {
    AsciiIsUtf8(text);
  }

  lemma NumberRoundTrip(n: nat, k: nat, rest: seq<Byte>)
    requires n < Power(k)
    ensures var data := Little(n, k) + rest; |data| >= k && FromLittle(data[..k]) == n && data[k..] == rest
  {
    LittleRoundTrip(n, k);
    assert (Little(n, k) + rest)[..k] == Little(n, k);
  }

  /** A value without lists in it comes back. */
  lemma PrimitiveRoundTrip(s: Schema, v: Value, lim: Limits, rest: seq<Byte>)
    requires Matches(s, v, lim) && !s.List? && !s.Then?
    ensures Decode(s, Encode(s, v, lim) + rest, lim) == Some(Decoded(v, rest))
  {
    hide IsUtf8, IsIdentity, DecodeText, EncodeText, Little, FromLittle, Power;
    PowersInUse();
    match s
    case Word => NumberRoundTrip(v.n, 4, rest);
    case Number(_) => NumberRoundTrip(v.n, 8, rest);
    case Signed => NumberRoundTrip(TwosComplement(v.i), 8, rest);
    case Text(_) => TextRoundTrip(v.bytes, rest, lim);
    case Identity => IdentityIsUtf8(v.bytes); TextRoundTrip(v.bytes, rest, lim);
    case Tag(name) => TextRoundTrip(name, rest, lim);
    case Flag => assert ([if v.b then 1 else 0] + rest)[1..] == rest;
    case Small(_) => assert ([v.n] + rest)[1..] == rest;
    case Fixed(size) => assert (v.bytes + rest)[..size] == v.bytes && (v.bytes + rest)[size..] == rest;
    case Done => assert [] + rest == rest;
  }

  ghost predicate ComesBack(s: Schema, v: Value, lim: Limits, rest: seq<Byte>)
    requires Matches(s, v, lim)
  {
    Decode(s, Encode(s, v, lim) + rest, lim) == if Fits(s, v, lim, |rest|) then Some(Decoded(v, rest)) else None
  }

  lemma ThenComesBack(s: Schema, v: Value, lim: Limits, rest: seq<Byte>)
    requires s.Then? && Matches(s, v, lim)
    requires ComesBack(s.head, v.first, lim, Encode(s.tail, v.second, lim) + rest)
    requires ComesBack(s.tail, v.second, lim, rest)
    ensures ComesBack(s, v, lim, rest)
  {
    var a, b := Encode(s.head, v.first, lim), Encode(s.tail, v.second, lim);
    assert Encode(s, v, lim) + rest == a + (b + rest);
  }

  /** Encoding and then decoding gives the value back and leaves what follows untouched, exactly
      when the lists pass the size check; otherwise decoding fails. */
  lemma {:induction false} RoundTrip(s: Schema, v: Value, lim: Limits, rest: seq<Byte>)
    requires Matches(s, v, lim)
    ensures ComesBack(s, v, lim, rest)
    decreases s, 0
  {
    if s.Then? {
      hide ComesBack;
      RoundTrip(s.head, v.first, lim, Encode(s.tail, v.second, lim) + rest);
      RoundTrip(s.tail, v.second, lim, rest);
      ThenComesBack(s, v, lim, rest);
    } else if s.List? {
      hide ComesBack;
      ItemsRoundTrip(s.element, v.items, lim, rest);
      ListComesBack(s, v, lim, rest);
    } else {
      PrimitiveRoundTrip(s, v, lim, rest);
    }
  }

  ghost predicate ItemsComeBack(e: Schema, items: seq<Value>, lim: Limits, rest: seq<Byte>)
    requires AllMatch(e, items, lim)
  {
    DecodeItems(e, |items|, EncodeItems(e, items, lim) + rest, lim) ==
      if ItemsFit(e, items, lim, |rest|) then Some((items, rest)) else None
  }

  lemma ListComesBack(s: Schema, v: Value, lim: Limits, rest: seq<Byte>)
    requires s.List? && Matches(s, v, lim) && ItemsComeBack(s.element, v.items, lim, rest)
    ensures ComesBack(s, v, lim, rest)
  {
    hide Little, FromLittle, Power;
    var items := EncodeItems(s.element, v.items, lim);
    PowersInUse();
    assert Encode(s, v, lim) + rest == Little(|v.items|, 4) + (items + rest);
    NumberRoundTrip(|v.items|, 4, items + rest);
  }

  lemma FirstDecoded(e: Schema, first: Value, others: seq<Value>, data: seq<Byte>, after: seq<Byte>, rest: seq<Byte>,
                     lim: Limits)
    requires Decode(e, data, lim) == Some(Decoded(first, after))
    requires DecodeItems(e, |others|, after, lim) == Some((others, rest))
    ensures DecodeItems(e, |others| + 1, data, lim) == Some(([first] + others, rest))
  {
    hide Decode;
  }

  lemma NotAllDecoded(e: Schema, n: nat, data: seq<Byte>, lim: Limits)
    requires Decode(e, data, lim) == None || DecodeItems(e, n, Decode(e, data, lim).value.rest, lim) == None
    ensures DecodeItems(e, n + 1, data, lim) == None
  {
    hide Decode;
  }

  lemma FirstComesBack(e: Schema, items: seq<Value>, lim: Limits, rest: seq<Byte>)
    requires items != [] && AllMatch(e, items, lim)
    requires ComesBack(e, items[0], lim, EncodeItems(e, items[1..], lim) + rest)
    requires ItemsComeBack(e, items[1..], lim, rest)
    ensures ItemsComeBack(e, items, lim, rest)
  {
    hide Matches, Encode, Decode, Fits, DecodeItems;
    var a, b := Encode(e, items[0], lim), EncodeItems(e, items[1..], lim);
    var data, after := a + (b + rest), b + rest;
    assert EncodeItems(e, items, lim) + rest == data;
    if ItemsFit(e, items, lim, |rest|) {
      FirstDecoded(e, items[0], items[1..], data, after, rest, lim);
      assert items == [items[0]] + items[1..];
    } else {
      NotAllDecoded(e, |items| - 1, data, lim);
    }
  }

  lemma {:induction false} ItemsRoundTrip(e: Schema, items: seq<Value>, lim: Limits, rest: seq<Byte>)
    requires AllMatch(e, items, lim)
    ensures ItemsComeBack(e, items, lim, rest)
    decreases e, |items| + 1
  {
    if items == [] {
      assert EncodeItems(e, items, lim) + rest == rest;
    } else {
      hide ComesBack, ItemsComeBack;
      RoundTrip(e, items[0], lim, EncodeItems(e, items[1..], lim) + rest);
      ItemsRoundTrip(e, items[1..], lim, rest);
      FirstComesBack(e, items, lim, rest);
    }
  }

  // ----- unambiguous encodings -----

  /** The schema with every claimed minimum dropped: it encodes the same way. */
  function Lenient(s: Schema): Schema {
    match s
    case List(_, element) => List(0, Lenient(element))
    case Then(head, tail) => Then(Lenient(head), Lenient(tail))
    case _ => s
  }

  lemma {:induction false} LenientSame(s: Schema, v: Value, lim: Limits, after: nat)
    requires Matches(s, v, lim)
    ensures Matches(Lenient(s), v, lim) && Encode(Lenient(s), v, lim) == Encode(s, v, lim)
    ensures Fits(Lenient(s), v, lim, after)
    decreases s, 0
  {
    match s
    case List(_, element) => LenientItems(element, v.items, lim, after);
    case Then(head, tail) =>
      LenientSame(tail, v.second, lim, after);
      LenientSame(head, v.first, lim, |Encode(tail, v.second, lim)| + after);
    case _ =>
  }

  lemma {:induction false} LenientItems(e: Schema, items: seq<Value>, lim: Limits, after: nat)
    requires AllMatch(e, items, lim)
    ensures AllMatch(Lenient(e), items, lim) && EncodeItems(Lenient(e), items, lim) == EncodeItems(e, items, lim)
    ensures ItemsFit(Lenient(e), items, lim, after)
    decreases e, |items| + 1
  {
    if items != [] {
      LenientItems(e, items[1..], lim, after);
      LenientSame(e, items[0], lim, |EncodeItems(e, items[1..], lim)| + after);
    }
  }

  /** Two values of one schema never share an encoding, not even with different bytes after it;
      so a digest of the canonical form, where digests do not collide, determines the value. */
  lemma EncodeInjective(s: Schema, a: Value, b: Value, lim: Limits, restA: seq<Byte>, restB: seq<Byte>)
    requires Matches(s, a, lim) && Matches(s, b, lim)
    requires Encode(s, a, lim) + restA == Encode(s, b, lim) + restB
    ensures a == b && restA == restB
  {
    hide Matches, Encode, Fits, Decode;
    LenientSame(s, a, lim, |restA|);
    LenientSame(s, b, lim, |restB|);
    RoundTrip(Lenient(s), a, lim, restA);
    RoundTrip(Lenient(s), b, lim, restB);
  }

  // ----- when the size check is harmless -----

  /** The fewest bytes a value of the schema takes. */
  function MinBytes(s: Schema): nat {
    match s
    case Flag => 1
    case Small(_) => 1
    case Word => 4
    case Number(_) => 8
    case Signed => 8
    case Text(_) => 4
    case Identity => 4
    case Fixed(size) => size
    case Tag(name) => 4 + |name|
    case List(_, _) => 4
    case Then(head, tail) => MinBytes(head) + MinBytes(tail)
    case Done => 0
  }

  /** Every list claims no more than its elements really take. */
  predicate Honest(s: Schema) {
    match s
    case List(minimum, element) => minimum <= MinBytes(element) && Honest(element)
    case Then(head, tail) => Honest(head) && Honest(tail)
    case _ => true
  }

  lemma {:induction false} MinBytesHold(s: Schema, v: Value, lim: Limits)
    requires Matches(s, v, lim)
    ensures |Encode(s, v, lim)| >= MinBytes(s)
  {
    if s.Then? {
      MinBytesHold(s.head, v.first, lim);
      MinBytesHold(s.tail, v.second, lim);
    }
  }

  lemma {:induction false} ItemsTake(e: Schema, items: seq<Value>, lim: Limits, minimum: nat)
    requires AllMatch(e, items, lim) && minimum <= MinBytes(e)
    ensures |EncodeItems(e, items, lim)| >= |items| * minimum
    decreases |items|
  {
    hide Encode, Matches, MinBytes;
    if items != [] {
      MinBytesHold(e, items[0], lim);
      ItemsTake(e, items[1..], lim, minimum);
      assert |items| * minimum == minimum + |items[1..]| * minimum;
    }
  }

  /** With honest minimums every value within the limits fits, so it always comes back. */
  lemma {:induction false} HonestFits(s: Schema, v: Value, lim: Limits, after: nat)
    requires Honest(s) && Matches(s, v, lim)
    ensures Fits(s, v, lim, after)
    decreases s, 0
  {
    match s
    case List(minimum, element) =>
      ItemsTake(element, v.items, lim, minimum);
      HonestItemsFit(element, v.items, lim, after);
    case Then(head, tail) =>
      HonestFits(head, v.first, lim, |Encode(tail, v.second, lim)| + after);
      HonestFits(tail, v.second, lim, after);
    case _ =>
  }

  lemma {:induction false} HonestItemsFit(e: Schema, items: seq<Value>, lim: Limits, after: nat)
    requires Honest(e) && AllMatch(e, items, lim)
    ensures ItemsFit(e, items, lim, after)
    decreases e, |items| + 1
  {
    if items != [] {
      HonestFits(e, items[0], lim, |EncodeItems(e, items[1..], lim)| + after);
      HonestItemsFit(e, items[1..], lim, after);
    }
  }

  // ----- where the size check bites -----

  /** A list met in a value, the bytes per element its decoder claims, and how many bytes of payload
      follow it. */
  datatype Listing = Listing(minimum: nat, element: Schema, items: seq<Value>, after: nat)

  /** The lists in a value whose claim exceeds what an element takes at least. */
  ghost function Overclaims(s: Schema, v: Value, lim: Limits, after: nat): seq<Listing>
    requires Matches(s, v, lim)
    decreases s, 0
  {
    match s
    case List(minimum, element) =>
      (if minimum <= MinBytes(element) then [] else [Listing(minimum, element, v.items, after)])
      + ItemsOverclaim(element, v.items, lim, after)
    case Then(head, tail) =>
      Overclaims(head, v.first, lim, |Encode(tail, v.second, lim)| + after) + Overclaims(tail, v.second, lim, after)
    case _ => []
  }

  ghost function ItemsOverclaim(e: Schema, items: seq<Value>, lim: Limits, after: nat): seq<Listing>
    requires AllMatch(e, items, lim)
    decreases e, |items| + 1
  {
    if items == [] then []
    else
      Overclaims(e, items[0], lim, |EncodeItems(e, items[1..], lim)| + after)
      + ItemsOverclaim(e, items[1..], lim, after)
  }

  /** The list passes the size check. */
  ghost predicate Passes(l: Listing, lim: Limits) {
    AllMatch(l.element, l.items, lim) && |l.items| * l.minimum <= |EncodeItems(l.element, l.items, lim)| + l.after
  }

  ghost predicate AllPass(ls: seq<Listing>, lim: Limits) {
    forall i :: 0 <= i < |ls| ==> Passes(ls[i], lim)
  }

  lemma AllPassBoth(a: seq<Listing>, b: seq<Listing>, lim: Limits)
    ensures AllPass(a + b, lim) <==> AllPass(a, lim) && AllPass(b, lim)
  {
    hide Passes;
    if AllPass(a + b, lim) {
      forall i | 0 <= i < |a| ensures Passes(a[i], lim) { assert (a + b)[i] == a[i]; }
      forall i | 0 <= i < |b| ensures Passes(b[i], lim) { assert (a + b)[|a| + i] == b[i]; }
    }
  }

  /** A value comes back exactly when the lists that claim too much pass. */
  lemma {:induction false} OverclaimsDecide(s: Schema, v: Value, lim: Limits, after: nat)
    requires Matches(s, v, lim)
    ensures Fits(s, v, lim, after) <==> AllPass(Overclaims(s, v, lim, after), lim)
    decreases s, 0
  {
    hide AllPass, Encode;
    match s
    case List(minimum, element) =>
      ItemsDecide(element, v.items, lim, after);
      var own := if minimum <= MinBytes(element) then [] else [Listing(minimum, element, v.items, after)];
      AllPassBoth(own, ItemsOverclaim(element, v.items, lim, after), lim);
      OwnPasses(minimum, element, v.items, lim, after);
    case Then(head, tail) =>
      var more := |Encode(tail, v.second, lim)| + after;
      OverclaimsDecide(head, v.first, lim, more);
      OverclaimsDecide(tail, v.second, lim, after);
      AllPassBoth(Overclaims(head, v.first, lim, more), Overclaims(tail, v.second, lim, after), lim);
    case _ => NonePass(lim);
  }

  lemma NonePass(lim: Limits)
    ensures AllPass([], lim)
  {
  }

  lemma OwnPasses(minimum: nat, element: Schema, items: seq<Value>, lim: Limits, after: nat)
    requires AllMatch(element, items, lim)
    ensures AllPass(if minimum <= MinBytes(element) then [] else [Listing(minimum, element, items, after)], lim)
      <==> |items| * minimum <= |EncodeItems(element, items, lim)| + after
  {
    hide Matches, AllMatch, MinBytes, EncodeItems;
    if minimum <= MinBytes(element) {
      ItemsTake(element, items, lim, minimum);
    } else {
      var l := Listing(minimum, element, items, after);
      assert [l][0] == l;
      assert Passes(l, lim) <==> |items| * minimum <= |EncodeItems(element, items, lim)| + after;
    }
  }

  lemma {:induction false} ItemsDecide(e: Schema, items: seq<Value>, lim: Limits, after: nat)
    requires AllMatch(e, items, lim)
    ensures ItemsFit(e, items, lim, after) <==> AllPass(ItemsOverclaim(e, items, lim, after), lim)
    decreases e, |items| + 1
  {
    hide AllPass, Encode;
    if items == [] {
      NonePass(lim);
    } else {
      var more := |EncodeItems(e, items[1..], lim)| + after;
      OverclaimsDecide(e, items[0], lim, more);
      ItemsDecide(e, items[1..], lim, after);
      AllPassBoth(Overclaims(e, items[0], lim, more), ItemsOverclaim(e, items[1..], lim, after), lim);
    }
  }
}
