/** Parsing what was written. */
module JsonRoundTrip {
  import opened Wrappers
  import opened Bytes
  import U = Utf8
  import opened Json

  // ----- what can be written and read back -----

  /** A signed number that is not negative reads back as unsigned; everything else is unchanged. */
  function Normal(v: Value): Value
    decreases v
  {
    match v
    case Int(i) => if i < 0 then v else UInt(i)
    case Arr(items) => Arr(NormalItems(items))
    case Obj(members) => Obj(NormalMembers(members))
    case _ => v
  }

  function NormalItems(items: Items): Items
    decreases items
  {
    match items case End => End case Item(head, tail) => Item(Normal(head), NormalItems(tail))
  }

  function NormalMembers(ms: Members): Members
    decreases ms
  {
    match ms case NoMore => NoMore case Member(key, value, rest) => Member(key, Normal(value), NormalMembers(rest))
  }

  ghost predicate StringOk(text: seq<Byte>, lim: Limits) { U.IsUtf8(text) && |text| <= lim.maxString }

  function Count(items: Items): nat { match items case End => 0 case Item(_, tail) => 1 + Count(tail) }

  function CountMembers(ms: Members): nat {
    match ms case NoMore => 0 case Member(_, _, rest) => 1 + CountMembers(rest)
  }

  /** No reals, numbers of 64 bits, well-formed strings, ascending keys, and everything within the
      limits when it stands `depth` levels deep. */
  ghost predicate Writable(v: Value, depth: nat, lim: Limits)
    decreases v
  {
    && depth <= lim.maxDepth
    && match v
       case Null => true
       case Bool(_) => true
       case Int(i) => -MAX_INT - 1 <= i <= MAX_INT
       case UInt(n) => n <= MAX_UINT
       case Real(_) => false
       case Str(text) => StringOk(text, lim)
       case Arr(items) => Count(items) <= lim.maxElements && WritableItems(items, depth + 1, lim)
       case Obj(ms) => CountMembers(ms) <= lim.maxElements && KeysRise(ms) && WritableMembers(ms, depth + 1, lim)
  }

  ghost predicate WritableItems(items: Items, depth: nat, lim: Limits)
    decreases items
  {
    items.Item? ==> Writable(items.head, depth, lim) && WritableItems(items.tail, depth, lim)
  }

  ghost predicate WritableMembers(ms: Members, depth: nat, lim: Limits)
    decreases ms
  {
    ms.Member? ==> StringOk(ms.key, lim) && Writable(ms.value, depth, lim) && WritableMembers(ms.rest, depth, lim)
  }

  /** What may follow a number: nothing that would continue it. */
  predicate Stops(rest: seq<Byte>) {
    rest == [] || (!IsDigit(rest[0]) && rest[0] != 0x2E && rest[0] != 0x65 && rest[0] != 0x45)
  }

  // ----- strings -----

  lemma EscapeByteReads(b: Byte, tail: seq<Byte>)
    ensures var text := EscapeByte(b) + tail; text[0] != QUOTE && OnePiece(text) == Some(Piece([b], tail))
  {
    var text := EscapeByte(b) + tail;
    if |EscapeByte(b)| == 6 {
      ControlReads(b, tail);
    } else if |EscapeByte(b)| == 2 {
      assert text[2..] == tail;
    } else {
      assert text[1..] == tail;
    }
  }

  lemma ControlReads(b: Byte, tail: seq<Byte>)
    requires b < 0x20
    ensures var text: seq<Byte> := [BACKSLASH, 0x75, 0x30, 0x30, HexChar(b / 16), HexChar(b % 16)] + tail;
      OnePiece(text) == Some(Piece([b], tail))
  {
    var text: seq<Byte> := [BACKSLASH, 0x75, 0x30, 0x30, HexChar(b / 16), HexChar(b % 16)] + tail;
    var digits := text[2..];
    assert digits[0] == 0x30 && digits[1] == 0x30 && digits[2] == HexChar(b / 16) && digits[3] == HexChar(b % 16);
    assert HexDigit(HexChar(b / 16)) == Some(b / 16) && HexDigit(HexChar(b % 16)) == Some(b % 16);
    assert Hex4(digits) == Some(b);
    assert digits[4..] == tail;
  }

  lemma {:induction false} BodyReads(text: seq<Byte>, sofar: seq<Byte>, rest: seq<Byte>, lim: Limits)
    requires U.IsUtf8(sofar + text) && |sofar + text| <= lim.maxString
    ensures StringBody(EscapeBody(text) + ([QUOTE] + rest), sofar, lim) == Some(Piece(sofar + text, rest))
    decreases |text|
  {
    hide U.IsUtf8, OnePiece, EscapeByte;
    var after: seq<Byte> := [QUOTE] + rest;
    if text == [] {
      assert EscapeBody(text) + after == after && sofar + text == sofar;
    } else {
      var tail := EscapeBody(text[1..]) + after;
      assert EscapeBody(text) + after == EscapeByte(text[0]) + tail;
      EscapeByteReads(text[0], tail);
      assert sofar + text == (sofar + [text[0]]) + text[1..];
      BodyReads(text[1..], sofar + [text[0]], rest, lim);
    }
  }

  /** A written string reads back. */
  lemma StringReads(text: seq<Byte>, rest: seq<Byte>, lim: Limits)
    requires StringOk(text, lim)
    ensures var written := WriteString(text) + rest;
      written != [] && written[0] == QUOTE && StringBody(written[1..], [], lim) == Some(Piece(text, rest))
  {
    hide U.IsUtf8;
    var written := WriteString(text) + rest;
    assert written[1..] == EscapeBody(text) + ([QUOTE] + rest);
    assert [] + text == text;
    BodyReads(text, [], rest, lim);
  }

  // ----- numbers -----

  lemma {:induction false} RunOf(digits: seq<Byte>, rest: seq<Byte>)
    requires (forall i :: 0 <= i < |digits| ==> IsDigit(digits[i])) && Stops(rest)
    ensures DigitRun(digits + rest) == |digits|
  {
    if digits == [] {
      assert digits + rest == rest;
    } else {
      assert (digits + rest)[1..] == digits[1..] + rest;
      RunOf(digits[1..], rest);
    }
  }

  lemma {:induction false} DigitsValue(n: nat)
    ensures DecimalValue(Digits(n)) == n
  {
    if n < 10 {
      assert Digits(n)[..0] == [];
    } else {
      DigitsValue(n / 10);
      assert Digits(n)[..|Digits(n)| - 1] == Digits(n / 10);
    }
  }

  lemma WholeReads(n: nat, rest: seq<Byte>)
    requires Stops(rest)
    ensures var body := Digits(n) + rest; var k := |Digits(n)|;
      IntegerRun(body) == k && body[..k] == Digits(n) && body[k..] == rest
  {
    RunOf(Digits(n), rest);
    var body := Digits(n) + rest;
    assert body[0] == Digits(n)[0];
  }

  lemma NothingFollows(rest: seq<Byte>)
    requires Stops(rest)
    ensures FractionRun(rest) == Some(0) && ExponentRun(rest) == Some(0)
  {
  }

  lemma UnsignedReads(n: nat, rest: seq<Byte>, lim: Limits)
    requires n <= MAX_UINT && Stops(rest)
    ensures Number(Digits(n) + rest, lim) == Some(Parsed(UInt(n), rest))
  {
    hide IntegerRun, FractionRun, ExponentRun, DecimalValue, Digits;
    var text := Digits(n) + rest;
    assert IsDigit(text[0]) by { assert text[0] == Digits(n)[0]; }
    WholeReads(n, rest);
    NothingFollows(rest);
    DigitsValue(n);
    assert text[0..] == text;
    assert NumberShape(text) == Some(Shape(0, |Digits(n)|, 0));
  }

  lemma NegativeReads(n: nat, rest: seq<Byte>, lim: Limits)
    requires 0 < n <= MAX_INT + 1 && Stops(rest)
    ensures Number([MINUS] + Digits(n) + rest, lim) == Some(Parsed(Int(0 - n as int), rest))
  {
    hide IntegerRun, FractionRun, ExponentRun, DecimalValue, Digits;
    var text := [MINUS] + Digits(n) + rest;
    assert text[1..] == Digits(n) + rest;
    WholeReads(n, rest);
    NothingFollows(rest);
    DigitsValue(n);
    assert NumberShape(text) == Some(Shape(1, |Digits(n)|, 0));
    assert text[1 + |Digits(n)|..] == rest;
  }

  // ----- space -----

  lemma {:induction false} SkipSpaces(n: nat, t: seq<Byte>)
    requires t != [] ==> !IsSpace(t[0])
    ensures Skip(Spaces(n) + t) == t
  {
    if n == 0 {
      assert Spaces(n) + t == t;
    } else {
      assert (Spaces(n) + t)[1..] == Spaces(n - 1) + t;
      SkipSpaces(n - 1, t);
    }
  }

  lemma SkipLine(pretty: bool, indent: nat, t: seq<Byte>)
    requires t != [] ==> !IsSpace(t[0])
    ensures Skip(Line(pretty, indent) + t) == t
  {
    if pretty {
      assert (Line(pretty, indent) + t)[1..] == Spaces(indent) + t;
      SkipSpaces(indent, t);
    } else {
      assert Line(pretty, indent) + t == t;
    }
  }

  lemma SkipGap(pretty: bool, t: seq<Byte>)
    requires t != [] ==> !IsSpace(t[0])
    ensures Skip(Gap(pretty) + t) == t
  {
    if pretty { assert (Gap(pretty) + t)[1..] == t; } else { assert Gap(pretty) + t == t; }
  }

  /** A written value starts with something that is neither space nor a closing bracket. */
  lemma WriteStarts(v: Value, pretty: bool, indent: nat, depth: nat, lim: Limits)
    requires Writable(v, depth, lim)
    ensures var w := Write(v, pretty, indent); w != [] && !IsSpace(w[0]) && w[0] != CLOSE_ARRAY && w[0] != CLOSE_OBJECT
  {
    match v
    case Int(i) => if i >= 0 { DigitFirst(i); }
    case UInt(n) => DigitFirst(n);
    case _ =>
  }

  lemma DigitFirst(n: nat)
    ensures IsDigit(Digits(n)[0])
  {
  }

  // ----- values -----

  ghost predicate ReadsBack(v: Value, pretty: bool, indent: nat, depth: nat, lim: Limits, rest: seq<Byte>) {
    ParseValue(Write(v, pretty, indent) + rest, depth, lim) == Some(Parsed(Normal(v), rest))
  }

  lemma LiteralReads(literal: seq<Byte>, value: Value, rest: seq<Byte>)
    requires literal != []
    ensures Literal(literal + rest, literal, value) == Some(Parsed(value, rest))
  {
    assert (literal + rest)[..|literal|] == literal && (literal + rest)[|literal|..] == rest;
  }

  lemma StringValue(text: seq<Byte>, p: Piece, depth: nat, lim: Limits)
    requires text != [] && text[0] == QUOTE && depth <= lim.maxDepth && StringBody(text[1..], [], lim) == Some(p)
    ensures ParseValue(text, depth, lim) == Some(Parsed(Str(p.bytes), p.rest))
  {
    hide StringBody, ParseObject, ParseArray, Number, Literal;
  }

  lemma ScalarReads(v: Value, pretty: bool, indent: nat, depth: nat, lim: Limits, rest: seq<Byte>)
    requires Writable(v, depth, lim) && !v.Arr? && !v.Obj? && Stops(rest)
    ensures ReadsBack(v, pretty, indent, depth, lim, rest)
  {
    hide Number, StringBody, Digits, WriteString, Literal;
    match v
    case Null => LiteralReads(NULL_TEXT, Null, rest);
    case Bool(b) => LiteralReads(if b then TRUE_TEXT else FALSE_TEXT, v, rest);
    case Int(i) =>
      if i < 0 {
        NegativeReads(-i, rest, lim);
        assert Write(v, pretty, indent) + rest == [MINUS] + Digits(-i) + rest;
      } else {
        UnsignedReads(i, rest, lim);
        DigitFirst(i);
        assert (Digits(i) + rest)[0] == Digits(i)[0];
      }
    case UInt(n) =>
      UnsignedReads(n, rest, lim);
      DigitFirst(n);
      assert (Digits(n) + rest)[0] == Digits(n)[0];
    case Str(text) =>
      StringReads(text, rest, lim);
      assert Write(v, pretty, indent) + rest == WriteString(text) + rest;
      StringValue(WriteString(text) + rest, Piece(text, rest), depth, lim);
  }

  // ----- arrays -----

  /** What follows the last element of an array or object. */
  function Closing(pretty: bool, indent: nat, bracket: Byte, rest: seq<Byte>): seq<Byte> {
    Line(pretty, indent) + ([bracket] + rest)
  }

  lemma ClosingStops(pretty: bool, indent: nat, bracket: Byte, rest: seq<Byte>)
    requires bracket == CLOSE_ARRAY || bracket == CLOSE_OBJECT
    ensures Stops(Closing(pretty, indent, bracket, rest))
    ensures Skip(Closing(pretty, indent, bracket, rest)) == [bracket] + rest
  {
    SkipLine(pretty, indent, [bracket] + rest);
    var c := Closing(pretty, indent, bracket, rest);
    assert c[0] == if pretty then NEWLINE else bracket;
  }

  /** The text of some elements with what follows them, in the shape the parser takes it apart. */
  lemma ItemsShape(items: Items, pretty: bool, indent: nat, after: seq<Byte>)
    requires items.Item?
    ensures WriteItems(items, pretty, indent) + after ==
      Line(pretty, indent) + (Write(items.head, pretty, indent)
        + (if items.tail.End? then after else [COMMA] + (WriteItems(items.tail, pretty, indent) + after)))
  {
    hide Write, Line;
  }

  lemma SeparatorReads(pretty: bool, outer: nat, bracket: Byte, rest: seq<Byte>)
    requires bracket == CLOSE_ARRAY || bracket == CLOSE_OBJECT
    ensures Separator(Closing(pretty, outer, bracket, rest), bracket) == Some((false, rest))
  {
    hide Closing, Skip;
    ClosingStops(pretty, outer, bracket, rest);
    assert ([bracket] + rest)[1..] == rest;
  }

  lemma CommaReads(more: seq<Byte>, close: Byte)
    ensures Separator([COMMA] + more, close) == Some((true, more)) && Stops([COMMA] + more)
  {
    SkipNothing([COMMA] + more);
    assert ([COMMA] + more)[1..] == more;
  }

  lemma {:induction false} ItemsRead(items: Items, count: nat, pretty: bool, indent: nat, outer: nat, depth: nat,
                                     lim: Limits, rest: seq<Byte>)
    requires items.Item? && WritableItems(items, depth + 1, lim) && count + Count(items) <= lim.maxElements
    ensures ParseItems(WriteItems(items, pretty, indent) + Closing(pretty, outer, CLOSE_ARRAY, rest), count, depth, lim)
      == Some(ParsedItems(NormalItems(items), rest))
    decreases items, 0
  {
    hide ParseValue, Write, Line, Writable, Skip, Closing, Separator, Stops;
    var close := Closing(pretty, outer, CLOSE_ARRAY, rest);
    var more := WriteItems(items.tail, pretty, indent) + close;
    var after := if items.tail.End? then close else [COMMA] + more;
    ItemsShape(items, pretty, indent, close);
    WriteStarts(items.head, pretty, indent, depth + 1, lim);
    SkipLine(pretty, indent, Write(items.head, pretty, indent) + after);
    ClosingStops(pretty, outer, CLOSE_ARRAY, rest);
    CommaReads(more, CLOSE_ARRAY);
    SeparatorReads(pretty, outer, CLOSE_ARRAY, rest);
    ValueReads(items.head, pretty, indent, depth + 1, lim, after);
    assert ReadsBack(items.head, pretty, indent, depth + 1, lim, after);
    if items.tail.Item? { ItemsRead(items.tail, count + 1, pretty, indent, outer, depth, lim, rest); }
  }

  lemma SkipNothing(t: seq<Byte>)
    requires t != [] && !IsSpace(t[0])
    ensures Skip(t) == t
  {
  }

  /** Skipping the line before the first element changes nothing for what comes after. */
  lemma {:induction false} SkipTwice(t: seq<Byte>)
    ensures Skip(Skip(t)) == Skip(t)
  {
    if t != [] && IsSpace(t[0]) { SkipTwice(t[1..]); }
  }

  lemma ItemsSkip(text: seq<Byte>, count: nat, depth: nat, lim: Limits)
    ensures ParseItems(Skip(text), count, depth, lim) == ParseItems(text, count, depth, lim)
  {
    hide ParseValue, Skip, Separator;
    SkipTwice(text);
  }

  lemma ArrayReads(items: Items, pretty: bool, indent: nat, depth: nat, lim: Limits, rest: seq<Byte>)
    requires Writable(Arr(items), depth, lim)
    requires items.Item? ==>
      ParseItems(WriteItems(items, pretty, indent + 2) + Closing(pretty, indent, CLOSE_ARRAY, rest), 0, depth, lim)
        == Some(ParsedItems(NormalItems(items), rest))
    ensures ReadsBack(Arr(items), pretty, indent, depth, lim, rest)
  {
    hide ParseItems, Skip, Line, WriteItems;
    var text := Write(Arr(items), pretty, indent) + rest;
    if items.End? {
      assert text[1..] == [CLOSE_ARRAY] + rest;
      SkipNothing(text[1..]);
      assert text[1..][1..] == rest;
      assert text[0] == OPEN_ARRAY && ParseArray(text[1..], depth, lim) == Some(Parsed(Arr(End), rest));
    } else {
      var body := WriteItems(items, pretty, indent + 2) + Closing(pretty, indent, CLOSE_ARRAY, rest);
      assert text[0] == OPEN_ARRAY && text[1..] == body;
      FirstElement(items, pretty, indent + 2, depth + 1, lim, Closing(pretty, indent, CLOSE_ARRAY, rest));
      ItemsSkip(body, 0, depth, lim);
      assert ParseArray(body, depth, lim) == Some(Parsed(Arr(NormalItems(items)), rest));
    }
  }

  lemma FirstElement(items: Items, pretty: bool, indent: nat, depth: nat, lim: Limits, after: seq<Byte>)
    requires items.Item? && WritableItems(items, depth, lim)
    ensures var t := Skip(WriteItems(items, pretty, indent) + after); t != [] && t[0] != CLOSE_ARRAY
  {
    hide Write, Line, Skip;
    ItemsShape(items, pretty, indent, after);
    WriteStarts(items.head, pretty, indent, depth, lim);
    var more := if items.tail.End? then after else [COMMA] + (WriteItems(items.tail, pretty, indent) + after);
    SkipLine(pretty, indent, Write(items.head, pretty, indent) + more);
  }

  // ----- objects -----

  lemma MembersShape(ms: Members, pretty: bool, indent: nat, after: seq<Byte>)
    requires ms.Member?
    ensures WriteMembers(ms, pretty, indent) + after ==
      Line(pretty, indent) + (WriteString(ms.key) + ([COLON] + (Gap(pretty) + (Write(ms.value, pretty, indent)
        + (if ms.rest.NoMore? then after else [COMMA] + (WriteMembers(ms.rest, pretty, indent) + after))))))
  {
    hide Write, Line, WriteString, Gap;
  }

  lemma KeyReads(key: seq<Byte>, pretty: bool, indent: nat, value: seq<Byte>, lim: Limits)
    requires StringOk(key, lim) && value != [] && !IsSpace(value[0])
    ensures ParseKey(Line(pretty, indent) + (WriteString(key) + ([COLON] + (Gap(pretty) + value))), lim) ==
      Some(Piece(key, value))
  {
    hide Line, Skip, StringBody, WriteString, Gap, StringOk;
    var colon := [COLON] + (Gap(pretty) + value);
    StringReads(key, colon, lim);
    SkipLine(pretty, indent, WriteString(key) + colon);
    SkipNothing(colon);
    assert colon[1..] == Gap(pretty) + value;
    SkipGap(pretty, value);
  }

  lemma {:induction false} MembersRead(ms: Members, count: nat, pretty: bool, indent: nat, outer: nat, depth: nat,
                                       lim: Limits, rest: seq<Byte>)
    requires ms.Member? && WritableMembers(ms, depth + 1, lim) && count + CountMembers(ms) <= lim.maxElements
    ensures ParseMembers(WriteMembers(ms, pretty, indent) + Closing(pretty, outer, CLOSE_OBJECT, rest),
                         count, depth, lim)
      == Some(ParsedMembers(NormalMembers(ms), rest))
    decreases ms, 0
  {
    hide ParseValue, ParseKey, Write, Line, Writable, Skip, Closing, WriteString, Gap, StringOk, Separator, Stops;
    var close := Closing(pretty, outer, CLOSE_OBJECT, rest);
    var more := WriteMembers(ms.rest, pretty, indent) + close;
    var after := if ms.rest.NoMore? then close else [COMMA] + more;
    var value := Write(ms.value, pretty, indent) + after;
    MembersShape(ms, pretty, indent, close);
    WriteStarts(ms.value, pretty, indent, depth + 1, lim);
    KeyReads(ms.key, pretty, indent, value, lim);
    ClosingStops(pretty, outer, CLOSE_OBJECT, rest);
    CommaReads(more, CLOSE_OBJECT);
    SeparatorReads(pretty, outer, CLOSE_OBJECT, rest);
    ValueReads(ms.value, pretty, indent, depth + 1, lim, after);
    assert ReadsBack(ms.value, pretty, indent, depth + 1, lim, after);
    if ms.rest.Member? { MembersRead(ms.rest, count + 1, pretty, indent, outer, depth, lim, rest); }
  }

  lemma MembersSkip(text: seq<Byte>, count: nat, depth: nat, lim: Limits)
    ensures ParseMembers(Skip(text), count, depth, lim) == ParseMembers(text, count, depth, lim)
  {
    hide ParseValue, Skip, StringBody, Separator;
    SkipTwice(text);
  }

  lemma {:induction false} NormalRises(ms: Members)
    requires KeysRise(ms)
    ensures KeysRise(NormalMembers(ms))
    decreases ms
  {
    if ms.Member? { NormalRises(ms.rest); }
  }

  lemma ObjectReads(ms: Members, pretty: bool, indent: nat, depth: nat, lim: Limits, rest: seq<Byte>)
    requires Writable(Obj(ms), depth, lim)
    requires ms.Member? ==>
      ParseMembers(WriteMembers(ms, pretty, indent + 2) + Closing(pretty, indent, CLOSE_OBJECT, rest), 0, depth, lim)
        == Some(ParsedMembers(NormalMembers(ms), rest))
    ensures ReadsBack(Obj(ms), pretty, indent, depth, lim, rest)
  {
    hide ParseMembers, Skip, Line, WriteMembers, SortMembers, HasDuplicate, KeysRise;
    var text := Write(Obj(ms), pretty, indent) + rest;
    if ms.NoMore? {
      assert text[1..] == [CLOSE_OBJECT] + rest;
      SkipNothing(text[1..]);
      assert text[1..][1..] == rest;
      assert text[0] == OPEN_OBJECT && ParseObject(text[1..], depth, lim) == Some(Parsed(Obj(NoMore), rest));
    } else {
      var body := WriteMembers(ms, pretty, indent + 2) + Closing(pretty, indent, CLOSE_OBJECT, rest);
      assert text[0] == OPEN_OBJECT && text[1..] == body;
      FirstMember(ms, pretty, indent + 2, Closing(pretty, indent, CLOSE_OBJECT, rest));
      MembersSkip(body, 0, depth, lim);
      NormalRises(ms);
      RisingMembersStay(NormalMembers(ms));
      assert ParseObject(body, depth, lim) == Some(Parsed(Obj(NormalMembers(ms)), rest));
    }
  }

  lemma FirstMember(ms: Members, pretty: bool, indent: nat, after: seq<Byte>)
    requires ms.Member?
    ensures var t := Skip(WriteMembers(ms, pretty, indent) + after); t != [] && t[0] != CLOSE_OBJECT
  {
    hide Write, Line, Skip;
    MembersShape(ms, pretty, indent, after);
    var more := [COLON] + (Gap(pretty) + (Write(ms.value, pretty, indent)
      + (if ms.rest.NoMore? then after else [COMMA] + (WriteMembers(ms.rest, pretty, indent) + after))));
    SkipLine(pretty, indent, WriteString(ms.key) + more);
  }

  // ----- the main result -----

  /** A written value, followed by anything that cannot continue a number, reads back as itself
      with nothing consumed beyond it. */
  lemma {:induction false} ValueReads(v: Value, pretty: bool, indent: nat, depth: nat, lim: Limits, rest: seq<Byte>)
    requires Writable(v, depth, lim) && Stops(rest)
    ensures ReadsBack(v, pretty, indent, depth, lim, rest)
    decreases v, 0
  {
    hide ReadsBack, ParseItems, ParseMembers;
    match v
    case Arr(items) =>
      if items.Item? { ItemsRead(items, 0, pretty, indent + 2, indent, depth, lim, rest); }
      ArrayReads(items, pretty, indent, depth, lim, rest);
    case Obj(ms) =>
      if ms.Member? { MembersRead(ms, 0, pretty, indent + 2, indent, depth, lim, rest); }
      ObjectReads(ms, pretty, indent, depth, lim, rest);
    case _ => ScalarReads(v, pretty, indent, depth, lim, rest);
  }

  /** Parsing a written document gives the value back, up to the sign kind of numbers that are not
      negative, compact or pretty. */
  lemma DocumentRoundTrip(v: Value, pretty: bool, lim: Limits)
    requires Writable(v, 0, lim) && |WriteDocument(v, pretty)| <= lim.maxBytes
    ensures ParseDocument(WriteDocument(v, pretty), lim) == Some(Normal(v))
  {
    hide Write, ParseValue, Writable, Skip;
    var end: seq<Byte> := if pretty then [NEWLINE] else [];
    WriteStarts(v, pretty, 0, 0, lim);
    SkipNothing(WriteDocument(v, pretty));
    ValueReads(v, pretty, 0, 0, lim, end);
    assert ReadsBack(v, pretty, 0, 0, lim, end);
    SkipEnd(pretty);
  }

  lemma SkipEnd(pretty: bool)
    ensures Skip(if pretty then [NEWLINE] else []) == []
  {
    if pretty { assert [NEWLINE][1..] == []; }
  }

  /** A number stored as signed though it is not negative is the one thing that changes kind. */
  predicate SignsMatter(v: Value)
    decreases v
  {
    match v
    case Int(i) => i >= 0
    case Arr(items) => SignsMatterItems(items)
    case Obj(ms) => SignsMatterMembers(ms)
    case _ => false
  }

  predicate SignsMatterItems(items: Items)
    decreases items
  {
    items.Item? && (SignsMatter(items.head) || SignsMatterItems(items.tail))
  }

  predicate SignsMatterMembers(ms: Members)
    decreases ms
  {
    ms.Member? && (SignsMatter(ms.value) || SignsMatterMembers(ms.rest))
  }

  lemma {:induction false} NormalSame(v: Value)
    ensures Normal(v) == v <==> !SignsMatter(v)
    decreases v, 0
  {
    match v
    case Arr(items) => NormalItemsSame(items);
    case Obj(ms) => NormalMembersSame(ms);
    case _ =>
  }

  lemma {:induction false} NormalItemsSame(items: Items)
    ensures NormalItems(items) == items <==> !SignsMatterItems(items)
    decreases items, 0
  {
    if items.Item? {
      NormalSame(items.head);
      NormalItemsSame(items.tail);
    }
  }

  lemma {:induction false} NormalMembersSame(ms: Members)
    ensures NormalMembers(ms) == ms <==> !SignsMatterMembers(ms)
    decreases ms, 0
  {
    if ms.Member? {
      NormalSame(ms.value);
      NormalMembersSame(ms.rest);
    }
  }

  /** Exactly the values without such a number come back identical. */
  lemma DocumentComesBackExactly(v: Value, pretty: bool, lim: Limits)
    requires Writable(v, 0, lim) && |WriteDocument(v, pretty)| <= lim.maxBytes
    ensures ParseDocument(WriteDocument(v, pretty), lim) == Some(v) <==> !SignsMatter(v)
  {
    hide Writable, ParseDocument, WriteDocument;
    DocumentRoundTrip(v, pretty, lim);
    NormalSame(v);
  }
}
