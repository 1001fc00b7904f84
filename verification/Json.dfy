/** JSON documents: values, the writer and the grammar the parser follows.  What the writer
    produces, compact or pretty, parses back. */
module Json {
  import opened Wrappers
  import opened Bytes
  import U = Utf8

  /** A value.  Real numbers are kept as the text they were written as; everything else is exact. */
  datatype Value =
    | Null | Bool(b: bool) | Int(i: int) | UInt(n: nat) | Real(token: seq<Byte>)
    | Str(text: seq<Byte>) | Arr(items: Items) | Obj(members: Members)

  datatype Items = End | Item(head: Value, tail: Items)

  datatype Members = NoMore | Member(key: seq<Byte>, value: Value, rest: Members)

  /** The configured limits, and which real tokens spell a number the platform can represent. */
  datatype Limits = Limits(
    maxBytes: nat, maxDepth: nat, maxString: nat, maxElements: nat, representable: seq<Byte> -> bool)

  const MAX_INT: int := 0x7FFF_FFFF_FFFF_FFFF

  const MAX_UINT: nat := 0xFFFF_FFFF_FFFF_FFFF

  // ----- characters -----

  const QUOTE: Byte := 0x22
  const BACKSLASH: Byte := 0x5C
  const COMMA: Byte := 0x2C
  const COLON: Byte := 0x3A
  const OPEN_ARRAY: Byte := 0x5B
  const CLOSE_ARRAY: Byte := 0x5D
  const OPEN_OBJECT: Byte := 0x7B
  const CLOSE_OBJECT: Byte := 0x7D
  const NEWLINE: Byte := 0x0A
  const SPACE: Byte := 0x20
  const MINUS: Byte := 0x2D
  const ZERO: Byte := 0x30

  const TRUE_TEXT: seq<Byte> := [0x74, 0x72, 0x75, 0x65]
  const FALSE_TEXT: seq<Byte> := [0x66, 0x61, 0x6C, 0x73, 0x65]
  const NULL_TEXT: seq<Byte> := [0x6E, 0x75, 0x6C, 0x6C]

  predicate IsSpace(b: Byte) { b == SPACE || b == 0x09 || b == NEWLINE || b == 0x0D }

  predicate IsDigit(b: Byte) { 0x30 <= b <= 0x39 }

  function Skip(text: seq<Byte>): (rest: seq<Byte>)
    ensures |rest| <= |text|
  {
    if text != [] && IsSpace(text[0]) then Skip(text[1..]) else text
  }

  function HexDigit(b: Byte): Option<nat> {
    if IsDigit(b) then Some(b - 0x30)
    else if 0x61 <= b <= 0x66 then Some(b - 0x61 + 10)
    else if 0x41 <= b <= 0x46 then Some(b - 0x41 + 10)
    else None
  }

  function Hex4(text: seq<Byte>): (r: Option<nat>)
    ensures r.Some? ==> |text| >= 4
  {
    if |text| < 4 then None
    else
      var a, b, c, d := HexDigit(text[0]), HexDigit(text[1]), HexDigit(text[2]), HexDigit(text[3]);
      if a.Some? && b.Some? && c.Some? && d.Some? then Some(((a.value * 16 + b.value) * 16 + c.value) * 16 + d.value)
      else None
  }

  // ----- strings -----

  /** What one character or escape of a string stands for, and what follows it. */
  datatype Piece = Piece(bytes: seq<Byte>, rest: seq<Byte>)

  function CodePoint(cp: nat, rest: seq<Byte>): Option<Piece> {
    if U.IsScalar(cp) then Some(Piece(U.Encode(cp), rest)) else None
  }

  function Unicode(text: seq<Byte>): (r: Option<Piece>)
    ensures r.Some? ==> |r.value.rest| < |text|
  {
    match Hex4(text)
    case None => None
    case Some(cp) =>
      if 0xD800 <= cp <= 0xDBFF then
        if |text| < 6 || text[4] != BACKSLASH || text[5] != 0x75 then None
        else
          match Hex4(text[6..])
          case None => None
          case Some(low) =>
            if 0xDC00 <= low <= 0xDFFF then CodePoint(0x10000 + (cp - 0xD800) * 1024 + (low - 0xDC00), text[10..])
            else None
      else if 0xDC00 <= cp <= 0xDFFF then None
      else CodePoint(cp, text[4..])
  }

  function SimpleEscape(b: Byte): Option<Byte> {
    if b == QUOTE || b == BACKSLASH || b == 0x2F then Some(b)
    else if b == 0x62 then Some(0x08)
    else if b == 0x66 then Some(0x0C)
    else if b == 0x6E then Some(0x0A)
    else if b == 0x72 then Some(0x0D)
    else if b == 0x74 then Some(0x09)
    else None
  }

  function OnePiece(text: seq<Byte>): (r: Option<Piece>)
    requires text != []
    ensures r.Some? ==> |r.value.rest| < |text|
  {
    if text[0] < 0x20 then None
    else if text[0] != BACKSLASH then Some(Piece([text[0]], text[1..]))
    else if |text| < 2 then None
    else if text[1] == 0x75 then Unicode(text[2..])
    else match SimpleEscape(text[1]) case None => None case Some(b) => Some(Piece([b], text[2..]))
  }

  /** The rest of a string after its opening quote, with `sofar` already read. */
  ghost function StringBody(text: seq<Byte>, sofar: seq<Byte>, lim: Limits): (r: Option<Piece>)
    ensures r.Some? ==> |r.value.rest| < |text|
    decreases |text|
  {
    if text == [] then None
    else if text[0] == QUOTE then (if U.IsUtf8(sofar) then Some(Piece(sofar, text[1..])) else None)
    else
      match OnePiece(text)
      case None => None
      case Some(p) => if |sofar + p.bytes| > lim.maxString then None else StringBody(p.rest, sofar + p.bytes, lim)
  }

  // ----- numbers -----

  /** How many digits a text starts with. */
  function DigitRun(text: seq<Byte>): (n: nat)
    ensures n <= |text|
    ensures forall i :: 0 <= i < n ==> IsDigit(text[i])
    ensures n < |text| ==> !IsDigit(text[n])
  {
    if text != [] && IsDigit(text[0]) then DigitRun(text[1..]) + 1 else 0
  }

  function DecimalValue(digits: seq<Byte>): nat
    requires forall i :: 0 <= i < |digits| ==> IsDigit(digits[i])
  {
    if digits == [] then 0
    else
      assert IsDigit(digits[|digits| - 1]);
      DecimalValue(digits[..|digits| - 1]) * 10 + (digits[|digits| - 1] - 0x30)
  }

  /** The integer part: a single zero, or a run of digits. */
  function IntegerRun(text: seq<Byte>): nat {
    if text != [] && text[0] == ZERO then 1 else DigitRun(text)
  }

  /** The fraction and exponent after the integer part, or None where one is begun but broken. */
  function FractionRun(text: seq<Byte>): (r: Option<nat>)
    ensures r.Some? ==> r.value <= |text|
  {
    if text == [] || text[0] != 0x2E then Some(0)
    else
      var n := DigitRun(text[1..]);
      if n == 0 then None else Some(1 + n)
  }

  function ExponentRun(text: seq<Byte>): (r: Option<nat>)
    ensures r.Some? ==> r.value <= |text|
  {
    if text == [] || (text[0] != 0x65 && text[0] != 0x45) then Some(0)
    else
      var signed := if |text| > 1 && (text[1] == 0x2B || text[1] == MINUS) then 2 else 1;
      var n := DigitRun(text[signed..]);
      if n == 0 then None else Some(signed + n)
  }

  datatype Parsed = Parsed(value: Value, rest: seq<Byte>)

  /** How a number is laid out: sign, integer digits, and what is left of it. */
  datatype Shape = Shape(sign: nat, whole: nat, more: nat) {
    function Length(): nat { sign + whole + more }
  }

  function NumberShape(text: seq<Byte>): (r: Option<Shape>)
    ensures r.Some? ==> r.value.whole > 0 && r.value.sign <= 1 && r.value.Length() <= |text|
    ensures r.Some? ==> r.value.whole == IntegerRun(text[r.value.sign..])
  {
    var sign := if text != [] && text[0] == MINUS then 1 else 0;
    var body := text[sign..];
    WholeDigits(body);
    var whole := IntegerRun(body);
    if whole == 0 then None
    else
      match FractionRun(body[whole..])
      case None => None
      case Some(f) =>
        match ExponentRun(body[whole + f..]) case None => None case Some(e) => Some(Shape(sign, whole, f + e))
  }

  /** What a laid-out number stands for, if it is in range. */
  function NumberValue(text: seq<Byte>, shape: Shape, lim: Limits): Option<Value>
    requires shape.Length() <= |text| && shape.whole == IntegerRun(text[shape.sign..])
  {
    if shape.more > 0 then
      if lim.representable(text[..shape.Length()]) then Some(Real(text[..shape.Length()])) else None
    else
      WholeDigits(text[shape.sign..]);
      var n: int := DecimalValue(text[shape.sign..][..shape.whole]);
      if shape.sign == 1 then (if n > MAX_INT + 1 then None else Some(Int(-n)))
      else if n > MAX_UINT then None
      else Some(UInt(n))
  }

  function Number(text: seq<Byte>, lim: Limits): (r: Option<Parsed>)
    ensures r.Some? ==> |r.value.rest| < |text|
  {
    match NumberShape(text)
    case None => None
    case Some(shape) =>
      match NumberValue(text, shape, lim) case None => None case Some(v) => Some(Parsed(v, text[shape.Length()..]))
  }

  lemma WholeDigits(body: seq<Byte>)
    ensures IntegerRun(body) <= |body|
    ensures forall i :: 0 <= i < IntegerRun(body) ==> IsDigit(body[i])
  {
  }

  // ----- the grammar -----

  function Literal(text: seq<Byte>, literal: seq<Byte>, value: Value): (r: Option<Parsed>)
    requires literal != []
    ensures r.Some? ==> |r.value.rest| < |text|
  {
    if |text| >= |literal| && text[..|literal|] == literal then Some(Parsed(value, text[|literal|..])) else None
  }

  ghost function ParseValue(text: seq<Byte>, depth: nat, lim: Limits): (r: Option<Parsed>)
    ensures r.Some? ==> |r.value.rest| < |text|
    decreases |text|, 1
  {
    if depth > lim.maxDepth || text == [] then None
    else if text[0] == OPEN_OBJECT then ParseObject(text[1..], depth, lim)
    else if text[0] == OPEN_ARRAY then ParseArray(text[1..], depth, lim)
    else if text[0] == QUOTE then
      match StringBody(text[1..], [], lim) case None => None case Some(p) => Some(Parsed(Str(p.bytes), p.rest))
    else if text[0] == 0x74 then Literal(text, TRUE_TEXT, Bool(true))
    else if text[0] == 0x66 then Literal(text, FALSE_TEXT, Bool(false))
    else if text[0] == 0x6E then Literal(text, NULL_TEXT, Null)
    else Number(text, lim)
  }

  ghost function ParseArray(text: seq<Byte>, depth: nat, lim: Limits): (r: Option<Parsed>)
    ensures r.Some? ==> |r.value.rest| < |text|
    decreases |text|, 4
  {
    var t := Skip(text);
    if t != [] && t[0] == CLOSE_ARRAY then Some(Parsed(Arr(End), t[1..]))
    else
      match ParseItems(t, 0, depth, lim)
      case None => None
      case Some(p) => Some(Parsed(Arr(p.items), p.rest))
  }

  datatype ParsedItems = ParsedItems(items: Items, rest: seq<Byte>)

  /** One element of an array, and whether a comma follows it. */
  datatype Next = Next(value: Value, more: bool, rest: seq<Byte>)

  /** What separates an element from the next one, or ends the list. */
  function Separator(text: seq<Byte>, close: Byte): (r: Option<(bool, seq<Byte>)>)
    ensures r.Some? ==> |r.value.1| < |text|
  {
    var t := Skip(text);
    if t == [] then None
    else if t[0] == COMMA then Some((true, t[1..]))
    else if t[0] == close then Some((false, t[1..]))
    else None
  }

  ghost function NextItem(text: seq<Byte>, depth: nat, lim: Limits): (r: Option<Next>)
    ensures r.Some? ==> |r.value.rest| < |text|
    decreases |text|, 2
  {
    match ParseValue(Skip(text), depth + 1, lim)
    case None => None
    case Some(v) => match Separator(v.rest, CLOSE_ARRAY) case None => None case Some(s) => Some(Next(v.value, s.0, s.1))
  }

  ghost function ParseItems(text: seq<Byte>, count: nat, depth: nat, lim: Limits): (r: Option<ParsedItems>)
    ensures r.Some? ==> |r.value.rest| < |text|
    decreases |text|, 3
  {
    if count >= lim.maxElements then None
    else
      match NextItem(text, depth, lim)
      case None => None
      case Some(next) =>
        if !next.more then Some(ParsedItems(Item(next.value, End), next.rest))
        else
          match ParseItems(next.rest, count + 1, depth, lim)
          case None => None
          case Some(p) => Some(ParsedItems(Item(next.value, p.items), p.rest))
  }

  datatype ParsedMembers = ParsedMembers(members: Members, rest: seq<Byte>)

  ghost function ParseObject(text: seq<Byte>, depth: nat, lim: Limits): (r: Option<Parsed>)
    ensures r.Some? ==> |r.value.rest| < |text|
    decreases |text|, 4
  {
    var t := Skip(text);
    if t != [] && t[0] == CLOSE_OBJECT then Some(Parsed(Obj(NoMore), t[1..]))
    else
      match ParseMembers(t, 0, depth, lim)
      case None => None
      case Some(p) =>
        var sorted := SortMembers(p.members);
        if HasDuplicate(sorted) then None else Some(Parsed(Obj(sorted), p.rest))
  }

  /** A key and the colon after it. */
  ghost function ParseKey(text: seq<Byte>, lim: Limits): (r: Option<Piece>)
    ensures r.Some? ==> |r.value.rest| < |text|
  {
    var t := Skip(text);
    if t == [] || t[0] != QUOTE then None
    else
      match StringBody(t[1..], [], lim)
      case None => None
      case Some(key) =>
        var c := Skip(key.rest);
        if c == [] || c[0] != COLON then None else Some(Piece(key.bytes, Skip(c[1..])))
  }

  datatype NextPair = NextPair(key: seq<Byte>, value: Value, more: bool, rest: seq<Byte>)

  ghost function NextMember(text: seq<Byte>, depth: nat, lim: Limits): (r: Option<NextPair>)
    ensures r.Some? ==> |r.value.rest| < |text|
    decreases |text|, 2
  {
    match ParseKey(text, lim)
    case None => None
    case Some(key) =>
      match ParseValue(key.rest, depth + 1, lim)
      case None => None
      case Some(v) =>
        match Separator(v.rest, CLOSE_OBJECT)
        case None => None
        case Some(s) => Some(NextPair(key.bytes, v.value, s.0, s.1))
  }

  ghost function ParseMembers(text: seq<Byte>, count: nat, depth: nat, lim: Limits): (r: Option<ParsedMembers>)
    ensures r.Some? ==> |r.value.rest| < |text|
    decreases |text|, 3
  {
    if count >= lim.maxElements then None
    else
      match NextMember(text, depth, lim)
      case None => None
      case Some(next) =>
        if !next.more then Some(ParsedMembers(Member(next.key, next.value, NoMore), next.rest))
        else
          match ParseMembers(next.rest, count + 1, depth, lim)
          case None => None
          case Some(p) => Some(ParsedMembers(Member(next.key, next.value, p.members), p.rest))
  }

  // ----- members in key order -----

  predicate TextLess(a: seq<Byte>, b: seq<Byte>) {
    if b == [] then false
    else if a == [] then true
    else if a[0] != b[0] then a[0] < b[0]
    else TextLess(a[1..], b[1..])
  }

  function InsertMember(key: seq<Byte>, value: Value, ms: Members): Members {
    match ms
    case NoMore => Member(key, value, NoMore)
    case Member(k, v, rest) =>
      if TextLess(k, key) then Member(k, v, InsertMember(key, value, rest)) else Member(key, value, ms)
  }

  function SortMembers(ms: Members): Members {
    match ms
    case NoMore => NoMore
    case Member(k, v, rest) => InsertMember(k, v, SortMembers(rest))
  }

  predicate HasDuplicate(ms: Members) {
    ms.Member? && ms.rest.Member? && (ms.key == ms.rest.key || HasDuplicate(ms.rest))
  }

  /** Keys strictly ascending. */
  predicate KeysRise(ms: Members) {
    ms.Member? && ms.rest.Member? ==> TextLess(ms.key, ms.rest.key) && KeysRise(ms.rest)
  }

  lemma {:induction false} TextLessIrreflexive(a: seq<Byte>)
    ensures !TextLess(a, a)
  {
    if a != [] { TextLessIrreflexive(a[1..]); }
  }

  lemma {:induction false} TextLessAsymmetric(a: seq<Byte>, b: seq<Byte>)
    requires TextLess(a, b)
    ensures !TextLess(b, a)
  {
    if a != [] && a[0] == b[0] { TextLessAsymmetric(a[1..], b[1..]); }
  }

  /** Members in ascending key order are neither rearranged nor rejected. */
  lemma {:induction false} RisingMembersStay(ms: Members)
    requires KeysRise(ms)
    ensures SortMembers(ms) == ms && !HasDuplicate(ms)
  {
    if ms.Member? {
      if ms.rest.Member? {
        RisingMembersStay(ms.rest);
        TextLessAsymmetric(ms.key, ms.rest.key);
        TextLessIrreflexive(ms.key);
      }
    }
  }

  // ----- the document -----

  ghost function ParseDocument(text: seq<Byte>, lim: Limits): Option<Value> {
    if |text| > lim.maxBytes then None
    else
      match ParseValue(Skip(text), 0, lim)
      case None => None
      case Some(p) => if Skip(p.rest) == [] then Some(p.value) else None
  }

  // ----- the writer -----

  function HexChar(d: nat): Byte
    requires d < 16
  {
    if d < 10 then 0x30 + d else 0x61 + (d - 10)
  }

  function EscapeByte(b: Byte): seq<Byte> {
    if b == QUOTE then [BACKSLASH, QUOTE]
    else if b == BACKSLASH then [BACKSLASH, BACKSLASH]
    else if b == 0x08 then [BACKSLASH, 0x62]
    else if b == 0x0C then [BACKSLASH, 0x66]
    else if b == 0x0A then [BACKSLASH, 0x6E]
    else if b == 0x0D then [BACKSLASH, 0x72]
    else if b == 0x09 then [BACKSLASH, 0x74]
    else if b < 0x20 then [BACKSLASH, 0x75, 0x30, 0x30, HexChar(b / 16), HexChar(b % 16)]
    else [b]
  }

  function EscapeBody(text: seq<Byte>): seq<Byte> {
    if text == [] then [] else EscapeByte(text[0]) + EscapeBody(text[1..])
  }

  function WriteString(text: seq<Byte>): seq<Byte> { [QUOTE] + EscapeBody(text) + [QUOTE] }

  function Digits(n: nat): (d: seq<Byte>)
    ensures d != [] && forall i :: 0 <= i < |d| ==> IsDigit(d[i])
    ensures d[0] == ZERO ==> n == 0 && |d| == 1
  {
    if n < 10 then [0x30 + n] else Digits(n / 10) + [0x30 + n % 10]
  }

  function Spaces(n: nat): (s: seq<Byte>)
    ensures |s| == n
  {
    seq(n, _ => SPACE)
  }

  /** A line break before an element, when pretty. */
  function Line(pretty: bool, indent: nat): seq<Byte> { if pretty then [NEWLINE] + Spaces(indent) else [] }

  function Write(v: Value, pretty: bool, indent: nat): seq<Byte>
    decreases v
  {
    match v
    case Null => NULL_TEXT
    case Bool(b) => if b then TRUE_TEXT else FALSE_TEXT
    case Int(i) => if i < 0 then [MINUS] + Digits(-i) else Digits(i)
    case UInt(n) => Digits(n)
    case Real(token) => token
    case Str(text) => WriteString(text)
    case Arr(items) =>
      if items.End? then [OPEN_ARRAY, CLOSE_ARRAY]
      else [OPEN_ARRAY] + (WriteItems(items, pretty, indent + 2) + (Line(pretty, indent) + [CLOSE_ARRAY]))
    case Obj(members) =>
      if members.NoMore? then [OPEN_OBJECT, CLOSE_OBJECT]
      else [OPEN_OBJECT] + (WriteMembers(members, pretty, indent + 2) + (Line(pretty, indent) + [CLOSE_OBJECT]))
  }

  function WriteItems(items: Items, pretty: bool, indent: nat): seq<Byte>
    decreases items
  {
    match items
    case End => []
    case Item(head, tail) =>
      Line(pretty, indent) + (Write(head, pretty, indent)
        + (if tail.End? then [] else [COMMA] + WriteItems(tail, pretty, indent)))
  }

  function Gap(pretty: bool): seq<Byte> { if pretty then [SPACE] else [] }

  function WriteMembers(members: Members, pretty: bool, indent: nat): seq<Byte>
    decreases members
  {
    match members
    case NoMore => []
    case Member(key, value, rest) =>
      Line(pretty, indent) + (WriteString(key) + ([COLON] + (Gap(pretty) + (Write(value, pretty, indent)
        + (if rest.NoMore? then [] else [COMMA] + WriteMembers(rest, pretty, indent))))))
  }

  function WriteDocument(v: Value, pretty: bool): seq<Byte> {
    Write(v, pretty, 0) + (if pretty then [NEWLINE] else [])
  }
}
