/** The JSON parser as the object it is: a text, a position that only moves forward, and one method
    per production, each proved to follow the grammar. */
module JsonParser {
  import opened Wrappers
  import opened Bytes
  import U = Utf8
  import opened Json

  // ----- growing lists -----

  function AppendItem(items: Items, v: Value): Items {
    match items case End => Item(v, End) case Item(head, tail) => Item(head, AppendItem(tail, v))
  }

  function JoinItems(a: Items, b: Items): Items {
    match a case End => b case Item(head, tail) => Item(head, JoinItems(tail, b))
  }

  lemma {:induction false} JoinAppend(a: Items, v: Value, b: Items)
    ensures JoinItems(AppendItem(a, v), b) == JoinItems(a, Item(v, b))
  {
    if a.Item? { JoinAppend(a.tail, v, b); }
  }

  lemma {:induction false} JoinEnd(a: Items)
    ensures JoinItems(a, End) == a
  {
    if a.Item? { JoinEnd(a.tail); }
  }

  function AppendMember(ms: Members, key: seq<Byte>, v: Value): Members {
    match ms case NoMore => Member(key, v, NoMore) case Member(k, w, rest) => Member(k, w, AppendMember(rest, key, v))
  }

  function JoinMembers(a: Members, b: Members): Members {
    match a case NoMore => b case Member(k, w, rest) => Member(k, w, JoinMembers(rest, b))
  }

  lemma {:induction false} JoinAppendMember(a: Members, key: seq<Byte>, v: Value, b: Members)
    ensures JoinMembers(AppendMember(a, key, v), b) == JoinMembers(a, Member(key, v, b))
  {
    if a.Member? { JoinAppendMember(a.rest, key, v, b); }
  }

  lemma {:induction false} JoinNoMore(a: Members)
    ensures JoinMembers(a, NoMore) == a
  {
    if a.Member? { JoinNoMore(a.rest); }
  }

  /** What the loop over the elements will end with, given those already read. */
  function Onward(sofar: Items, more: Option<ParsedItems>): Option<ParsedItems> {
    match more case None => None case Some(p) => Some(ParsedItems(JoinItems(sofar, p.items), p.rest))
  }

  function OnwardMembers(sofar: Members, more: Option<ParsedMembers>): Option<ParsedMembers> {
    match more case None => None case Some(p) => Some(ParsedMembers(JoinMembers(sofar, p.members), p.rest))
  }

  ghost predicate SignOf(here: seq<Byte>, sign: nat) {
    sign == (if here != [] && here[0] == MINUS then 1 else 0) && sign <= |here|
  }

  lemma ShapeWhole(here: seq<Byte>, sign: nat, whole: nat)
    requires SignOf(here, sign) && whole == IntegerRun(here[sign..])
    ensures whole == 0 ==> NumberShape(here) == None
  {
    hide IntegerRun, FractionRun, ExponentRun;
  }

  lemma ShapeFraction(here: seq<Byte>, sign: nat, whole: nat)
    requires SignOf(here, sign) && whole == IntegerRun(here[sign..]) && 0 < whole <= |here| - sign
    ensures FractionRun(here[sign..][whole..]) == None ==> NumberShape(here) == None
  {
    hide IntegerRun, FractionRun, ExponentRun;
  }

  lemma ShapeExponent(here: seq<Byte>, sign: nat, whole: nat, f: nat)
    requires SignOf(here, sign) && whole == IntegerRun(here[sign..]) && 0 < whole <= |here| - sign
    requires FractionRun(here[sign..][whole..]) == Some(f) && whole + f <= |here| - sign
    ensures NumberShape(here) ==
      match ExponentRun(here[sign..][whole + f..]) case None => None case Some(e) => Some(Shape(sign, whole, f + e))
  {
    hide IntegerRun, FractionRun, ExponentRun;
  }

  class Parser {
    const text: seq<Byte>
    const lim: Limits
    var position: nat

    constructor (text: seq<Byte>, lim: Limits)
      ensures this.text == text && this.lim == lim && position == 0 && Valid()
    {
      this.text, this.lim, position := text, lim, 0;
    }

    predicate Valid()
      reads this
    {
      position <= |text|
    }

    function Rest(): seq<Byte>
      requires Valid()
      reads this
    {
      text[position..]
    }

    method SkipWhitespace()
      requires Valid()
      modifies this
      ensures Valid() && Rest() == Skip(old(Rest())) && position >= old(position)
    {
      while position < |text| && IsSpace(text[position])
        invariant Valid() && position >= old(position)
        invariant Skip(Rest()) == Skip(old(Rest()))
      {
        assert Rest()[1..] == text[position + 1..];
        position := position + 1;
      }
    }

    method ParseHex4() returns (r: Option<nat>)
      requires Valid()
      modifies this
      ensures Valid() && r == Hex4(old(Rest()))
      ensures r.Some? ==> position == old(position) + 4 && Rest() == old(Rest())[4..]
    {
      if position + 4 > |text| { return None; }
      ghost var here := Rest();
      var a, b := HexDigit(text[position]), HexDigit(text[position + 1]);
      var c, d := HexDigit(text[position + 2]), HexDigit(text[position + 3]);
      assert here[0] == text[position] && here[1] == text[position + 1] && here[2] == text[position + 2];
      assert here[3] == text[position + 3];
      if a == None || b == None || c == None || d == None { return None; }
      position := position + 4;
      r := Some(((a.value * 16 + b.value) * 16 + c.value) * 16 + d.value);
    }

    /** The code point of a unicode escape, a surrogate pair taken together. */
    method ParseUnicode() returns (r: Option<seq<Byte>>)
      requires Valid()
      modifies this
      ensures Valid()
      ensures match Unicode(old(Rest()))
        case None => r == None
        case Some(p) => r == Some(p.bytes) && Rest() == p.rest
    {
      hide U.Encode, Hex4;
      ghost var here := Rest();
      var first := ParseHex4();
      if first == None { return None; }
      var cp := first.value;
      if 0xD800 <= cp <= 0xDBFF {
        if position + 2 > |text| || text[position] != BACKSLASH || text[position + 1] != 0x75 { return None; }
        assert here[4] == text[position] && here[5] == text[position + 1];
        position := position + 2;
        assert Rest() == here[6..];
        var low := ParseHex4();
        if low == None || low.value < 0xDC00 || low.value > 0xDFFF { return None; }
        assert Rest() == here[10..];
        cp := 0x10000 + (cp - 0xD800) * 1024 + (low.value - 0xDC00);
      } else if 0xDC00 <= cp <= 0xDFFF {
        return None;
      }
      var bytes, ok := U.AppendUtf8([], cp);
      if !ok { return None; }
      assert [] + U.Encode(cp) == U.Encode(cp);
      r := Some(bytes);
    }

    /** One character or escape inside a string. */
    method ParsePiece() returns (r: Option<seq<Byte>>)
      requires Valid() && position < |text|
      modifies this
      ensures Valid()
      ensures match OnePiece(old(Rest()))
        case None => r == None
        case Some(p) => r == Some(p.bytes) && Rest() == p.rest
    {
      hide Unicode;
      ghost var here := Rest();
      var c := text[position];
      if c < 0x20 { return None; }
      if c != BACKSLASH {
        position := position + 1;
        return Some([c]);
      }
      position := position + 1;
      if position >= |text| { return None; }
      var escape := text[position];
      assert here[1] == escape;
      position := position + 1;
      assert Rest() == here[2..];
      if escape == 0x75 {
        r := ParseUnicode();
      } else {
        var b := SimpleEscape(escape);
        r := if b == None then None else Some([b.value]);
      }
    }

    method ParseString() returns (r: Option<seq<Byte>>)
      requires Valid() && position < |text|
      modifies this
      ensures Valid()
      ensures match StringBody(old(Rest())[1..], [], lim)
        case None => r == None
        case Some(p) => r == Some(p.bytes) && Rest() == p.rest
    {
      hide OnePiece, U.IsUtf8;
      ghost var body := Rest()[1..];
      position := position + 1;
      var out: seq<Byte> := [];
      while position < |text|
        invariant Valid()
        invariant StringBody(body, [], lim) == StringBody(Rest(), out, lim)
        decreases |text| - position
      {
        if text[position] == QUOTE {
          position := position + 1;
          var wellFormed := U.IsValidUtf8(out);
          return if wellFormed then Some(out) else None;
        }
        ghost var here := Rest();
        var piece := ParsePiece();
        if piece == None { return None; }
        out := out + piece.value;
        if |out| > lim.maxString { return None; }
      }
      r := None;
    }

    /** Moves over a run of digits. */
    method SkipDigits()
      requires Valid()
      modifies this
      ensures Valid() && position == old(position) + DigitRun(old(Rest()))
    {
      while position < |text| && IsDigit(text[position])
        invariant Valid() && position >= old(position)
        invariant position + DigitRun(Rest()) == old(position) + DigitRun(old(Rest()))
      {
        assert Rest()[1..] == text[position + 1..];
        position := position + 1;
      }
    }

    method SkipInteger()
      requires Valid()
      modifies this
      ensures Valid() && position == old(position) + IntegerRun(old(Rest()))
    {
      if position < |text| && text[position] == ZERO {
        position := position + 1;
      } else {
        SkipDigits();
      }
    }

    method SkipFraction() returns (ok: bool)
      requires Valid()
      modifies this
      ensures Valid()
      ensures match FractionRun(old(Rest())) case None => !ok case Some(n) => ok && position == old(position) + n
    {
      if position >= |text| || text[position] != 0x2E { return true; }
      ghost var here := Rest();
      position := position + 1;
      assert Rest() == here[1..];
      var before := position;
      SkipDigits();
      ok := position > before;
    }

    method SkipExponent() returns (ok: bool)
      requires Valid()
      modifies this
      ensures Valid()
      ensures match ExponentRun(old(Rest())) case None => !ok case Some(n) => ok && position == old(position) + n
    {
      if position >= |text| || (text[position] != 0x65 && text[position] != 0x45) { return true; }
      ghost var here := Rest();
      position := position + 1;
      if position < |text| && (text[position] == 0x2B || text[position] == MINUS) {
        assert here[1] == text[position];
        position := position + 1;
      }
      assert Rest() == here[position - old(position)..];
      var before := position;
      SkipDigits();
      ok := position > before;
    }

    /** Moves over a number and says how it is laid out. */
    method SkipNumber() returns (r: Option<Shape>)
      requires Valid()
      modifies this
      ensures Valid() && r == NumberShape(old(Rest()))
      ensures r.Some? ==> position == old(position) + r.value.Length()
    {
      hide IntegerRun, FractionRun, ExponentRun, NumberShape;
      ghost var here := Rest();
      var start := position;
      if position < |text| && text[position] == MINUS { position := position + 1; }
      var digits := position;
      ghost var sign := digits - start;
      ghost var body := Rest();
      assert body == here[sign..];
      SkipInteger();
      var whole := position;
      ShapeWhole(here, sign, whole - digits);
      if whole == digits { return None; }
      assert Rest() == body[whole - digits..];
      var fraction := SkipFraction();
      ShapeFraction(here, sign, whole - digits);
      if !fraction { return None; }
      assert Rest() == body[position - digits..];
      ghost var f := position - whole;
      var exponent := SkipExponent();
      ShapeExponent(here, sign, whole - digits, f);
      if !exponent { return None; }
      r := Some(Shape(digits - start, whole - digits, position - whole));
    }

    method ParseNumber() returns (r: Option<Value>)
      requires Valid()
      modifies this
      ensures Valid()
      ensures match Number(old(Rest()), lim)
        case None => r == None
        case Some(p) => r == Some(p.value) && Rest() == p.rest
    {
      hide NumberShape, NumberValue;
      ghost var here := Rest();
      var start := position;
      var shape := SkipNumber();
      if shape == None { return None; }
      assert text[start..] == here && Rest() == here[shape.value.Length()..];
      r := NumberValue(text[start..], shape.value, lim);
    }

    method ParseLiteral(literal: seq<Byte>, value: Value) returns (r: Option<Value>)
      requires Valid() && literal != []
      modifies this
      ensures Valid()
      ensures match Literal(old(Rest()), literal, value)
        case None => r == None
        case Some(p) => r == Some(p.value) && Rest() == p.rest
    {
      ghost var here := Rest();
      if |text| - position < |literal| { return None; }
      assert here[..|literal|] == text[position..position + |literal|];
      if text[position..position + |literal|] != literal { return None; }
      position := position + |literal|;
      r := Some(value);
    }

    method ParseValue(depth: nat) returns (r: Option<Value>)
      requires Valid()
      modifies this
      ensures Valid()
      ensures match Json.ParseValue(old(Rest()), depth, lim)
        case None => r == None
        case Some(p) => r == Some(p.value) && Rest() == p.rest
      decreases |text| - position, 1
    {
      hide Number, StringBody, Json.ParseArray, Json.ParseObject;
      if depth > lim.maxDepth { return None; }
      if position >= |text| { return None; }
      ghost var here := Rest();
      var c := text[position];
      if c == OPEN_OBJECT {
        r := ParseObject(depth);
      } else if c == OPEN_ARRAY {
        r := ParseArray(depth);
      } else if c == QUOTE {
        var s := ParseString();
        r := if s == None then None else Some(Str(s.value));
      } else if c == 0x74 {
        r := ParseLiteral(TRUE_TEXT, Bool(true));
      } else if c == 0x66 {
        r := ParseLiteral(FALSE_TEXT, Bool(false));
      } else if c == 0x6E {
        r := ParseLiteral(NULL_TEXT, Null);
      } else {
        r := ParseNumber();
      }
    }

    method ParseArray(depth: nat) returns (r: Option<Value>)
      requires Valid() && position < |text|
      modifies this
      ensures Valid()
      ensures match Json.ParseArray(old(Rest())[1..], depth, lim)
        case None => r == None
        case Some(p) => r == Some(p.value) && Rest() == p.rest
      decreases |text| - position, 0
    {
      hide Json.ParseItems;
      ghost var body := Rest()[1..];
      position := position + 1;
      assert Rest() == body;
      SkipWhitespace();
      if position < |text| && text[position] == CLOSE_ARRAY {
        position := position + 1;
        return Some(Arr(End));
      }
      var items := ParseElements(depth);
      r := if items == None then None else Some(Arr(items.value));
    }

    /** A comma or the closing bracket. */
    method ParseSeparator(close: Byte) returns (r: Option<bool>)
      requires Valid()
      modifies this
      ensures Valid()
      ensures match Separator(old(Rest()), close)
        case None => r == None
        case Some(s) => r == Some(s.0) && Rest() == s.1
    {
      hide Skip;
      SkipWhitespace();
      if position >= |text| { return None; }
      ghost var here := Rest();
      if text[position] == COMMA {
        position := position + 1;
        assert Rest() == here[1..];
        return Some(true);
      }
      if text[position] == close {
        position := position + 1;
        assert Rest() == here[1..];
        return Some(false);
      }
      r := None;
    }

    method ParseItem(depth: nat) returns (r: Option<(Value, bool)>)
      requires Valid()
      modifies this
      ensures Valid()
      ensures match NextItem(old(Rest()), depth, lim)
        case None => r == None
        case Some(n) => r == Some((n.value, n.more)) && Rest() == n.rest
      decreases |text| - position, 2
    {
      hide Json.ParseValue, Separator, Skip;
      SkipWhitespace();
      var value := ParseValue(depth + 1);
      if value == None { return None; }
      var more := ParseSeparator(CLOSE_ARRAY);
      r := if more == None then None else Some((value.value, more.value));
    }

    method ParseElements(depth: nat) returns (r: Option<Items>)
      requires Valid()
      modifies this
      ensures Valid()
      ensures match ParseItems(old(Rest()), 0, depth, lim)
        case None => r == None
        case Some(p) => r == Some(p.items) && Rest() == p.rest
      decreases |text| - position, 3
    {
      hide NextItem;
      var items, count := End, 0;
      ghost var all := ParseItems(Rest(), 0, depth, lim);
      while true
        invariant Valid() && position >= old(position)
        invariant all == Onward(items, ParseItems(Rest(), count, depth, lim))
        decreases |text| - position
      {
        if count >= lim.maxElements { return None; }
        ghost var here := Rest();
        var next := ParseItem(depth);
        if next == None { return None; }
        ghost var others := ParseItems(Rest(), count + 1, depth, lim);
        JoinAppend(items, next.value.0, if next.value.1 && others.Some? then others.value.items else End);
        items, count := AppendItem(items, next.value.0), count + 1;
        if !next.value.1 {
          JoinEnd(items);
          return Some(items);
        }
      }
    }

    method ParseObject(depth: nat) returns (r: Option<Value>)
      requires Valid() && position < |text|
      modifies this
      ensures Valid()
      ensures match Json.ParseObject(old(Rest())[1..], depth, lim)
        case None => r == None
        case Some(p) => r == Some(p.value) && Rest() == p.rest
      decreases |text| - position, 0
    {
      hide Json.ParseMembers, SortMembers, HasDuplicate;
      ghost var body := Rest()[1..];
      position := position + 1;
      assert Rest() == body;
      SkipWhitespace();
      if position < |text| && text[position] == CLOSE_OBJECT {
        position := position + 1;
        return Some(Obj(NoMore));
      }
      var members := ParseMemberList(depth);
      if members == None { return None; }
      var sorted := SortMembers(members.value);
      if HasDuplicate(sorted) { return None; }
      r := Some(Obj(sorted));
    }

    /** A key and the colon after it. */
    method ParseMemberKey() returns (r: Option<seq<Byte>>)
      requires Valid()
      modifies this
      ensures Valid()
      ensures match ParseKey(old(Rest()), lim)
        case None => r == None
        case Some(p) => r == Some(p.bytes) && Rest() == p.rest
    {
      hide StringBody, Skip;
      SkipWhitespace();
      if position >= |text| || text[position] != QUOTE { return None; }
      var key := ParseString();
      if key == None { return None; }
      SkipWhitespace();
      if position >= |text| || text[position] != COLON { return None; }
      ghost var c := Rest();
      position := position + 1;
      assert Rest() == c[1..];
      SkipWhitespace();
      r := key;
    }

    method ParsePair(depth: nat) returns (r: Option<(seq<Byte>, Value, bool)>)
      requires Valid()
      modifies this
      ensures Valid()
      ensures match NextMember(old(Rest()), depth, lim)
        case None => r == None
        case Some(n) => r == Some((n.key, n.value, n.more)) && Rest() == n.rest
      decreases |text| - position, 2
    {
      hide Json.ParseValue, Separator, ParseKey;
      var key := ParseMemberKey();
      if key == None { return None; }
      var value := ParseValue(depth + 1);
      if value == None { return None; }
      var more := ParseSeparator(CLOSE_OBJECT);
      r := if more == None then None else Some((key.value, value.value, more.value));
    }

    method ParseMemberList(depth: nat) returns (r: Option<Members>)
      requires Valid()
      modifies this
      ensures Valid()
      ensures match ParseMembers(old(Rest()), 0, depth, lim)
        case None => r == None
        case Some(p) => r == Some(p.members) && Rest() == p.rest
      decreases |text| - position, 3
    {
      hide NextMember;
      var members, count := NoMore, 0;
      ghost var all := ParseMembers(Rest(), 0, depth, lim);
      while true
        invariant Valid() && position >= old(position)
        invariant all == OnwardMembers(members, ParseMembers(Rest(), count, depth, lim))
        decreases |text| - position
      {
        if count >= lim.maxElements { return None; }
        ghost var here := Rest();
        var next := ParsePair(depth);
        if next == None { return None; }
        ghost var others := ParseMembers(Rest(), count + 1, depth, lim);
        JoinAppendMember(members, next.value.0, next.value.1,
                         if next.value.2 && others.Some? then others.value.members else NoMore);
        members, count := AppendMember(members, next.value.0, next.value.1), count + 1;
        if !next.value.2 {
          JoinNoMore(members);
          return Some(members);
        }
      }
    }
  }

  /** Parses a document: exactly the grammar's answer. */
  method ParseJson(text: seq<Byte>, lim: Limits) returns (r: Option<Value>)
    ensures r == ParseDocument(text, lim)
  {
    hide Json.ParseValue;
    if |text| > lim.maxBytes { return None; }
    var parser := new Parser(text, lim);
    assert parser.Rest() == text;
    parser.SkipWhitespace();
    var value := parser.ParseValue(0);
    if value == None { return None; }
    parser.SkipWhitespace();
    if parser.position != |text| { return None; }
    r := value;
  }
}
