/** Which numbers a JSON document can hold and what they are read as, spelled out as section 6 of RFC 8259
    gives them, and which bytes may stand between tokens. */
module JsonTokens {
  import opened Wrappers
  import opened Bytes
  import opened Json

  // ----- the layout of a number -----

  ghost predicate AllDigits(s: seq<Byte>) { s != [] && forall i :: 0 <= i < |s| ==> 0x30 <= s[i] <= 0x39 }

  ghost predicate IsSign(s: seq<Byte>) { s == [] || s == [0x2D] }

  ghost predicate IsWhole(s: seq<Byte>) { s == [0x30] || (AllDigits(s) && s[0] != 0x30) }

  ghost predicate IsFraction(s: seq<Byte>) { s == [] || (s[0] == 0x2E && AllDigits(s[1..])) }

  ghost predicate IsExponent(s: seq<Byte>) {
    s == []
    || ((s[0] == 0x65 || s[0] == 0x45)
        && (AllDigits(s[1..]) || (|s| > 1 && (s[1] == 0x2B || s[1] == 0x2D) && AllDigits(s[2..]))))
  }

  /** The parts of a number: its sign, integer digits, fraction and exponent. */
  datatype Parts = Parts(sign: seq<Byte>, whole: seq<Byte>, fraction: seq<Byte>, exponent: seq<Byte>) {
    function Text(): seq<Byte> { sign + (whole + (fraction + exponent)) }

    ghost predicate Valid() { IsSign(sign) && IsWhole(whole) && IsFraction(fraction) && IsExponent(exponent) }
  }

  /** The text does not go on with something that could belong to a number. */
  ghost predicate Over(rest: seq<Byte>) {
    rest == [] || !(0x30 <= rest[0] <= 0x39 || rest[0] == 0x2E || rest[0] == 0x65 || rest[0] == 0x45)
  }

  lemma {:induction false} RunIs(digits: seq<Byte>, rest: seq<Byte>)
    requires forall i :: 0 <= i < |digits| ==> IsDigit(digits[i])
    requires rest == [] || !IsDigit(rest[0])
    ensures DigitRun(digits + rest) == |digits|
  {
    var text := digits + rest;
    if digits == [] {
      assert text == rest;
    } else {
      assert text[0] == digits[0] && text[1..] == digits[1..] + rest;
      RunIs(digits[1..], rest);
    }
  }

  lemma WholeIs(p: Parts, rest: seq<Byte>)
    requires p.Valid() && (rest == [] || !IsDigit(rest[0]))
    ensures IntegerRun(p.whole + rest) == |p.whole|
  {
    assert (p.whole + rest)[0] == p.whole[0];
    RunIs(p.whole, rest);
  }

  lemma Dropped(a: seq<Byte>, b: seq<Byte>, k: nat)
    requires k <= |a|
    ensures (a + b)[k..] == a[k..] + b
  {
  }

  lemma FractionIs(p: Parts, rest: seq<Byte>)
    requires p.Valid() && (rest == [] || !(IsDigit(rest[0]) || rest[0] == 0x2E))
    ensures FractionRun(p.fraction + rest) == Some(|p.fraction|)
  {
    var text := p.fraction + rest;
    if p.fraction == [] {
      assert text == rest;
    } else {
      Dropped(p.fraction, rest, 1);
      RunIs(p.fraction[1..], rest);
    }
  }

  lemma ExponentIs(p: Parts, rest: seq<Byte>)
    requires p.Valid() && Over(rest)
    ensures ExponentRun(p.exponent + rest) == Some(|p.exponent|)
  {
    hide IsSign, IsWhole, IsFraction;
    var text := p.exponent + rest;
    if p.exponent == [] {
      assert text == rest;
    } else if AllDigits(p.exponent[1..]) {
      assert p.exponent[1] == p.exponent[1..][0];
      Dropped(p.exponent, rest, 1);
      RunIs(p.exponent[1..], rest);
    } else {
      Dropped(p.exponent, rest, 2);
      RunIs(p.exponent[2..], rest);
    }
  }

  /** How the three runs make up a shape. */
  lemma ShapeIs(text: seq<Byte>, sign: nat, whole: nat, fraction: nat, exponent: nat)
    requires text != [] && sign <= 1 && (text[0] == MINUS <==> sign == 1) && IntegerRun(text[sign..]) == whole > 0
    requires whole <= |text[sign..]| && FractionRun(text[sign..][whole..]) == Some(fraction)
    requires whole + fraction <= |text[sign..]| && ExponentRun(text[sign..][whole + fraction..]) == Some(exponent)
    ensures NumberShape(text) == Some(Shape(sign, whole, fraction + exponent))
  {
    hide IntegerRun, FractionRun, ExponentRun;
  }

  lemma Layers(a: seq<Byte>, b: seq<Byte>, c: seq<Byte>, d: seq<Byte>, rest: seq<Byte>)
    ensures var text := (a + (b + (c + d))) + rest;
      && text[|a|..] == b + (c + (d + rest))
      && text[|a|..][|b|..] == c + (d + rest)
      && text[|a|..][|b| + |c|..] == d + rest
  {
    var text := (a + (b + (c + d))) + rest;
    assert text[|a|..] == b + (c + (d + rest));
  }

  /** A number is recognised from its first byte to its last. */
  lemma LaidOut(p: Parts, rest: seq<Byte>)
    requires p.Valid() && Over(rest)
    ensures NumberShape(p.Text() + rest) == Some(Shape(|p.sign|, |p.whole|, |p.fraction| + |p.exponent|))
  {
    hide IntegerRun, FractionRun, ExponentRun, NumberShape, Over, IsDigit, IsSign, IsWhole, IsFraction, IsExponent;
    FirstBytes(p, rest);
    WholeIs(p, p.fraction + (p.exponent + rest));
    FractionIs(p, p.exponent + rest);
    ExponentIs(p, rest);
    Layers(p.sign, p.whole, p.fraction, p.exponent, rest);
    ShapeIs(p.Text() + rest, |p.sign|, |p.whole|, |p.fraction|, |p.exponent|);
  }

  /** What follows each part cannot belong to it. */
  lemma FirstBytes(p: Parts, rest: seq<Byte>)
    requires p.Valid() && Over(rest)
    ensures var last := p.exponent + rest; last == [] || !(IsDigit(last[0]) || last[0] == 0x2E)
    ensures var mid := p.fraction + (p.exponent + rest); mid == [] || !IsDigit(mid[0])
    ensures |p.whole| > 0 && |p.sign| <= 1 && ((p.Text() + rest)[0] == MINUS <==> |p.sign| == 1)
  {
    assert (p.Text() + rest)[0] == (if p.sign == [] then p.whole[0] else p.sign[0]);
    if p.exponent == [] { assert p.exponent + rest == rest; }
    if p.fraction == [] { assert p.fraction + (p.exponent + rest) == p.exponent + rest; }
  }

  lemma RunsOf(text: seq<Byte>, shape: Shape) returns (f: nat, e: nat)
    requires NumberShape(text) == Some(shape)
    ensures shape.more == f + e && shape.Length() <= |text|
    ensures shape.sign == 0 || text[0] == MINUS
    ensures var body := text[shape.sign..];
      && shape.whole == IntegerRun(body) > 0 && shape.whole + f + e <= |body|
      && FractionRun(body[shape.whole..]) == Some(f) && ExponentRun(body[shape.whole + f..]) == Some(e)
  {
    hide IntegerRun, FractionRun, ExponentRun;
    var body := text[shape.sign..];
    WholeDigits(body);
    f := FractionRun(body[shape.whole..]).value;
    e := ExponentRun(body[shape.whole + f..]).value;
  }

  lemma Join(text: seq<Byte>, sign: nat, w: nat, f: nat, e: nat) returns (p: Parts)
    requires sign + w + f + e <= |text| && sign <= 1 && (sign == 1 ==> text[0] == MINUS)
    ensures var body := text[sign..];
      p == Parts(text[..sign], body[..w], body[w..][..f], body[w + f..][..e])
    ensures IsSign(p.sign) && p.Text() == text[..sign + w + f + e]
  {
    var body := text[sign..];
    p := Parts(text[..sign], body[..w], body[w..][..f], body[w + f..][..e]);
    assert p.fraction + p.exponent == body[w..w + f + e];
    assert p.whole + (p.fraction + p.exponent) == body[..w + f + e];
  }

  lemma WholePart(body: seq<Byte>, w: nat)
    requires w == IntegerRun(body) > 0 && w <= |body|
    ensures IsWhole(body[..w])
  {
    WholeDigits(body);
  }

  lemma FractionPart(text: seq<Byte>, f: nat)
    requires FractionRun(text) == Some(f)
    ensures IsFraction(text[..f])
  {
    if f > 0 { assert text[..f][1..] == text[1..][..f - 1]; }
  }

  lemma ExponentPart(text: seq<Byte>, e: nat)
    requires ExponentRun(text) == Some(e)
    ensures IsExponent(text[..e])
  {
    if e > 0 {
      var signed := if |text| > 1 && (text[1] == 0x2B || text[1] == MINUS) then 2 else 1;
      assert text[..e][signed..] == text[signed..][..e - signed];
      assert AllDigits(text[..e][signed..]);
    }
  }

  /** The parts a shape cuts a text into. */
  lemma ShapeHasParts(text: seq<Byte>, shape: Shape) returns (p: Parts)
    requires NumberShape(text) == Some(shape)
    ensures p.Valid() && p.Text() == text[..shape.Length()]
  {
    hide NumberShape, FractionRun, ExponentRun, IntegerRun, IsWhole, IsFraction, IsExponent;
    var f, e := RunsOf(text, shape);
    var body := text[shape.sign..];
    WholePart(body, shape.whole);
    FractionPart(body[shape.whole..], f);
    ExponentPart(body[shape.whole + f..], e);
    p := Join(text, shape.sign, shape.whole, f, e);
  }

  // ----- what it is read as -----

  /** The value a number is read as: a number with a fraction or an exponent is kept as it is written if the
      platform can represent it, and an integer is read exactly if it fits 64 bits, signed if it has a sign. */
  function Reading(p: Parts, lim: Limits): Option<Value>
    requires forall i :: 0 <= i < |p.whole| ==> IsDigit(p.whole[i])
  {
    if p.fraction != [] || p.exponent != [] then if lim.representable(p.Text()) then Some(Real(p.Text())) else None
    else
      var n: int := DecimalValue(p.whole);
      if p.sign == [] then if n < 0x1_0000_0000_0000_0000 then Some(UInt(n)) else None
      else if n <= 0x8000_0000_0000_0000 then Some(Int(-n)) else None
  }

  lemma WholeIsDigits(p: Parts)
    requires p.Valid()
    ensures forall i :: 0 <= i < |p.whole| ==> IsDigit(p.whole[i])
  {
  }

  /** Every number laid out as the standard has it is read as that, or refused out of range. */
  lemma NumberReads(p: Parts, rest: seq<Byte>, lim: Limits)
    requires p.Valid() && Over(rest)
    ensures (forall i :: 0 <= i < |p.whole| ==> IsDigit(p.whole[i]))
    ensures Number(p.Text() + rest, lim) ==
      match Reading(p, lim) case None => None case Some(v) => Some(Parsed(v, rest))
  {
    hide NumberShape, NumberValue, Reading, IsSign, IsWhole, IsFraction, IsExponent, Over, IsDigit;
    WholeIsDigits(p);
    LaidOut(p, rest);
    ReadingIs(p, rest, lim);
    assert (p.Text() + rest)[|p.Text()|..] == rest;
  }

  lemma ReadingIs(p: Parts, rest: seq<Byte>, lim: Limits)
    requires forall i :: 0 <= i < |p.whole| ==> IsDigit(p.whole[i])
    requires IsSign(p.sign)
    requires IntegerRun((p.Text() + rest)[|p.sign|..]) == |p.whole|
    ensures
      NumberValue(p.Text() + rest, Shape(|p.sign|, |p.whole|, |p.fraction| + |p.exponent|), lim) == Reading(p, lim)
  {
    hide IntegerRun, DecimalValue, IsDigit;
    var text := p.Text() + rest;
    assert text[..|p.Text()|] == p.Text();
    assert text[|p.sign|..][..|p.whole|] == p.whole;
  }

  /** And nothing else is read as a number. */
  lemma OnlyNumbersRead(text: seq<Byte>, lim: Limits)
    requires Number(text, lim).Some?
    ensures exists p: Parts :: p.Valid() && text == p.Text() + Number(text, lim).value.rest
  {
    hide NumberShape, NumberValue;
    var shape := NumberShape(text).value;
    var p := ShapeHasParts(text, shape);
    assert text == p.Text() + text[shape.Length()..];
  }

  /** A run of digits stands for a number place by place. */
  lemma DigitsAddUp(digits: seq<Byte>, last: Byte)
    requires forall i :: 0 <= i < |digits| ==> IsDigit(digits[i])
    requires IsDigit(last)
    ensures forall i :: 0 <= i < |digits + [last]| ==> IsDigit((digits + [last])[i])
    ensures DecimalValue([]) == 0 && DecimalValue(digits + [last]) == 10 * DecimalValue(digits) + (last - 0x30)
  {
    var all := digits + [last];
    assert all[..|all| - 1] == digits;
  }

  // ----- between tokens -----

  /** Any run of spaces, tabs and line ends is skipped, and nothing after it. */
  lemma {:induction false} SpaceIsSkipped(space: seq<Byte>, text: seq<Byte>)
    requires forall i :: 0 <= i < |space| ==> space[i] in {0x20, 0x09, 0x0A, 0x0D}
    requires text == [] || text[0] !in {0x20, 0x09, 0x0A, 0x0D}
    ensures Skip(space + text) == text
  {
    if space == [] {
      assert space + text == text;
    } else {
      assert (space + text)[1..] == space[1..] + text;
      SpaceIsSkipped(space[1..], text);
    }
  }
}
