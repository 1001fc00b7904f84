/** What the escapes of a JSON string stand for, spelled out as section 7 of RFC 8259 gives them. */
module JsonEscapes {
  import opened Wrappers
  import opened Bytes
  import U = Utf8
  import opened Json

  const LOWER: seq<Byte> :=
    [0x30, 0x31, 0x32, 0x33, 0x34, 0x35, 0x36, 0x37, 0x38, 0x39, 0x61, 0x62, 0x63, 0x64, 0x65, 0x66]
  const UPPER: seq<Byte> :=
    [0x30, 0x31, 0x32, 0x33, 0x34, 0x35, 0x36, 0x37, 0x38, 0x39, 0x41, 0x42, 0x43, 0x44, 0x45, 0x46]

  /** The byte is the hexadecimal digit for the value, in either case. */
  predicate IsHex(b: Byte, value: nat) { value < 16 && (b == LOWER[value] || b == UPPER[value]) }

  /** Four hexadecimal digits spell the number. */
  predicate Spells(digits: seq<Byte>, n: nat) {
    && |digits| == 4 && IsHex(digits[0], n / 4096) && IsHex(digits[1], n / 256 % 16) && IsHex(digits[2], n / 16 % 16)
    && IsHex(digits[3], n % 16)
  }

  lemma HexDigitMeans(b: Byte, value: nat)
    ensures HexDigit(b) == Some(value) <==> IsHex(b, value)
  {
    if IsHex(b, value) { OneOfSixteen(value); }
    if HexDigit(b) == Some(value) { OneOfSixteen(value); }
  }

  lemma OneOfSixteen(value: nat)
    requires value < 16
    ensures value in {0, 1, 2, 3, 4, 5, 6, 7, 8, 9, 10, 11, 12, 13, 14, 15}
  {
  }

  lemma DigitsApart(a: nat, b: nat, c: nat, d: nat, n: nat)
    requires a < 16 && b < 16 && c < 16 && d < 16
    ensures n == ((a * 16 + b) * 16 + c) * 16 + d <==>
      n / 4096 == a && n / 256 % 16 == b && n / 16 % 16 == c && n % 16 == d
  {
  }

  /** Four digits are read as the number they spell, and nothing else is. */
  lemma Hex4Means(text: seq<Byte>, n: nat)
    ensures Hex4(text) == Some(n) <==> |text| >= 4 && Spells(text[..4], n)
  {
    hide HexDigit, IsHex;
    if |text| >= 4 {
      var a, b, c, d := HexDigit(text[0]), HexDigit(text[1]), HexDigit(text[2]), HexDigit(text[3]);
      HexDigitMeans(text[0], n / 4096);
      HexDigitMeans(text[1], n / 256 % 16);
      HexDigitMeans(text[2], n / 16 % 16);
      HexDigitMeans(text[3], n % 16);
      if a.Some? && b.Some? && c.Some? && d.Some? {
        DigitBound(text[0]);
        DigitBound(text[1]);
        DigitBound(text[2]);
        DigitBound(text[3]);
        DigitsApart(a.value, b.value, c.value, d.value, n);
      }
    }
  }

  lemma DigitBound(b: Byte)
    ensures HexDigit(b).Some? ==> HexDigit(b).value < 16
  {
  }

  function Escaped(digits: seq<Byte>): seq<Byte> { [BACKSLASH, 0x75] + digits }

  /** A scalar value below 10000 hexadecimal, written as one escape, reads as its UTF-8 encoding. */
  lemma ScalarReads(cp: nat, digits: seq<Byte>, rest: seq<Byte>)
    requires U.IsScalar(cp) && cp < 0x10000 && Spells(digits, cp)
    ensures OnePiece(Escaped(digits) + rest) == Some(Piece(U.Encode(cp), rest))
  {
    hide Hex4, Spells, U.Encode;
    var text := Escaped(digits) + rest;
    assert |digits| == 4 by { FourDigits(digits, cp); }
    assert text[2..] == digits + rest && (digits + rest)[..4] == digits && (digits + rest)[4..] == rest;
    Hex4Means(digits + rest, cp);
  }

  lemma FourDigits(digits: seq<Byte>, n: nat)
    requires Spells(digits, n)
    ensures |digits| == 4
  {
  }

  /** Any other scalar value, written as a pair of surrogates, reads as its UTF-8 encoding. */
  lemma PairReads(cp: nat, high: seq<Byte>, low: seq<Byte>, rest: seq<Byte>)
    requires 0x10000 <= cp <= 0x10FFFF
    requires Spells(high, 0xD800 + (cp - 0x10000) / 1024) && Spells(low, 0xDC00 + (cp - 0x10000) % 1024)
    ensures OnePiece(Escaped(high) + Escaped(low) + rest) == Some(Piece(U.Encode(cp), rest))
  {
    hide Hex4, Spells, U.Encode;
    var text := Escaped(high) + Escaped(low) + rest;
    FourDigits(high, 0xD800 + (cp - 0x10000) / 1024);
    FourDigits(low, 0xDC00 + (cp - 0x10000) % 1024);
    var after := text[2..];
    assert after == high + (Escaped(low) + rest) && after[..4] == high;
    assert after[4] == BACKSLASH && after[5] == 0x75 && after[6..] == low + rest && after[10..] == rest;
    assert (low + rest)[..4] == low;
    Hex4Means(after, 0xD800 + (cp - 0x10000) / 1024);
    Hex4Means(after[6..], 0xDC00 + (cp - 0x10000) % 1024);
  }

  /** Nothing else reads: what is read after the letter u is one scalar value, in one of these forms. */
  lemma OnlyScalarsRead(text: seq<Byte>, piece: Piece)
    requires OnePiece(Escaped(text)) == Some(piece)
    ensures exists cp: nat :: U.IsScalar(cp) && piece.bytes == U.Encode(cp) && WrittenAs(text, cp, piece.rest)
  {
    hide Hex4, Spells, U.Encode;
    assert Escaped(text)[2..] == text;
    var n := Hex4(text).value;
    Hex4Means(text, n);
    if 0xD800 <= n <= 0xDBFF {
      var low := Hex4(text[6..]).value;
      Hex4Means(text[6..], low);
      var cp := 0x10000 + (n - 0xD800) * 1024 + (low - 0xDC00);
      assert (cp - 0x10000) / 1024 == n - 0xD800 && (cp - 0x10000) % 1024 == low - 0xDC00;
      assert text == text[..4] + Escaped(text[6..10]) + text[10..];
      assert text[6..][..4] == text[6..10];
      assert IsPair(text[..4], text[6..10], cp);
      assert WrittenAs(text, cp, text[10..]);
    } else {
      assert text == text[..4] + text[4..];
      assert WrittenAs(text, n, text[4..]);
    }
  }

  ghost predicate IsPair(high: seq<Byte>, low: seq<Byte>, cp: nat) {
    && 0x10000 <= cp <= 0x10FFFF
    && Spells(high, 0xD800 + (cp - 0x10000) / 1024) && Spells(low, 0xDC00 + (cp - 0x10000) % 1024)
  }

  ghost predicate WrittenAs(text: seq<Byte>, cp: nat, rest: seq<Byte>) {
    || (|text| >= 4 && Spells(text[..4], cp) && text == text[..4] + rest)
    || (exists high, low :: IsPair(high, low, cp) && text == high + Escaped(low) + rest)
  }

  /** The eight short escapes, and no others. */
  function Short(): map<Byte, Byte> {
    map[0x22 := 0x22, 0x5C := 0x5C, 0x2F := 0x2F, 0x62 := 0x08, 0x66 := 0x0C, 0x6E := 0x0A, 0x72 := 0x0D, 0x74 := 0x09]
  }

  lemma ShortReads(letter: Byte, rest: seq<Byte>)
    requires letter != 0x75
    ensures OnePiece([BACKSLASH, letter] + rest) ==
      if letter in Short() then Some(Piece([Short()[letter]], rest)) else None
  {
    assert ([BACKSLASH, letter] + rest)[2..] == rest;
  }
}
