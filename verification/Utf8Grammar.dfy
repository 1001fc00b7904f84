/** UTF-8 as section 4 of RFC 3629 gives it, byte range by byte range: the encodings of scalar values are
    exactly the sequences of octets it derives, and valid texts the texts made of them. */
module Utf8Grammar {
  import opened Bytes
  import opened Utf8

  predicate IsTail(b: Byte) { 0x80 <= b <= 0xBF }

  /** The octets of one character. */
  predicate Octets(c: seq<Byte>) {
    match |c|
    case 1 => c[0] <= 0x7F
    case 2 => 0xC2 <= c[0] <= 0xDF && IsTail(c[1])
    case 3 =>
      && IsTail(c[1]) && IsTail(c[2])
      && ((c[0] == 0xE0 && 0xA0 <= c[1]) || 0xE1 <= c[0] <= 0xEC || (c[0] == 0xED && c[1] <= 0x9F)
          || 0xEE <= c[0] <= 0xEF)
    case 4 =>
      && IsTail(c[1]) && IsTail(c[2]) && IsTail(c[3])
      && ((c[0] == 0xF0 && 0x90 <= c[1]) || 0xF1 <= c[0] <= 0xF3 || (c[0] == 0xF4 && c[1] <= 0x8F))
    case _ => false
  }

  // The numbers that the free bits of two, three and four octets spell, the highest first.

  function Two(a: nat, b: nat): nat { a % 32 * 64 + b % 64 }

  function Three(a: nat, b: nat, c: nat): nat { (a % 16 * 64 + b % 64) * 64 + c % 64 }

  function Four(a: nat, b: nat, c: nat, d: nat): nat { ((a % 8 * 64 + b % 64) * 64 + c % 64) * 64 + d % 64 }

  function Spelled(c: seq<Byte>): nat {
    match |c|
    case 1 => c[0]
    case 2 => Two(c[0], c[1])
    case 3 => Three(c[0], c[1], c[2])
    case 4 => Four(c[0], c[1], c[2], c[3])
    case _ => 0
  }

  lemma Split(n: nat)
    ensures n == n / 64 * 64 + n % 64 && 0 <= n % 64 < 64
  {
  }

  lemma EncodedInTwo(cp: nat)
    requires 0x80 <= cp < 0x800
    ensures var a, b := 0xC0 + cp / 64, 0x80 + cp % 64; 0xC2 <= a <= 0xDF && 0x80 <= b <= 0xBF && Two(a, b) == cp
  {
    Split(cp);
  }

  lemma EncodedInThree(cp: nat)
    requires 0x800 <= cp < 0x10000 && !(0xD800 <= cp <= 0xDFFF)
    ensures var a, b, c := 0xE0 + cp / 64 / 64, 0x80 + cp / 64 % 64, 0x80 + cp % 64;
      && 0xE0 <= a <= 0xEF && 0x80 <= b <= 0xBF && 0x80 <= c <= 0xBF && Three(a, b, c) == cp
      && (a == 0xE0 ==> 0xA0 <= b) && (a == 0xED ==> b <= 0x9F)
  {
    Split(cp);
    Split(cp / 64);
  }

  lemma EncodedInFour(cp: nat)
    requires 0x10000 <= cp <= 0x10FFFF
    ensures var a, b, c, d := 0xF0 + cp / 64 / 64 / 64, 0x80 + cp / 64 / 64 % 64, 0x80 + cp / 64 % 64, 0x80 + cp % 64;
      && 0xF0 <= a <= 0xF4 && 0x80 <= b <= 0xBF && 0x80 <= c <= 0xBF && 0x80 <= d <= 0xBF && Four(a, b, c, d) == cp
      && (a == 0xF0 ==> 0x90 <= b) && (a == 0xF4 ==> b <= 0x8F)
  {
    Split(cp);
    Split(cp / 64);
    Split(cp / 64 / 64);
  }

  /** What a scalar value is encoded as are octets that spell it. */
  lemma EncodedIsOctets(cp: nat)
    requires IsScalar(cp)
    ensures Octets(Encode(cp)) && Spelled(Encode(cp)) == cp
  {
    hide Two, Three, Four;
    if cp < 0x80 {
    } else if cp < 0x800 {
      EncodedInTwo(cp);
    } else if cp < 0x10000 {
      EncodedInThree(cp);
    } else {
      EncodedInFour(cp);
    }
  }

  lemma Regrouped(high: nat, low: nat)
    requires low < 64
    ensures (high * 64 + low) / 64 == high && (high * 64 + low) % 64 == low
  {
  }

  lemma TwoOctets(a: nat, b: nat)
    requires 0xC2 <= a <= 0xDF && 0x80 <= b <= 0xBF
    ensures var cp := Two(a, b); 0x80 <= cp < 0x800 && a == 0xC0 + cp / 64 && b == 0x80 + cp % 64
  {
    Regrouped(a % 32, b % 64);
  }

  lemma ThreeOctets(a: nat, b: nat, c: nat)
    requires 0xE0 <= a <= 0xEF && 0x80 <= b <= 0xBF && 0x80 <= c <= 0xBF
    requires (a == 0xE0 ==> 0xA0 <= b) && (a == 0xED ==> b <= 0x9F)
    ensures var cp := Three(a, b, c);
      && 0x800 <= cp < 0x10000 && !(0xD800 <= cp <= 0xDFFF)
      && a == 0xE0 + cp / 64 / 64 && b == 0x80 + cp / 64 % 64 && c == 0x80 + cp % 64
  {
    Regrouped(a % 16, b % 64);
    Regrouped(a % 16 * 64 + b % 64, c % 64);
  }

  lemma FourOctets(a: nat, b: nat, c: nat, d: nat)
    requires 0xF0 <= a <= 0xF4 && 0x80 <= b <= 0xBF && 0x80 <= c <= 0xBF && 0x80 <= d <= 0xBF
    requires (a == 0xF0 ==> 0x90 <= b) && (a == 0xF4 ==> b <= 0x8F)
    ensures var cp := Four(a, b, c, d);
      && 0x10000 <= cp <= 0x10FFFF && a == 0xF0 + cp / 64 / 64 / 64
      && b == 0x80 + cp / 64 / 64 % 64 && c == 0x80 + cp / 64 % 64 && d == 0x80 + cp % 64
  {
    Regrouped(a % 8, b % 64);
    Regrouped(a % 8 * 64 + b % 64, c % 64);
    Regrouped((a % 8 * 64 + b % 64) * 64 + c % 64, d % 64);
  }

  /** Octets are what the scalar value they spell is encoded as. */
  lemma OctetsAreEncoded(c: seq<Byte>)
    requires Octets(c)
    ensures IsScalar(Spelled(c)) && Encode(Spelled(c)) == c
  {
    hide Two, Three, Four;
    if |c| == 2 {
      TwoOctets(c[0], c[1]);
    } else if |c| == 3 {
      ThreeOctets(c[0], c[1], c[2]);
    } else if |c| == 4 {
      FourOctets(c[0], c[1], c[2], c[3]);
    }
  }

  ghost predicate AllOctets(chars: seq<seq<Byte>>) { forall i :: 0 <= i < |chars| ==> Octets(chars[i]) }

  function Joined(chars: seq<seq<Byte>>): seq<Byte> { if chars == [] then [] else chars[0] + Joined(chars[1..]) }

  lemma {:induction false} EncodedText(cps: seq<nat>) returns (chars: seq<seq<Byte>>)
    requires AllScalars(cps)
    ensures AllOctets(chars) && Joined(chars) == EncodeAll(cps)
  {
    hide Encode, Octets;
    chars := [];
    if cps != [] {
      var rest := EncodedText(cps[1..]);
      EncodedIsOctets(cps[0]);
      chars := [Encode(cps[0])] + rest;
      assert chars[1..] == rest;
    }
  }

  lemma {:induction false} TextOfOctets(chars: seq<seq<Byte>>) returns (cps: seq<nat>)
    requires AllOctets(chars)
    ensures AllScalars(cps) && Joined(chars) == EncodeAll(cps)
  {
    hide Encode, Octets, IsScalar, Spelled;
    cps := [];
    if chars != [] {
      var rest := TextOfOctets(chars[1..]);
      OctetsAreEncoded(chars[0]);
      cps := [Spelled(chars[0])] + rest;
      assert cps[1..] == rest;
    }
  }

  /** A text is accepted exactly if it is a row of characters the grammar derives. */
  lemma ValidExactly(text: seq<Byte>)
    ensures IsUtf8(text) <==> exists chars :: AllOctets(chars) && text == Joined(chars)
  {
    if IsUtf8(text) {
      var cps :| AllScalars(cps) && text == EncodeAll(cps);
      var chars := EncodedText(cps);
    }
    if chars :| AllOctets(chars) && text == Joined(chars) { var cps := TextOfOctets(chars); }
  }
}
