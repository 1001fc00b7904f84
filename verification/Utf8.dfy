/** UTF-8: the encoder and the validator agree.  The validator accepts exactly the texts that are
    concatenations of encodings, and a text is the concatenation of encodings in one way only. */
module Utf8 {
  import opened Wrappers
  import opened Bytes

  /** A code point that UTF-8 encodes (section 3 of RFC 3629): not a surrogate, at most 0x10FFFF. */
  predicate IsScalar(cp: nat) { cp <= 0x10FFFF && !(0xD800 <= cp <= 0xDFFF) }

  /** The six low bits after shifting right by `6 * k`, with the continuation mark. */
  function Continuation(shifted: nat): Byte { 0x80 + shifted % 64 }

  function Encode(cp: nat): seq<Byte>
    requires IsScalar(cp)
  {
    if cp < 0x80 then [cp]
    else if cp < 0x800 then [0xC0 + cp / 64, Continuation(cp)]
    else if cp < 0x10000 then [0xE0 + cp / 64 / 64, Continuation(cp / 64), Continuation(cp)]
    else [0xF0 + cp / 64 / 64 / 64, Continuation(cp / 64 / 64), Continuation(cp / 64), Continuation(cp)]
  }

  function EncodeAll(cps: seq<nat>): seq<Byte>
    requires forall i :: 0 <= i < |cps| ==> IsScalar(cps[i])
  {
    if cps == [] then [] else Encode(cps[0]) + EncodeAll(cps[1..])
  }

  /** Appends one code point, or refuses it and leaves the text alone. */
  method AppendUtf8(text: seq<Byte>, cp: nat) returns (r: seq<Byte>, ok: bool)
    ensures ok <==> IsScalar(cp)
    ensures r == if ok then text + Encode(cp) else text
  {
    if cp > 0x10FFFF { return text, false; }
    if cp >= 0xD800 && cp <= 0xDFFF { return text, false; }
    ok := true;
    if cp < 0x80 {
      r := text + [cp];
    } else if cp < 0x800 {
      r := text + [0xC0 + cp / 64, Continuation(cp)];
    } else if cp < 0x10000 {
      r := text + [0xE0 + cp / 64 / 64, Continuation(cp / 64), Continuation(cp)];
    } else {
      r := text + [0xF0 + cp / 64 / 64 / 64, Continuation(cp / 64 / 64), Continuation(cp / 64), Continuation(cp)];
    }
  }

  // ----- reading one code point -----

  datatype Lead = Lead(continuations: nat, bits: nat)

  function LeadOf(first: Byte): Option<Lead> {
    if first < 0x80 then Some(Lead(0, first))
    else if 0xC0 <= first < 0xE0 then Some(Lead(1, first - 0xC0))
    else if 0xE0 <= first < 0xF0 then Some(Lead(2, first - 0xE0))
    else if 0xF0 <= first < 0xF8 then Some(Lead(3, first - 0xF0))
    else None
  }

  predicate IsContinuation(b: Byte) { 0x80 <= b < 0xC0 }

  function Tail(text: seq<Byte>, n: nat, cp: nat): Option<nat>
    requires n <= |text|
    decreases n
  {
    if n == 0 then Some(cp)
    else if !IsContinuation(text[0]) then None
    else Tail(text[1..], n - 1, cp * 64 + (text[0] - 0x80))
  }

  /** The smallest code point that needs this many continuation bytes. */
  function Smallest(continuations: nat): nat {
    if continuations == 0 then 0 else if continuations == 1 then 0x80 else if continuations == 2 then 0x800 else 0x10000
  }

  datatype Read = Read(length: nat, cp: nat)

  /** The first code point of a text, if it starts with a well-formed one. */
  function ReadOne(text: seq<Byte>): Option<Read> {
    if text == [] then None
    else
      match LeadOf(text[0])
      case None => None
      case Some(lead) =>
        if lead.continuations >= |text| then None
        else
          match Tail(text[1..], lead.continuations, lead.bits)
          case None => None
          case Some(cp) =>
            if cp < Smallest(lead.continuations) || !IsScalar(cp) then None else Some(Read(lead.continuations + 1, cp))
  }

  ghost function DecodeAll(text: seq<Byte>): Option<seq<nat>>
    decreases |text|
  {
    if text == [] then Some([])
    else
      match ReadOne(text)
      case None => None
      case Some(r) =>
        if r.length > |text| then None
        else match DecodeAll(text[r.length..]) case None => None case Some(rest) => Some([r.cp] + rest)
  }

  // ----- encoding and reading undo each other -----

  lemma TailOne(text: seq<Byte>, cp: nat)
    requires |text| >= 1
    ensures Tail(text, 1, cp) == if IsContinuation(text[0]) then Some(cp * 64 + (text[0] - 0x80)) else None
  {
  }

  lemma TailTwo(text: seq<Byte>, cp: nat)
    requires |text| >= 2
    ensures Tail(text, 2, cp) ==
      if IsContinuation(text[0]) && IsContinuation(text[1]) then
        Some((cp * 64 + (text[0] - 0x80)) * 64 + (text[1] - 0x80))
      else None
  {
    if IsContinuation(text[0]) { TailOne(text[1..], cp * 64 + (text[0] - 0x80)); }
  }

  lemma TailThree(text: seq<Byte>, cp: nat)
    requires |text| >= 3
    ensures Tail(text, 3, cp) ==
      if IsContinuation(text[0]) && IsContinuation(text[1]) && IsContinuation(text[2])
      then Some(((cp * 64 + (text[0] - 0x80)) * 64 + (text[1] - 0x80)) * 64 + (text[2] - 0x80)) else None
  {
    if IsContinuation(text[0]) { TailTwo(text[1..], cp * 64 + (text[0] - 0x80)); }
  }

  /** Six more bits, and how to take them off again. */
  lemma SixBits(high: nat, b: Byte)
    requires IsContinuation(b)
    ensures (high * 64 + (b - 0x80)) / 64 == high && Continuation(high * 64 + (b - 0x80)) == b
  {
  }

  lemma ReadEncodesShort(text: seq<Byte>)
    requires ReadOne(text).Some? && ReadOne(text).value.length <= 2
    ensures var r := ReadOne(text).value; 0 < r.length <= |text| && text[..r.length] == Encode(r.cp)
  {
    if ReadOne(text).value.length == 2 {
      var bits := LeadOf(text[0]).value.bits;
      TailOne(text[1..], bits);
      SixBits(bits, text[1]);
    }
  }

  lemma ReadEncodesThree(text: seq<Byte>)
    requires ReadOne(text).Some? && ReadOne(text).value.length == 3
    ensures |text| >= 3 && text[..3] == Encode(ReadOne(text).value.cp)
  {
    hide Continuation;
    var bits := LeadOf(text[0]).value.bits;
    TailTwo(text[1..], bits);
    SixBits(bits, text[1]);
    SixBits(bits * 64 + (text[1] - 0x80), text[2]);
  }

  lemma ReadEncodesFour(text: seq<Byte>)
    requires ReadOne(text).Some? && ReadOne(text).value.length == 4
    ensures |text| >= 4 && text[..4] == Encode(ReadOne(text).value.cp)
  {
    hide Continuation;
    var bits := LeadOf(text[0]).value.bits;
    TailThree(text[1..], bits);
    SixBits(bits, text[1]);
    var two := bits * 64 + (text[1] - 0x80);
    SixBits(two, text[2]);
    SixBits(two * 64 + (text[2] - 0x80), text[3]);
  }

  /** What is read was encoded. */
  lemma ReadEncodes(text: seq<Byte>)
    requires ReadOne(text).Some?
    ensures var r := ReadOne(text).value;
      0 < r.length <= |text| && IsScalar(r.cp) && text[..r.length] == Encode(r.cp)
  {
    hide Encode, Tail;
    var r := ReadOne(text).value;
    if r.length <= 2 { ReadEncodesShort(text); }
    else if r.length == 3 { ReadEncodesThree(text); }
    else { ReadEncodesFour(text); }
  }

  /** What is encoded is read back, whatever follows it. */
  lemma EncodeReads(cp: nat, rest: seq<Byte>)
    requires IsScalar(cp)
    ensures ReadOne(Encode(cp) + rest) == Some(Read(|Encode(cp)|, cp))
  {
    var text := Encode(cp) + rest;
    assert text[0] == Encode(cp)[0];
    var lead := LeadOf(text[0]);
    if cp >= 0x80 {
      assert text[1] == Encode(cp)[1];
      if cp < 0x800 {
        TailOne(text[1..], cp / 64);
      } else {
        assert text[2] == Encode(cp)[2];
        if cp < 0x10000 {
          TailTwo(text[1..], cp / 64 / 64);
        } else {
          assert text[3] == Encode(cp)[3];
          TailThree(text[1..], cp / 64 / 64 / 64);
        }
      }
    }
  }

  ghost predicate AllScalars(cps: seq<nat>) { forall i :: 0 <= i < |cps| ==> IsScalar(cps[i]) }

  /** Decoding inverts encoding, so the encoding of a text is unique. */
  lemma {:induction false} DecodeEncodes(cps: seq<nat>)
    requires AllScalars(cps)
    ensures DecodeAll(EncodeAll(cps)) == Some(cps)
  {
    hide Encode, ReadOne;
    if cps != [] {
      var text := EncodeAll(cps);
      EncodeReads(cps[0], EncodeAll(cps[1..]));
      EncodeNonEmpty(cps[0]);
      assert text == Encode(cps[0]) + EncodeAll(cps[1..]);
      assert text[|Encode(cps[0])|..] == EncodeAll(cps[1..]);
      assert cps == [cps[0]] + cps[1..];
      DecodeEncodes(cps[1..]);
    }
  }

  lemma EncodeNonEmpty(cp: nat)
    requires IsScalar(cp)
    ensures |Encode(cp)| > 0
  {
  }

  /** Encoding inverts decoding. */
  lemma {:induction false} EncodeDecodes(text: seq<Byte>)
    requires DecodeAll(text).Some?
    ensures AllScalars(DecodeAll(text).value) && EncodeAll(DecodeAll(text).value) == text
    decreases |text|
  {
    hide Encode, ReadOne;
    if text != [] {
      var r := ReadOne(text).value;
      ReadEncodes(text);
      EncodeDecodes(text[r.length..]);
      assert text == text[..r.length] + text[r.length..];
    }
  }

  ghost predicate IsUtf8(text: seq<Byte>) {
    exists cps :: AllScalars(cps) && text == EncodeAll(cps)
  }

  lemma DecodableIsUtf8(text: seq<Byte>)
    ensures DecodeAll(text).Some? <==> IsUtf8(text)
  {
    if DecodeAll(text).Some? { EncodeDecodes(text); }
    if IsUtf8(text) {
      var cps :| AllScalars(cps) && text == EncodeAll(cps);
      DecodeEncodes(cps);
    }
  }

  // ----- the validator -----

  /** Reads the continuation bytes of one code point. */
  method ReadTail(text: seq<Byte>, index: nat, continuations: nat, bits: nat) returns (cp: Option<nat>)
    requires index + continuations < |text|
    ensures cp == Tail(text[index + 1..], continuations, bits)
  {
    var value: nat := bits;
    for k := 1 to continuations + 1
      invariant Tail(text[index + 1..], continuations, bits) == Tail(text[index + k..], continuations + 1 - k, value)
    {
      var next := text[index + k];
      assert text[index + k..][0] == next && text[index + k..][1..] == text[index + k + 1..];
      if !IsContinuation(next) { return None; }
      value := value * 64 + (next - 0x80);
    }
    cp := Some(value);
  }

  /** Accepts exactly the concatenations of encodings: no overlong forms, no surrogates, nothing
      above 0x10FFFF, no stray or missing continuation bytes. */
  method IsValidUtf8(text: seq<Byte>) returns (ok: bool)
    ensures ok <==> IsUtf8(text)
  {
    hide IsUtf8, Encode;
    DecodableIsUtf8(text);
    var index := 0;
    while index < |text|
      invariant index <= |text|
      invariant DecodeAll(text[index..]).Some? <==> DecodeAll(text).Some?
      decreases |text| - index
    {
      var first := text[index];
      assert text[index..][0] == first && text[index..][1..] == text[index + 1..];
      if first < 0x80 {
        assert ReadOne(text[index..]) == Some(Read(1, first));
        index := index + 1;
        continue;
      }
      var lead := LeadOf(first);
      if lead == None { return false; }
      var continuations := lead.value.continuations;
      if index + continuations >= |text| { return false; }
      var cp := ReadTail(text, index, continuations, lead.value.bits);
      if cp == None { return false; }
      if cp.value < Smallest(continuations) { return false; }
      if !IsScalar(cp.value) { return false; }
      assert ReadOne(text[index..]) == Some(Read(continuations + 1, cp.value));
      assert text[index..][continuations + 1..] == text[index + continuations + 1..];
      index := index + continuations + 1;
    }
    assert text[index..] == [];
    ok := true;
  }
}
