/** The artifact envelope: magic, versions, payload length and digest around a canonical plan
    document.  Parsing and serialising undo each other. */
module Artifacts {
  import opened Wrappers
  import opened Bytes
  import opened Utf8
  import C = Codec
  import opened Codec
  import opened CanonicalStream
  import opened PlanDocument

  type Digest = s: seq<Byte> | |s| == 32 witness seq(32, _ => 0)

  const HEADER_PREFIX: nat := 32

  const HEADER_BYTES: nat := 64

  const FORMAT_VERSION: nat := 1

  const SCHEMA_VERSION: nat := 1

  /** The format name, padded with zeros to 16 bytes. */
  function Magic(): (m: seq<Byte>)
    ensures |m| == 16
  {
    Ascii("CPLAN-ARTIFACT") + [0, 0]
  }

  datatype ArtifactError =
    | TooLarge | TooShort | BadMagic | Unsupported | WrongLength | DigestMismatch | Undecodable | TrailingBytes
    | BadStructure | NotCanonical

  // ----- whatever decodes is a value of the schema -----

  lemma TextDecodes(data: seq<Byte>, lim: Limits)
    requires DecodeText(data, lim).Some?
    ensures var text := DecodeText(data, lim).value.0; |text| < TWO_32 && |text| <= lim.maxText && IsUtf8(text)
  {
    hide IsUtf8;
    PowersInUse();
    LittleOnto(data[..4]);
  }

  lemma PrimitiveMatches(s: Schema, data: seq<Byte>, lim: Limits)
    requires Decode(s, data, lim).Some? && !s.List? && !s.Then?
    ensures Matches(s, Decode(s, data, lim).value.value, lim)
  {
    hide IsUtf8, IsIdentity, DecodeText, FromLittle, Power;
    PowersInUse();
    match s
    case Word => LittleOnto(data[..4]);
    case Number(_) => LittleOnto(data[..8]);
    case Signed => LittleOnto(data[..8]);
    case Text(_) => TextDecodes(data, lim);
    case Identity => TextDecodes(data, lim);
    case Tag(_) => TextDecodes(data, lim);
    case _ =>
  }

  lemma {:induction false} DecodeMatches(s: Schema, data: seq<Byte>, lim: Limits)
    requires Decode(s, data, lim).Some?
    ensures Matches(s, Decode(s, data, lim).value.value, lim)
    decreases s, 0
  {
    if s.Then? {
      var h := Decode(s.head, data, lim).value;
      DecodeMatches(s.head, data, lim);
      DecodeMatches(s.tail, h.rest, lim);
    } else if s.List? {
      PowersInUse();
      LittleOnto(data[..4]);
      ItemsMatch(s.element, FromLittle(data[..4]), data[4..], lim);
    } else {
      PrimitiveMatches(s, data, lim);
    }
  }

  lemma {:induction false} ItemsMatch(e: Schema, n: nat, data: seq<Byte>, lim: Limits)
    requires DecodeItems(e, n, data, lim).Some?
    ensures var items := DecodeItems(e, n, data, lim).value.0; |items| == n && AllMatch(e, items, lim)
    decreases e, n + 1
  {
    hide Decode, Matches;
    if n > 0 {
      DecodeMatches(e, data, lim);
      ItemsMatch(e, n - 1, Decode(e, data, lim).value.rest, lim);
    }
  }

  // ----- the envelope -----

  function Header(payload: seq<Byte>): (h: seq<Byte>)
    ensures |h| == HEADER_PREFIX
  {
    Magic() + Little(FORMAT_VERSION, 4) + Little(SCHEMA_VERSION, 4) + Little(|payload|, 8)
  }

  function Envelope(payload: seq<Byte>, hash: seq<Byte> -> Digest): seq<Byte> {
    Header(payload) + hash(Header(payload) + payload) + payload
  }

  ghost function Serialized(v: Value, lim: Limits, hash: seq<Byte> -> Digest): seq<Byte>
    requires Matches(PlanSchema(REF_MINIMUM), v, lim)
  {
    Envelope(C.Encode(PlanSchema(REF_MINIMUM), v, lim), hash)
  }

  method SerializePlanArtifact(v: Value, ghost lim: Limits, hash: seq<Byte> -> Digest) returns (bytes: seq<Byte>)
    requires Matches(PlanSchema(REF_MINIMUM), v, lim)
    ensures bytes == Serialized(v, lim, hash)
  {
    hide PlanSchema, Matches, C.Encode, Little, Magic;
    var encoder := new CanonicalEncoder();
    encoder.Put(PlanSchema(REF_MINIMUM), v, lim);
    var payload := encoder.buffer;
    assert payload == C.Encode(PlanSchema(REF_MINIMUM), v, lim);
    var out := new CanonicalEncoder();
    out.PutFixed(Magic());
    out.PutLittle(FORMAT_VERSION, 4);
    out.PutLittle(SCHEMA_VERSION, 4);
    out.PutLittle(|payload|, 8);
    assert out.buffer == Header(payload);
    var digest := hash(out.buffer + payload);
    out.PutFixed(digest);
    out.PutFixed(payload);
    bytes := out.buffer;
  }

  /** What the header fields of an envelope are. */
  lemma EnvelopeParts(payload: seq<Byte>, digest: Digest)
    requires |payload| < C.TWO_64
    ensures var bytes := Header(payload) + digest + payload;
      && |bytes| == HEADER_BYTES + |payload|
      && bytes[..16] == Magic() && bytes[..HEADER_PREFIX] == Header(payload)
      && FromLittle(bytes[16..20]) == FORMAT_VERSION && FromLittle(bytes[20..24]) == SCHEMA_VERSION
      && FromLittle(bytes[24..32]) == |payload|
      && bytes[HEADER_PREFIX..HEADER_BYTES] == digest && bytes[HEADER_BYTES..] == payload
  {
    hide Little, FromLittle, Power, Magic;
    PowersInUse();
    LittleRoundTrip(FORMAT_VERSION, 4);
    LittleRoundTrip(SCHEMA_VERSION, 4);
    LittleRoundTrip(|payload|, 8);
    var bytes := Header(payload) + digest + payload;
    assert bytes[16..20] == Little(FORMAT_VERSION, 4);
    assert bytes[20..24] == Little(SCHEMA_VERSION, 4);
    assert bytes[24..32] == Little(|payload|, 8);
  }

  /** An envelope whose fields check out is the one its payload is serialised into. */
  lemma PartsEnvelope(bytes: seq<Byte>, payload: seq<Byte>, hash: seq<Byte> -> Digest)
    requires |bytes| >= HEADER_BYTES && payload == bytes[HEADER_BYTES..]
    requires bytes[..16] == Magic()
    requires FromLittle(bytes[16..20]) == FORMAT_VERSION && FromLittle(bytes[20..24]) == SCHEMA_VERSION
    requires FromLittle(bytes[24..32]) == |payload|
    requires bytes[HEADER_PREFIX..HEADER_BYTES] == hash(bytes[..HEADER_PREFIX] + payload)
    ensures bytes == Envelope(payload, hash)
  {
    hide Little, FromLittle, Magic;
    LittleOnto(bytes[16..20]);
    LittleOnto(bytes[20..24]);
    LittleOnto(bytes[24..32]);
    assert bytes[..HEADER_PREFIX] == bytes[..16] + bytes[16..20] + bytes[20..24] + bytes[24..32];
    assert bytes[..HEADER_PREFIX] == Header(payload);
    assert bytes == bytes[..HEADER_PREFIX] + bytes[HEADER_PREFIX..HEADER_BYTES] + payload;
  }

  // ----- parsing -----

  /** The bytes are the artifact of this plan, within the limits and with room for its references. */
  ghost predicate IsArtifactOf(bytes: seq<Byte>, v: Value, maxBytes: nat, lim: Limits, hash: seq<Byte> -> Digest,
                               structureOk: Value -> bool) {
    && |bytes| <= maxBytes && Matches(PlanSchema(REF_MINIMUM), v, lim)
    && bytes == Serialized(v, lim, hash) && |C.Encode(PlanSchema(REF_MINIMUM), v, lim)| <= lim.maxTotal
    && RoomForReferences(v, lim) && structureOk(v)
  }

  ghost predicate Payload(payload: seq<Byte>, v: Value, lim: Limits) {
    && Matches(PlanSchema(REF_MINIMUM), v, lim) && payload == C.Encode(PlanSchema(REF_MINIMUM), v, lim)
    && |payload| <= lim.maxTotal && Fits(PlanSchema(REF_MINIMUM), v, lim, 0)
  }

  /** The payload decodes to the value and ends there. */
  ghost predicate DecodesTo(payload: seq<Byte>, v: Value, lim: Limits) {
    |payload| <= lim.maxTotal && Decode(PlanSchema(REF_MINIMUM), payload, lim) == Some(Decoded(v, []))
  }

  /** Why a payload is refused: it does not decode, something is left of it, what it decodes to is no
      sound plan, or that plan is not written like this. */
  ghost predicate PayloadFails(payload: seq<Byte>, lim: Limits, structureOk: Value -> bool, e: ArtifactError) {
    var decoded := Decode(PlanSchema(REF_MINIMUM), payload, lim);
    match e
    case Undecodable => |payload| > lim.maxTotal || decoded == None
    case TrailingBytes => |payload| <= lim.maxTotal && decoded.Some? && decoded.value.rest != []
    case BadStructure => exists v :: DecodesTo(payload, v, lim) && !structureOk(v)
    case NotCanonical => exists v :: DecodesTo(payload, v, lim) && structureOk(v) && !Payload(payload, v, lim)
    case _ => false
  }

  lemma PayloadErrors(payload: seq<Byte>, lim: Limits, structureOk: Value -> bool, e: ArtifactError)
    ensures PayloadFails(payload, lim, structureOk, e) ==>
      e in {Undecodable, TrailingBytes, BadStructure, NotCanonical}
  {
  }

  /** Decodes a payload and checks that it is the canonical form of what it decodes to. */
  method DecodePayload(payload: seq<Byte>, lim: Limits, structureOk: Value -> bool)
    returns (r: Result<Value, ArtifactError>)
    ensures forall v :: r == Ok(v) <==> Payload(payload, v, lim) && structureOk(v)
    ensures r.Err? ==> PayloadFails(payload, lim, structureOk, r.error)
  {
    hide PlanSchema, Matches, C.Encode, Fits, Decode;
    var s := PlanSchema(REF_MINIMUM);
    forall v | Payload(payload, v, lim) ensures Decode(s, payload, lim) == Some(Decoded(v, [])) {
      RoundTrip(s, v, lim, []);
      assert payload + [] == payload;
    }
    var decoder := new CanonicalDecoder(payload, lim);
    assert decoder.Rest() == payload;
    var plan := decoder.Get(s);
    if decoder.failed { return Err(Undecodable); }
    if decoder.position != |payload| { return Err(TrailingBytes); }
    DecodeMatches(s, payload, lim);
    if !structureOk(plan) { return Err(BadStructure); }
    var reencoder := new CanonicalEncoder();
    reencoder.Put(s, plan, lim);
    if reencoder.buffer != payload { return Err(NotCanonical); }
    RoundTrip(s, plan, lim, []);
    assert payload + [] == payload;
    r := Ok(plan);
  }

  lemma ArtifactIsPayload(bytes: seq<Byte>, v: Value, maxBytes: nat, lim: Limits, hash: seq<Byte> -> Digest,
                          structureOk: Value -> bool)
    requires maxBytes < C.TWO_64 && IsArtifactOf(bytes, v, maxBytes, lim, hash, structureOk)
    ensures |bytes| >= HEADER_BYTES && Payload(bytes[HEADER_BYTES..], v, lim) && structureOk(v)
    ensures var payload := bytes[HEADER_BYTES..];
      && bytes[..16] == Magic() && bytes[..HEADER_PREFIX] == Header(payload)
      && FromLittle(bytes[16..20]) == FORMAT_VERSION && FromLittle(bytes[20..24]) == SCHEMA_VERSION
      && FromLittle(bytes[24..32]) == |payload|
      && bytes[HEADER_PREFIX..HEADER_BYTES] == hash(bytes[..HEADER_PREFIX] + payload)
  {
    hide PlanSchema, Matches, C.Encode, Fits, FromLittle, Magic, RoomForReferences;
    FitsMeansRoom(v, lim);
    var payload := C.Encode(PlanSchema(REF_MINIMUM), v, lim);
    EnvelopeParts(payload, hash(Header(payload) + payload));
  }

  /** The checks before the payload is looked at. */
  ghost predicate HeaderPasses(bytes: seq<Byte>, hash: seq<Byte> -> Digest) {
    && |bytes| >= HEADER_BYTES && bytes[..16] == Magic()
    && FromLittle(bytes[16..20]) == FORMAT_VERSION && FromLittle(bytes[20..24]) == SCHEMA_VERSION
    && FromLittle(bytes[24..32]) == |bytes| - HEADER_BYTES
    && bytes[HEADER_PREFIX..HEADER_BYTES] == hash(bytes[..HEADER_PREFIX] + bytes[HEADER_BYTES..])
  }

  lemma PayloadIsArtifact(bytes: seq<Byte>, v: Value, maxBytes: nat, lim: Limits, hash: seq<Byte> -> Digest,
                          structureOk: Value -> bool)
    requires HeaderPasses(bytes, hash) && |bytes| <= maxBytes
    requires Payload(bytes[HEADER_BYTES..], v, lim) && structureOk(v)
    ensures IsArtifactOf(bytes, v, maxBytes, lim, hash, structureOk)
  {
    hide PlanSchema, Matches, C.Encode, Fits, RoomForReferences, FromLittle, Magic, Envelope;
    PartsEnvelope(bytes, bytes[HEADER_BYTES..], hash);
    FitsMeansRoom(v, lim);
  }

  /** Why bytes are refused, by the first thing that is wrong with them: their size, the envelope from
      front to back, or the payload. */
  ghost predicate Refused(bytes: seq<Byte>, maxBytes: nat, lim: Limits, hash: seq<Byte> -> Digest,
                          structureOk: Value -> bool, e: ArtifactError) {
    var sized := HEADER_BYTES <= |bytes| <= maxBytes;
    match e
    case TooLarge => |bytes| > maxBytes
    case TooShort => |bytes| <= maxBytes && |bytes| < HEADER_BYTES
    case BadMagic => sized && bytes[..16] != Magic()
    case Unsupported =>
      && sized && bytes[..16] == Magic()
      && (FromLittle(bytes[16..20]) != FORMAT_VERSION || FromLittle(bytes[20..24]) != SCHEMA_VERSION)
    case WrongLength =>
      && sized && bytes[..16] == Magic() && FromLittle(bytes[16..20]) == FORMAT_VERSION
      && FromLittle(bytes[20..24]) == SCHEMA_VERSION && FromLittle(bytes[24..32]) != |bytes| - HEADER_BYTES
    case DigestMismatch =>
      && sized && bytes[..16] == Magic() && FromLittle(bytes[16..20]) == FORMAT_VERSION
      && FromLittle(bytes[20..24]) == SCHEMA_VERSION && FromLittle(bytes[24..32]) == |bytes| - HEADER_BYTES
      && !HeaderPasses(bytes, hash)
    case _ => sized && HeaderPasses(bytes, hash) && PayloadFails(bytes[HEADER_BYTES..], lim, structureOk, e)
  }

  lemma OneFault(payload: seq<Byte>, lim: Limits, structureOk: Value -> bool, e: ArtifactError, f: ArtifactError)
    requires PayloadFails(payload, lim, structureOk, e) && PayloadFails(payload, lim, structureOk, f)
    ensures e == f
  {
    hide Decode, PlanSchema, Payload;
  }

  /** Bytes are refused for one reason only. */
  lemma OneReason(bytes: seq<Byte>, maxBytes: nat, lim: Limits, hash: seq<Byte> -> Digest, structureOk: Value -> bool,
                  e: ArtifactError, f: ArtifactError)
    requires Refused(bytes, maxBytes, lim, hash, structureOk, e) && Refused(bytes, maxBytes, lim, hash, structureOk, f)
    ensures e == f
  {
    hide PayloadFails, Magic, FromLittle;
    if |bytes| >= HEADER_BYTES {
      var payload := bytes[HEADER_BYTES..];
      PayloadErrors(payload, lim, structureOk, e);
      PayloadErrors(payload, lim, structureOk, f);
      if PayloadFails(payload, lim, structureOk, e) && PayloadFails(payload, lim, structureOk, f) {
        OneFault(payload, lim, structureOk, e, f);
      }
    }
  }

  /** The checks on the size and the header, from front to back. */
  method CheckHeader(bytes: seq<Byte>, maxBytes: nat, ghost lim: Limits, hash: seq<Byte> -> Digest,
                     ghost structureOk: Value -> bool)
    returns (fault: Option<ArtifactError>)
    ensures fault == None <==> |bytes| <= maxBytes && HeaderPasses(bytes, hash)
    ensures fault.Some? ==> Refused(bytes, maxBytes, lim, hash, structureOk, fault.value)
  {
    hide PayloadFails, FromLittle, Magic;
    if |bytes| > maxBytes { return Some(TooLarge); }
    if |bytes| < HEADER_BYTES { return Some(TooShort); }
    if bytes[..16] != Magic() { return Some(BadMagic); }
    if FromLittle(bytes[16..20]) != FORMAT_VERSION { return Some(Unsupported); }
    if FromLittle(bytes[20..24]) != SCHEMA_VERSION { return Some(Unsupported); }
    if FromLittle(bytes[24..32]) != |bytes| - HEADER_BYTES { return Some(WrongLength); }
    var payload := bytes[HEADER_BYTES..];
    if bytes[HEADER_PREFIX..HEADER_BYTES] != hash(bytes[..HEADER_PREFIX] + payload) { return Some(DigestMismatch); }
    fault := None;
  }

  lemma PayloadRefused(bytes: seq<Byte>, maxBytes: nat, lim: Limits, hash: seq<Byte> -> Digest,
                       structureOk: Value -> bool, e: ArtifactError)
    requires |bytes| <= maxBytes && HeaderPasses(bytes, hash) && |bytes| >= HEADER_BYTES
    requires PayloadFails(bytes[HEADER_BYTES..], lim, structureOk, e)
    ensures Refused(bytes, maxBytes, lim, hash, structureOk, e)
  {
    hide HeaderPasses;
    PayloadErrors(bytes[HEADER_BYTES..], lim, structureOk, e);
  }

  /** Parses an artifact.  It yields a plan exactly when the bytes are what serialising that plan
      gives, within the limits, with room for its references and a sound structure; so a
      parsed artifact prints back byte for byte, and a serialised plan parses back to itself.  Other bytes
      are refused for the one reason there is. */
  method ParsePlanArtifact(bytes: seq<Byte>, maxBytes: nat, lim: Limits, hash: seq<Byte> -> Digest,
                           structureOk: Value -> bool)
    returns (r: Result<Value, ArtifactError>)
    requires maxBytes < C.TWO_64
    ensures forall v :: r == Ok(v) <==> IsArtifactOf(bytes, v, maxBytes, lim, hash, structureOk)
    ensures r.Err? ==> Refused(bytes, maxBytes, lim, hash, structureOk, r.error)
  {
    hide IsArtifactOf, Payload, PayloadFails, Refused, FromLittle, Magic;
    forall v | IsArtifactOf(bytes, v, maxBytes, lim, hash, structureOk)
      ensures |bytes| <= maxBytes && HeaderPasses(bytes, hash)
      ensures Payload(bytes[HEADER_BYTES..], v, lim) && structureOk(v)
    {
      WithinSize(bytes, v, maxBytes, lim, hash, structureOk);
      ArtifactIsPayload(bytes, v, maxBytes, lim, hash, structureOk);
    }
    var fault := CheckHeader(bytes, maxBytes, lim, hash, structureOk);
    if fault.Some? { return Err(fault.value); }
    var payload := bytes[HEADER_BYTES..];
    r := DecodePayload(payload, lim, structureOk);
    if r.Err? { PayloadRefused(bytes, maxBytes, lim, hash, structureOk, r.error); }
    if r.Ok? { PayloadIsArtifact(bytes, r.value, maxBytes, lim, hash, structureOk); }
  }

  lemma WithinSize(bytes: seq<Byte>, v: Value, maxBytes: nat, lim: Limits, hash: seq<Byte> -> Digest,
                   structureOk: Value -> bool)
    requires IsArtifactOf(bytes, v, maxBytes, lim, hash, structureOk)
    ensures |bytes| <= maxBytes
  {
  }

  /** The re-encoding check is needed: a flag byte other than 0 and 1 decodes, but is not how the
      flag is written. */
  lemma FlagsNeedTheCheck(b: Byte, lim: Limits)
    requires b > 1
    ensures Decode(Flag, [b], lim) == Some(Decoded(BoolV(true), [])) && C.Encode(Flag, BoolV(true), lim) != [b]
  {
    assert [b][1..] == [];
  }
}
