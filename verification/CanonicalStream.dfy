/** The canonical encoder and the bounds-checked decoder as the objects they are: a growing buffer,
    and a position that moves forward until the first failure, which sticks. */
module CanonicalStream {
  import opened Wrappers
  import opened Bytes
  import opened Utf8
  import opened Codec

  class CanonicalEncoder {
    var buffer: seq<Byte>

    constructor ()
      ensures buffer == []
    {
      buffer := [];
    }

    method PutU8(b: Byte)
      modifies this
      ensures buffer == old(buffer) + [b]
    {
      buffer := buffer + [b];
    }

    /** Writes the `k` low bytes, lowest first. */
    method PutLittle(n: nat, k: nat)
      modifies this
      ensures buffer == old(buffer) + Little(n, k)
    {
      var shifted := n;
      assert old(buffer) + Little(n, k) == buffer + Little(shifted, k - 0);
      for i := 0 to k
        invariant old(buffer) + Little(n, k) == buffer + Little(shifted, k - i)
      {
        assert buffer + Little(shifted, k - i) == (buffer + [shifted % 256]) + Little(shifted / 256, k - (i + 1));
        PutU8(shifted % 256);
        shifted := shifted / 256;
      }
      assert buffer + Little(shifted, 0) == buffer;
    }

    method PutText(text: seq<Byte>)
      requires |text| < TWO_32
      modifies this
      ensures buffer == old(buffer) + EncodeText(text)
    {
      PutLittle(|text|, 4);
      for i := 0 to |text|
        invariant buffer == old(buffer) + Little(|text|, 4) + text[..i]
      {
        assert text[..i + 1] == text[..i] + [text[i]];
        PutU8(text[i]);
      }
      assert text[..|text|] == text;
    }

    method PutFixed(bytes: seq<Byte>)
      modifies this
      ensures buffer == old(buffer) + bytes
    {
      buffer := buffer + bytes;
    }

    method PutPrimitive(s: Schema, v: Value, ghost lim: Limits)
      requires Matches(s, v, lim) && !s.List? && !s.Then?
      modifies this
      ensures buffer == old(buffer) + Codec.Encode(s, v, lim)
    {
      hide IsUtf8, IsIdentity, Little, EncodeText;
      match s
      case Flag => PutU8(if v.b then 1 else 0);
      case Small(_) => PutU8(v.n);
      case Word => PutLittle(v.n, 4);
      case Number(_) => PutLittle(v.n, 8);
      case Signed => PutLittle(TwosComplement(v.i), 8);
      case Text(_) => PutText(v.bytes);
      case Identity =>
        IdentityIsUtf8(v.bytes);
        PutText(v.bytes);
      case Fixed(_) => PutFixed(v.bytes);
      case Tag(name) => PutText(name);
      case Done => assert buffer + [] == buffer;
    }

    /** Writes a value field by field; nothing already written changes. */
    method Put(s: Schema, v: Value, ghost lim: Limits)
      requires Matches(s, v, lim)
      modifies this
      ensures buffer == old(buffer) + Codec.Encode(s, v, lim)
      decreases s, 0
    {
      hide Little, EncodeText, TextOk;
      if s.Then? {
        Put(s.head, v.first, lim);
        Put(s.tail, v.second, lim);
      } else if s.List? {
        PutLittle(|v.items|, 4);
        PutItems(s.element, v.items, lim);
      } else {
        PutPrimitive(s, v, lim);
      }
    }

    method PutItems(e: Schema, items: seq<Value>, ghost lim: Limits)
      requires AllMatch(e, items, lim)
      modifies this
      ensures buffer == old(buffer) + EncodeItems(e, items, lim)
      decreases e, |items| + 1
    {
      hide Codec.Encode, Matches;
      for i := 0 to |items|
        invariant old(buffer) + EncodeItems(e, items, lim) == buffer + EncodeItems(e, items[i..], lim)
      {
        NextItem(e, items, i, buffer, lim);
        Put(e, items[i], lim);
      }
      assert items[|items|..] == [];
    }
  }

  lemma NextItem(e: Schema, items: seq<Value>, i: nat, before: seq<Byte>, lim: Limits)
    requires AllMatch(e, items, lim) && i < |items|
    ensures before + EncodeItems(e, items[i..], lim) ==
      before + Codec.Encode(e, items[i], lim) + EncodeItems(e, items[i + 1..], lim)
  {
    hide Codec.Encode, Matches;
    assert items[i..][0] == items[i] && items[i..][1..] == items[i + 1..];
  }

  lemma {:induction false} FromLittleAppend(s: seq<Byte>, b: Byte)
    ensures FromLittle(s + [b]) == FromLittle(s) + b * Power(|s|)
  {
    if s == [] {
      assert [] + [b] == [b];
      assert FromLittle([b]) == b + 256 * FromLittle([b][1..]);
    } else {
      FromLittleAppend(s[1..], b);
      assert (s + [b])[1..] == s[1..] + [b];
      assert 256 * (b * Power(|s| - 1)) == b * Power(|s|);
    }
  }

  /** The elements read so far, followed by those still to be read. */
  function After(items: seq<Value>, more: Option<(seq<Value>, seq<Byte>)>): Option<(seq<Value>, seq<Byte>)> {
    match more case None => None case Some(t) => Some((items + t.0, t.1))
  }

  lemma AfterNone(more: Option<(seq<Value>, seq<Byte>)>)
    ensures After([], more) == more
  {
    if more.Some? { assert [] + more.value.0 == more.value.0; }
  }

  lemma AfterOne(e: Schema, n: nat, here: seq<Byte>, items: seq<Value>, lim: Limits)
    requires n > 0
    ensures After(items, DecodeItems(e, n, here, lim)) ==
      match Decode(e, here, lim)
      case None => None
      case Some(d) => After(items + [d.value], DecodeItems(e, n - 1, d.rest, lim))
  {
    hide Decode;
    if Decode(e, here, lim).Some? {
      var d := Decode(e, here, lim).value;
      var more := DecodeItems(e, n - 1, d.rest, lim);
      if more.Some? { assert items + ([d.value] + more.value.0) == (items + [d.value]) + more.value.0; }
    }
  }

  class CanonicalDecoder {
    const data: seq<Byte>
    const lim: Limits
    var position: nat
    var failed: bool

    constructor (data: seq<Byte>, lim: Limits)
      ensures this.data == data && this.lim == lim && Valid()
      ensures position == 0 && failed == (|data| > lim.maxTotal)
    {
      this.data, this.lim, position, failed := data, lim, 0, |data| > lim.maxTotal;
    }

    predicate Valid()
      reads this
    {
      position <= |data|
    }

    function Rest(): seq<Byte>
      requires Valid()
      reads this
    {
      data[position..]
    }

    /** Fails, once, when fewer than `n` bytes are left. */
    method Require(n: nat)
      requires Valid()
      modifies this`failed
      ensures failed == (old(failed) || n > |Rest()|)
    {
      if failed { return; }
      if n > |data| - position { failed := true; }
    }

    method GetU8() returns (b: Byte)
      requires Valid()
      modifies this
      ensures Valid()
      ensures old(failed) || old(Rest()) == [] ==> failed && position == old(position)
      ensures !old(failed) && old(Rest()) != [] ==> !failed && b == old(Rest())[0] && Rest() == old(Rest())[1..]
    {
      Require(1);
      if failed { return 0; }
      b := data[position];
      position := position + 1;
    }

    /** Reads `k` bytes as a little-endian number. */
    method GetLittle(k: nat) returns (n: nat)
      requires Valid()
      modifies this
      ensures Valid()
      ensures old(failed) || |old(Rest())| < k ==> failed && position == old(position)
      ensures !old(failed) && |old(Rest())| >= k ==>
        !failed && n == FromLittle(old(Rest())[..k]) && Rest() == old(Rest())[k..]
    {
      Require(k);
      if failed { return 0; }
      n := 0;
      var weight: nat := 1;
      for i := 0 to k
        invariant Valid() && position == old(position) && !failed && k <= |Rest()|
        invariant n == FromLittle(Rest()[..i]) && weight == Power(i)
      {
        assert Rest()[..i + 1] == Rest()[..i] + [data[position + i]];
        FromLittleAppend(Rest()[..i], data[position + i]);
        n := n + data[position + i] * weight;
        weight := 256 * weight;
      }
      position := position + k;
    }

    method GetFixed(size: nat) returns (bytes: seq<Byte>)
      requires Valid()
      modifies this
      ensures Valid()
      ensures old(failed) || |old(Rest())| < size ==> failed && position == old(position)
      ensures !old(failed) && |old(Rest())| >= size ==>
        !failed && bytes == old(Rest())[..size] && Rest() == old(Rest())[size..]
    {
      Require(size);
      if failed { return []; }
      bytes := data[position..position + size];
      position := position + size;
    }

    method GetText() returns (text: seq<Byte>)
      requires Valid()
      modifies this
      ensures Valid() && (old(failed) ==> failed && position == old(position))
      ensures !old(failed) ==>
        match DecodeText(old(Rest()), lim)
        case Some(t) => !failed && text == t.0 && Rest() == t.1
        case None => failed
    {
      var length := GetLittle(4);
      if failed { return []; }
      if length > lim.maxText {
        failed := true;
        return [];
      }
      Require(length);
      if failed { return []; }
      text := data[position..position + length];
      position := position + length;
      var wellFormed := IsValidUtf8(text);
      if !wellFormed {
        failed := true;
        return [];
      }
    }

    /** Reads an element count and checks that the rest of the payload could hold that many. */
    method GetCount(minimum: nat) returns (count: nat)
      requires Valid()
      modifies this
      ensures Valid() && (old(failed) ==> failed && position == old(position))
      ensures !old(failed) ==>
        var bytes := old(Rest());
        if |bytes| < 4 then failed
        else if FromLittle(bytes[..4]) > lim.maxElements || FromLittle(bytes[..4]) * minimum > |bytes| - 4 then failed
        else !failed && count == FromLittle(bytes[..4]) && Rest() == bytes[4..]
    {
      count := GetLittle(4);
      if failed { return 0; }
      if count > lim.maxElements {
        failed := true;
        return 0;
      }
      if count * minimum > |data| - position {
        failed := true;
        return 0;
      }
    }

    /** What a read does: it sticks after a failure, and otherwise follows the schema. */
    twostate predicate Reads(s: Schema, v: Value)
      requires old(Valid())
      reads this
    {
      && Valid()
      && (old(failed) ==> failed)
      && (!old(failed) ==>
            match Decode(s, old(Rest()), lim)
            case Some(d) => !failed && v == d.value && Rest() == d.rest
            case None => failed)
    }

    method GetPrimitive(s: Schema) returns (v: Value)
      requires Valid() && !s.List? && !s.Then?
      modifies this
      ensures Reads(s, v)
    {
      v := UnitV;
      match s
      case Flag =>
        var b := GetU8();
        v := BoolV(b != 0);
      case Small(max) =>
        var b := GetU8();
        if !failed && b > max { failed := true; }
        v := NumV(b);
      case Word =>
        var n := GetLittle(4);
        v := NumV(n);
      case Number(largest) =>
        var n := GetLittle(8);
        if !failed && n > largest { failed := true; }
        v := NumV(n);
      case Signed =>
        var n := GetLittle(8);
        v := IntV(if n >= TWO_63 then n - TWO_64 else n);
      case Text(longest) =>
        var text := GetText();
        if !failed && |text| > longest { failed := true; }
        v := BytesV(text);
      case Identity =>
        var text := GetText();
        if !failed && text != [] && !IsIdentity(text) { failed := true; }
        v := BytesV(text);
      case Fixed(size) =>
        var bytes := GetFixed(size);
        v := BytesV(bytes);
      case Tag(name) =>
        var text := GetText();
        if !failed && text != name { failed := true; }
      case Done =>
    }

    /** Reads a value field by field. */
    method Get(s: Schema) returns (v: Value)
      requires Valid()
      modifies this
      ensures Reads(s, v)
      decreases s, 0
    {
      if s.Then? {
        var first := Get(s.head);
        var second := Get(s.tail);
        v := PairV(first, second);
      } else if s.List? {
        var count := GetCount(s.minimum);
        if failed { return UnitV; }
        var items := GetItems(s.element, count);
        v := ListV(items);
      } else {
        v := GetPrimitive(s);
      }
    }

    method GetItems(e: Schema, n: nat) returns (items: seq<Value>)
      requires Valid() && !failed
      modifies this
      ensures Valid()
      ensures match DecodeItems(e, n, old(Rest()), lim)
        case Some(t) => !failed && items == t.0 && Rest() == t.1
        case None => failed
      decreases e, n + 1
    {
      hide Decode;
      items := [];
      AfterNone(DecodeItems(e, n, Rest(), lim));
      for i := 0 to n
        invariant Valid() && !failed
        invariant DecodeItems(e, n, old(Rest()), lim) == After(items, DecodeItems(e, n - i, Rest(), lim))
      {
        AfterOne(e, n - i, Rest(), items, lim);
        var item := Get(e);
        if failed { return []; }
        items := items + [item];
      }
    }
  }
}
