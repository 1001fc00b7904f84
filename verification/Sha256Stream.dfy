/** Streaming SHA-256: buffering and padding around the block function of FIPS 180-4.  The block
    function itself is a parameter; what is proved is that the stream feeds it exactly the blocks
    of the padded message, however the message is cut into updates. */
module Sha256Stream {

  import opened Bytes

  const BLOCK: nat := 64

  const TWO_64: nat := 0x1_0000_0000_0000_0000

  /** Unsigned 64-bit arithmetic wraps. */
  function Wrapped(n: nat): nat { n % TWO_64 }

  /** Folding a block function over a message that is a whole number of blocks. */
  function Fold<H>(compress: (H, seq<Byte>) -> H, h: H, m: seq<Byte>): H
    decreases |m|
  {
    if |m| < BLOCK then h else Fold(compress, compress(h, m[..BLOCK]), m[BLOCK..])
  }

  lemma {:induction false} FoldAppend<H>(compress: (H, seq<Byte>) -> H, h: H, a: seq<Byte>, b: seq<Byte>)
    requires |a| % BLOCK == 0
    ensures Fold(compress, h, a + b) == Fold(compress, Fold(compress, h, a), b)
    decreases |a|
  {
    if |a| < BLOCK {
      assert a == [];
      assert a + b == b;
    } else {
      assert (a + b)[..BLOCK] == a[..BLOCK] && (a + b)[BLOCK..] == a[BLOCK..] + b;
      FoldAppend(compress, compress(h, a[..BLOCK]), a[BLOCK..], b);
    }
  }

  lemma FoldOne<H>(compress: (H, seq<Byte>) -> H, h: H, block: seq<Byte>)
    requires |block| == BLOCK
    ensures Fold(compress, h, block) == compress(h, block)
  {
    assert block[..BLOCK] == block && block[BLOCK..] == [];
  }

  // ----- padding -----

  function Zeros(n: nat): (z: seq<Byte>)
    ensures |z| == n
  {
    seq(n, _ => 0)
  }

  /** How many zero bytes follow the 0x80 byte. */
  function ZeroCount(length: nat): (k: nat)
    ensures (length + 1 + k) % BLOCK == 56 && k < BLOCK
  {
    (119 - length % BLOCK) % BLOCK
  }

  /** `n` shifted right by `k` bytes. */
  function Shift(n: nat, k: nat): nat { if k == 0 then n else Shift(n, k - 1) / 256 }

  function LengthBytes(n: nat): (bytes: seq<Byte>)
    ensures |bytes| == 8
  {
    seq(8, i requires 0 <= i < 8 => Shift(n, 7 - i) % 256)
  }

  function BigEndian(bytes: seq<Byte>): nat {
    if bytes == [] then 0 else BigEndian(bytes[..|bytes| - 1]) * 256 + bytes[|bytes| - 1]
  }

  function Padded(m: seq<Byte>): seq<Byte> {
    m + [0x80] + Zeros(ZeroCount(|m|)) + LengthBytes(Wrapped(|m| * 8))
  }

  lemma ShiftPair(n: nat, k: nat)
    ensures Shift(n, k + 1) == Shift(n, k) / 256
  {
  }

  lemma {:induction false} ShiftSmaller(n: nat, k: nat, room: nat)
    requires n < Power(k + room)
    ensures Shift(n, k) < Power(room)
  {
    if k > 0 { ShiftSmaller(n, k - 1, room + 1); }
  }

  lemma ShiftOut(n: nat)
    requires n < TWO_64
    ensures Shift(n, 8) == 0
  {
    PowersInUse();
    ShiftSmaller(n, 8, 0);
  }

  lemma {:induction false} LengthPrefix(n: nat, i: nat)
    requires n < TWO_64 && i <= 8
    ensures BigEndian(LengthBytes(n)[..i]) == Shift(n, 8 - i)
  {
    var bytes := LengthBytes(n);
    if i == 0 {
      ShiftOut(n);
    } else {
      LengthPrefix(n, i - 1);
      ShiftPair(n, 8 - i);
      assert bytes[..i][..i - 1] == bytes[..i - 1];
    }
  }

  predicate Whole(m: seq<Byte>) { |m| % BLOCK == 0 }

  /** Any number of zeros that completes the block is at least as many. */
  lemma FewestZeros(length: nat, k: nat)
    requires (length + 1 + k + 8) % BLOCK == 0
    ensures ZeroCount(length) <= k
  {
    var z := ZeroCount(length);
    var q, r := (length + 1 + k + 8) / BLOCK, (length + 1 + z) / BLOCK;
    assert length + 1 + k + 8 == BLOCK * q && length + 1 + z == BLOCK * r + 56;
    assert k - z == BLOCK * (q - r - 1);
  }

  lemma PaddedLength(m: seq<Byte>)
    ensures |Padded(m)| == |m| + 1 + ZeroCount(|m|) + 8 && Whole(Padded(m))
  {
  }

  /** The padding is that of section 5.1.1 of FIPS 180-4: a one bit, the fewest zero bits that
      leave room for the length in a whole block, and for messages under 2^61 bytes the length in
      bits as a 64-bit big-endian number. */
  lemma PaddingIsStandard(m: seq<Byte>)
    ensures var p := Padded(m); var z := ZeroCount(|m|);
      && |p| == |m| + 1 + z + 8 && Whole(p)
      && p[..|m|] == m && p[|m|] == 0x80
      && (forall i :: |m| < i < |m| + 1 + z ==> p[i] == 0)
      && BigEndian(p[|p| - 8..]) == Wrapped(|m| * 8)
      && (|m| < 0x2000_0000_0000_0000 ==> BigEndian(p[|p| - 8..]) == |m| * 8)
  {
    hide ZeroCount, LengthBytes, Shift, BigEndian, Whole;
    var p, n := Padded(m), Wrapped(|m| * 8);
    PaddedLength(m);
    LengthPrefix(n, 8);
    assert LengthBytes(n)[..8] == LengthBytes(n);
    assert p[|p| - 8..] == LengthBytes(n);
    ShiftNone(n);
  }

  lemma ShiftNone(n: nat)
    ensures Shift(n, 0) == n
  {
  }

  // ----- the stream -----

  class Sha256<H> {
    const compress: (H, seq<Byte>) -> H
    const initial: H
    const buffer: array<Byte>
    var state: H
    var total: nat
    var length: nat
    ghost var message: seq<Byte>
    ghost var folded: seq<Byte>

    constructor (compress: (H, seq<Byte>) -> H, initial: H)
      ensures Valid() && message == [] && fresh(buffer)
      ensures this.compress == compress && this.initial == initial
    {
      this.compress, this.initial := compress, initial;
      buffer := new Byte[BLOCK](_ => 0);
      state, total, length, message, folded := initial, 0, 0, [], [];
    }

    /** The whole blocks so far have been folded; the rest of the message waits in the buffer. */
    ghost predicate Running()
      reads this, buffer
    {
      && buffer.Length == BLOCK && length <= BLOCK
      && Whole(folded) && message == folded + buffer[..length]
      && state == Fold(compress, initial, folded)
    }

    ghost predicate Valid()
      reads this, buffer
    {
      Running() && length < BLOCK && total == Wrapped(|message|)
    }

    /** Folds one full block that comes next in the message. */
    method ProcessBlock(block: seq<Byte>)
      requires |block| == BLOCK && Whole(folded) && state == Fold(compress, initial, folded)
      modifies this`state, this`folded
      ensures folded == old(folded) + block && Whole(folded) && state == Fold(compress, initial, folded)
    {
      FoldAppend(compress, initial, folded, block);
      FoldOne(compress, state, block);
      WholeMore(folded, block);
      state := compress(state, block);
      folded := folded + block;
    }

    /** Puts one byte into the buffer. */
    method Push(b: Byte)
      requires Running() && length < BLOCK
      modifies this`length, this`message, buffer
      ensures Running() && length == old(length) + 1 && message == old(message) + [b]
    {
      buffer[length] := b;
      assert buffer[..length + 1] == old(buffer[..length]) + [b];
      length := length + 1;
      message := message + [b];
    }

    /** Tops up a buffer that already holds something, and folds it when it is full. */
    method TopUp(data: seq<Byte>) returns (offset: nat)
      requires Running() && length < BLOCK
      modifies this`length, this`message, this`state, this`folded, buffer
      ensures Running() && offset <= |data| && message == old(message) + data[..offset]
      ensures length < BLOCK && (length == 0 || offset == |data|)
    {
      offset := 0;
      if length != 0 {
        while length < BLOCK && offset < |data|
          invariant Running() && offset <= |data|
          invariant message == old(message) + data[..offset]
        {
          assert data[..offset + 1] == data[..offset] + [data[offset]];
          Push(data[offset]);
          offset := offset + 1;
        }
        if length == BLOCK {
          assert buffer[..length] == buffer[..];
          ProcessBlock(buffer[..]);
          length := 0;
          assert buffer[..length] == [];
        }
      }
    }

    /** Folds whole blocks straight from the input. */
    method WholeBlocks(data: seq<Byte>, start: nat) returns (offset: nat)
      requires Running() && length == 0 && start <= |data|
      modifies this`message, this`state, this`folded
      ensures Running() && start <= offset <= |data| && |data| - offset < BLOCK
      ensures message == old(message) + data[start..offset]
    {
      offset := start;
      assert buffer[..length] == [];
      while |data| - offset >= BLOCK
        invariant Running() && start <= offset <= |data|
        invariant message == old(message) + data[start..offset]
      {
        var block := data[offset..offset + BLOCK];
        assert data[start..offset + BLOCK] == data[start..offset] + block;
        ProcessBlock(block);
        offset := offset + BLOCK;
        message := message + block;
      }
    }

    method Update(data: seq<Byte>)
      requires Valid()
      modifies this, buffer
      ensures Valid() && message == old(message) + data
    {
      hide Fold, Whole, Wrapped;
      total := Wrapped(total + |data|);
      ghost var counted := total;
      var offset := TopUp(data);
      if length == 0 {
        ghost var start := offset;
        ghost var sofar := message;
        offset := WholeBlocks(data, offset);
        assert data[..start] + data[start..offset] == data[..offset];
      }
      while offset < |data|
        invariant Running() && offset <= |data| && length < BLOCK
        invariant |data| - offset < BLOCK - length
        invariant message == old(message) + data[..offset]
        invariant total == counted
      {
        assert data[..offset + 1] == data[..offset] + [data[offset]];
        Push(data[offset]);
        offset := offset + 1;
      }
      assert data[..offset] == data;
      WrapAround(|old(message)|, |data|);
    }

    /** Zeros until only the length is missing from a whole block. */
    method PadZeros(ghost m: seq<Byte>)
      requires Valid() && message == m + [0x80]
      modifies this, buffer
      ensures Valid() && message == m + [0x80] + Zeros(ZeroCount(|m|)) && length == 56
    {
      hide Fold, Whole, ZeroCount, Wrapped;
      ghost var k := 0;
      assert m + [0x80] == m + [0x80] + Zeros(0);
      while length != 56
        invariant Valid() && k <= ZeroCount(|m|)
        invariant message == m + [0x80] + Zeros(k)
        decreases ZeroCount(|m|) - k
      {
        Waiting(|m|, k, folded, length);
        Update([0]);
        assert Zeros(k + 1) == Zeros(k) + [0];
        k := k + 1;
      }
      Waiting(|m|, k, folded, length);
    }

    /** Pads and returns the final chaining value: the fold of the padded message. */
    method Finalize() returns (digest: H)
      requires Valid()
      modifies this, buffer
      ensures digest == Fold(compress, initial, Padded(old(message)))
    {
      hide Fold, Whole, ZeroCount, Wrapped, LengthBytes;
      ghost var m := message;
      var bitLength := Wrapped(total * 8);
      BitsWrap(|m|);
      Update([0x80]);
      PadZeros(m);
      var lengthBytes := EncodeLength(bitLength);
      Update(lengthBytes);
      assert message == Padded(m);
      PaddedLength(m);
      NothingWaits(folded, message, length);
      assert buffer[..length] == [] && message == folded;
      digest := state;
    }
  }

  /** The eight bytes of the length, most significant first. */
  method EncodeLength(n: nat) returns (bytes: seq<Byte>)
    ensures bytes == LengthBytes(n)
  {
    bytes := [];
    for i := 0 to 8
      invariant bytes == LengthBytes(n)[..i]
    {
      bytes := bytes + [Shift(n, 7 - i) % 256];
    }
  }

  lemma WholeMore(m: seq<Byte>, block: seq<Byte>)
    requires Whole(m) && |block| == BLOCK
    ensures Whole(m + block)
  {
  }

  lemma WrapAround(a: nat, b: nat)
    ensures Wrapped(Wrapped(a) + b) == Wrapped(a + b)
  {
    var q, r := a / TWO_64, a % TWO_64;
    assert a + b == TWO_64 * q + (r + b);
    assert (TWO_64 * q + (r + b)) % TWO_64 == (r + b) % TWO_64;
  }

  lemma BitsWrap(n: nat)
    ensures Wrapped(Wrapped(n) * 8) == Wrapped(n * 8)
  {
    var q, r := n / TWO_64, n % TWO_64;
    assert n * 8 == TWO_64 * (q * 8) + r * 8;
    assert (TWO_64 * (q * 8) + r * 8) % TWO_64 == r * 8 % TWO_64;
  }

  /** The buffer holds 56 bytes exactly when all the zeros have been fed. */
  lemma Waiting(length: nat, k: nat, folded: seq<Byte>, waiting: nat)
    requires k <= ZeroCount(length) && Whole(folded) && waiting < BLOCK && length + 1 + k == |folded| + waiting
    ensures waiting == 56 <==> k == ZeroCount(length)
  {
    var z := ZeroCount(length);
    var q, r := |folded| / BLOCK, (length + 1 + z) / BLOCK;
    assert |folded| == BLOCK * q && length + 1 + z == BLOCK * r + 56;
    assert waiting + (z - k) == BLOCK * (r - q) + 56;
  }

  lemma NothingWaits(folded: seq<Byte>, message: seq<Byte>, waiting: nat)
    requires Whole(folded) && Whole(message) && |message| == |folded| + waiting && waiting < BLOCK
    ensures waiting == 0
  {
  }

  function Joined(chunks: seq<seq<Byte>>): seq<Byte> {
    if chunks == [] then [] else Joined(chunks[..|chunks| - 1]) + chunks[|chunks| - 1]
  }

  /** However a message is cut into chunks, the digest is that of the whole. */
  method HashChunks<H>(compress: (H, seq<Byte>) -> H, initial: H, chunks: seq<seq<Byte>>) returns (digest: H)
    ensures digest == Fold(compress, initial, Padded(Joined(chunks)))
  {
    var hasher := new Sha256(compress, initial);
    for i := 0 to |chunks|
      invariant hasher.Valid() && hasher.message == Joined(chunks[..i])
      invariant hasher.compress == compress && hasher.initial == initial
      invariant fresh(hasher) && fresh(hasher.buffer)
    {
      assert chunks[..i + 1][..i] == chunks[..i];
      hasher.Update(chunks[i]);
    }
    assert chunks[..|chunks|] == chunks;
    digest := hasher.Finalize();
  }
}
