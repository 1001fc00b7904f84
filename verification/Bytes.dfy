/** Bytes and little-endian numbers. */
module Bytes {

  type Byte = b: nat | b < 256

  /** 256 to the power of `k`. */
  function Power(k: nat): (p: nat)
    ensures p > 0
  {
    if k == 0 then 1 else 256 * Power(k - 1)
  }

  lemma PowersInUse()
    ensures Power(4) == 0x1_0000_0000 && Power(8) == 0x1_0000_0000_0000_0000
  {
    assert Power(4) == 256 * (256 * (256 * (256 * Power(0))));
    assert Power(8) == 256 * (256 * (256 * (256 * Power(4))));
  }

  /** The `k` low bytes of a number, lowest first. */
  function Little(n: nat, k: nat): (bytes: seq<Byte>)
    ensures |bytes| == k
  {
    if k == 0 then [] else [n % 256] + Little(n / 256, k - 1)
  }

  function FromLittle(bytes: seq<Byte>): nat {
    if bytes == [] then 0 else bytes[0] + 256 * FromLittle(bytes[1..])
  }

  /** The bytes of a number are its digits to the base 256, the lowest first. */
  lemma {:induction false} LittleDigits(n: nat, k: nat, i: nat)
    requires i < k
    ensures Little(n, k)[i] == n / Power(i) % 256
  {
    if i > 0 {
      LittleDigits(n / 256, k - 1, i - 1);
      assert Little(n, k)[i] == Little(n / 256, k - 1)[i - 1];
      DividedTwice(n, Power(i - 1));
    }
  }

  lemma DividedTwice(n: nat, b: nat)
    requires b > 0
    ensures n / 256 / b == n / (256 * b)
  {
    var m := n / 256;
    var q, r := Divided(m, b);
    Spread(q, b);
    Quotient(n, 256 * b, q, 256 * r + n % 256);
  }

  lemma Divided(m: nat, b: nat) returns (q: nat, r: nat)
    requires b > 0
    ensures m == q * b + r && r < b && q == m / b
  {
    q, r := m / b, m % b;
  }

  lemma Spread(q: nat, b: nat)
    ensures 256 * (q * b) == q * (256 * b)
  {
  }

  lemma Quotient(n: nat, d: nat, q: nat, r: nat)
    requires d > 0 && r < d && n == q * d + r
    ensures n / d == q
  {
    var e := n / d - q;
    assert n == n / d * d + n % d;
    assert e * d == r - n % d;
    Multiple(e, d);
  }

  lemma Multiple(e: int, d: int)
    requires d > 0
    ensures e >= 1 ==> e * d >= d
    ensures e <= -1 ==> e * d <= -d
  {
  }

  /** Writing and reading a number that fits undo each other. */
  lemma {:induction false} LittleRoundTrip(n: nat, k: nat)
    requires n < Power(k)
    ensures FromLittle(Little(n, k)) == n
  {
    if k > 0 {
      LittleRoundTrip(n / 256, k - 1);
      assert Little(n, k)[1..] == Little(n / 256, k - 1);
    }
  }

  /** Every byte string is the little-endian form of exactly one number that fits. */
  lemma {:induction false} LittleOnto(bytes: seq<Byte>)
    ensures FromLittle(bytes) < Power(|bytes|) && Little(FromLittle(bytes), |bytes|) == bytes
  {
    if bytes != [] {
      var rest := FromLittle(bytes[1..]);
      LittleOnto(bytes[1..]);
      assert FromLittle(bytes) % 256 == bytes[0] && FromLittle(bytes) / 256 == rest;
      assert bytes == [bytes[0]] + bytes[1..];
    }
  }
}
