/** Overflow-checked arithmetic on 64-bit unsigned quantities. */
module Checked {
  import opened Wrappers
  import opened Permutations

  const MAX_U64: nat := 0xFFFF_FFFF_FFFF_FFFF

  function CheckedAdd(a: nat, b: nat): (r: Option<nat>)
    requires a <= MAX_U64 && b <= MAX_U64
    ensures r == if a + b <= MAX_U64 then Some(a + b) else None
  {
    if a > MAX_U64 - b then None else Some(a + b)
  }

  /** The division guard rejects exactly the products that do not fit. */
  function CheckedMul(a: nat, b: nat): (r: Option<nat>)
    requires a <= MAX_U64 && b <= MAX_U64
    ensures r == if a * b <= MAX_U64 then Some(a * b) else None
  {
    if a != 0 then
      GuardIsExact(a, b);
      if b > MAX_U64 / a then None else Some(a * b)
    else Some(a * b)
  }

  lemma GuardIsExact(a: nat, b: nat)
    requires 0 < a
    ensures b > MAX_U64 / a <==> a * b > MAX_U64
  {
    var q := MAX_U64 / a;
    assert q * a <= MAX_U64 < q * a + a;
    if b > q {
      MulMonotone(q + 1, b, a);
      assert (q + 1) * a == q * a + a;
    } else {
      MulMonotone(b, q, a);
    }
  }

  lemma MulMonotone(x: nat, y: nat, a: nat)
    requires x <= y
    ensures x * a <= y * a
  {
    assert y * a == x * a + (y - x) * a;
  }

  /** n! with overflow detection: a value exactly when n! fits 64 bits. */
  method CheckedFactorial(n: nat) returns (r: Option<nat>)
    ensures r == if Factorial(n) <= MAX_U64 then Some(Factorial(n)) else None
  {
    var result := 1;
    var i := 2;
    while i <= n
      invariant 2 <= i <= n + 1 || (n < 2 && i == 2)
      invariant result == Factorial(if n < 2 then n else i - 1) <= MAX_U64
    {
      FactorialExceeds(i - 1);
      var next := CheckedMul(result, i);
      if next == None {
        FactorialGrows(i, n);
        return None;
      }
      result, i := next.value, i + 1;
    }
    r := Some(result);
  }

  lemma {:induction false} FactorialExceeds(m: nat)
    ensures m < 3 || Factorial(m) >= m + 1
  {
    if m > 3 {
      FactorialExceeds(m - 1);
      MulMonotone(2, Factorial(m - 1), m);
      assert Factorial(m) == Factorial(m - 1) * m;
    } else if m == 3 {
      assert Factorial(3) == 3 * (2 * (1 * Factorial(0)));
    }
  }

  lemma {:induction false} FactorialGrows(m: nat, n: nat)
    requires m <= n
    ensures Factorial(m) <= Factorial(n)
  {
    if m < n {
      FactorialGrows(m, n - 1);
      assert n * Factorial(n - 1) >= Factorial(n - 1);
    }
  }

  /** The widest stage whose interleavings can be counted in 64 bits. */
  const MAX_COUNTED: nat := 20

  lemma FactorialFits(n: nat)
    ensures Factorial(n) <= MAX_U64 <==> n <= MAX_COUNTED
  {
    assert Factorial(5) == 120;
    assert Factorial(10) == 10 * (9 * (8 * (7 * (6 * Factorial(5))))) == 3628800;
    assert Factorial(15) == 15 * (14 * (13 * (12 * (11 * Factorial(10))))) == 1307674368000;
    assert Factorial(20) == 20 * (19 * (18 * (17 * (16 * Factorial(15))))) == 2432902008176640000;
    assert Factorial(21) == 21 * Factorial(20);
    if n <= 20 { FactorialGrows(n, 20); } else { FactorialGrows(21, n); }
  }
}
