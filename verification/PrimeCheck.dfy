/** Primality by trial division (Assignment-5/PrimeCheck.hpp). */
module PrimeCheck {

  const UINT_LIMIT: nat := 0x1_0000_0000

  /** The mathematical notion the program is meant to decide. */
  predicate Prime(n: nat) {
    2 <= n && forall d :: 2 <= d < n ==> n % d != 0
  }

  /** The truncated square root: the largest r with r * r <= n. */
  function IntSqrt(n: nat): (r: nat)
    ensures r * r <= n < (r + 1) * (r + 1)
  {
    if n == 0 then 0
    else
      var r := IntSqrt(n - 1);
      if (r + 1) * (r + 1) <= n then r + 1 else r
  }

  lemma CofactorDivides(n: nat, d: nat)
    requires 2 <= d < n && n % d == 0
    ensures 2 <= n / d && n % (n / d) == 0 && n / d * d == n
  {
    var e := n / d;
    assert n == d * e;
    if e <= 1 {
      MulMonotone(d, d, e, 1);
    }
    ModOfMultiple(d, e);
  }

  lemma ModOfMultiple(d: nat, e: nat)
    requires 0 < e
    ensures (e * d) % e == 0
  {
    var m := e * d;
    var q, r := m / e, m % e;
    assert m == e * q + r;
    assert e * (d - q) == r;
    if d - q >= 1 {
      MulMonotone(e, e, 1, d - q);
    } else if d - q <= -1 {
      MulMonotone(e, e, 1, q - d);
    }
  }

  /** A number with a proper divisor has one no greater than its truncated square root. */
  lemma SmallDivisorExists(n: nat, d: nat)
    requires 2 <= d < n && n % d == 0
    ensures exists e :: 2 <= e <= IntSqrt(n) && n % e == 0
  {
    CofactorDivides(n, d);
    var r := IntSqrt(n);
    if d <= r {
      assert 2 <= d <= IntSqrt(n) && n % d == 0;
    } else {
      var e := n / d;
      if r < e {
        assert (r + 1) * (r + 1) <= e * d by {
          MulMonotone(r + 1, e, r + 1, d);
        }
        assert false;
      }
      assert 2 <= e <= IntSqrt(n) && n % e == 0;
    }
  }

  lemma MulMonotone(a: nat, b: nat, c: nat, d: nat)
    requires a <= b && c <= d
    ensures a * c <= b * d
  {
    assert a * c <= b * c;
    assert b * c <= b * d;
  }

  method IsPrime(num: nat) returns (r: bool)
    requires num < UINT_LIMIT
    ensures r <==> Prime(num)
  {
    if num <= 1 {
      return false;
    }
    var sqrtNum := IntSqrt(num);
    var i := 2;
    while i <= sqrtNum
      invariant 2 <= i
      invariant forall d :: 2 <= d < i ==> num % d != 0
    {
      if num % i == 0 {
        DivisorBelowSquare(num, i);
        return false;
      }
      i := i + 1;
    }
    if !Prime(num) {
      var d :| 2 <= d < num && num % d == 0;
      SmallDivisorExists(num, d);
    }
    return true;
  }

  lemma DivisorBelowSquare(n: nat, i: nat)
    requires 2 <= i <= IntSqrt(n)
    ensures i < n
  {
    var r := IntSqrt(n);
    MulMonotone(2, r, i, r);
  }
}
