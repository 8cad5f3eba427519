/**
  The trial-division primality script: it tests the divisors 2 up to the
  integer square root and stops at the first one that divides. The square
  root is `int(math.sqrt(n))`, taken here as the exact integer square root.
 */
module PrimeCheck {
  /** The reference definition: greater than 1 and no divisor strictly between 1 and itself. */
  predicate IsPrime(n: int)
  {
    n > 1 && forall d :: 2 <= d < n ==> n % d != 0
  }

  /** Counts up from a root candidate to the integer square root. */
  function RootFrom(n: nat, r: nat): (s: nat)
    requires r * r <= n
    ensures s * s <= n < (s + 1) * (s + 1)
    decreases n - r * r
  {
    if (r + 1) * (r + 1) <= n then RootFrom(n, r + 1) else r
  }

  /** The integer square root: the largest `r` with `r * r <= n`. */
  function ISqrt(n: nat): (r: nat)
    ensures r * r <= n < (r + 1) * (r + 1)
  {
    RootFrom(n, 0)
  }

  lemma MulMonotone(a: int, b: int, c: int, d: int)
    requires 0 <= a <= b && 0 <= c <= d
    ensures a * c <= b * d
  {
  }

  lemma {:induction false} ProductIsMultiple(a: int, b: int)
    requires a > 0
    ensures (a * b) % a == 0
  {
    var n := a * b;
    var k := b - n / a;
    assert n == a * (n / a) + n % a;
    assert a * k == n % a;
    if k >= 1 {
      MulMonotone(a, a, 1, k);
      assert false;
    }
    if k <= -1 {
      MulMonotone(a, a, 1, -k);
      assert false;
    }
  }

  /** A composite number has a divisor no larger than its square root: the smaller of a divisor pair. */
  lemma {:induction false} SmallDivisor(n: int, d: int) returns (e: int)
    requires n > 1 && 2 <= d < n && n % d == 0
    ensures 2 <= e <= ISqrt(n) && n % e == 0
  {
    var r := ISqrt(n);
    if d <= r {
      return d;
    }
    var q := n / d;
    assert n == d * q by {
      assert n == d * (n / d) + n % d;
    }
    if q > r {
      MulMonotone(r + 1, d, r + 1, q);
      assert false;
    }
    if q < 2 {
      MulMonotone(d, d, q, 1);
      assert false;
    }
    ProductIsMultiple(q, d);
    assert q * d == n;
    e := q;
  }

  /** The loop's verdict: no divisor up to the square root exactly when the number is prime. */
  lemma RootTestDecides(n: int)
    requires n > 1
    ensures IsPrime(n) <==> forall i :: 2 <= i <= ISqrt(n) ==> n % i != 0
  {
    var r := ISqrt(n);
    if !IsPrime(n) {
      var d :| 2 <= d < n && n % d == 0;
      var e := SmallDivisor(n, d);
    } else {
      forall i | 2 <= i <= r
        ensures n % i != 0
      {
        MulMonotone(i, r, 1, r);
      }
    }
  }

  /** The script's `if` and `for` loop, for any `number`. */
  method PrimeFlag(number: int) returns (isPrime: bool)
    ensures isPrime <==> IsPrime(number)
    ensures number <= 1 ==> !isPrime
    ensures number > 1 ==> (!isPrime <==> exists i :: 2 <= i <= ISqrt(number) && number % i == 0)
  {
    isPrime := true;
    if number > 1 {
      var limit := ISqrt(number);
      for i := 2 to limit + 1
        invariant isPrime
        invariant forall d :: 2 <= d < i ==> number % d != 0
      {
        if number % i == 0 {
          isPrime := false;
          RootTestDecides(number);
          return;
        }
      }
      RootTestDecides(number);
    } else {
      isPrime := false;
    }
  }

  /** For 2 and 3 the loop's range is empty, and both are prime. */
  lemma SmallPrimes()
    ensures ISqrt(2) == 1 && ISqrt(3) == 1
    ensures IsPrime(2) && IsPrime(3)
  {
    assert ISqrt(2) == 1 && ISqrt(3) == 1;
  }

  /** The script as written: `number = 28`, and what it prints. */
  method Script() returns (printed: bool)
    ensures !printed
  {
    var number := 28;
    printed := PrimeFlag(number);
    assert number % 2 == 0;
  }
}
