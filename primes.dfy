/**
 * The assistant's number utilities: a primality test by trial division and
 * a prime factorisation that divides out each candidate in turn.
 */
module Primes {

  /** `n` is a prime number: at least 2 and without a divisor strictly between 1 and `n`. */
  predicate Prime(n: int) {
    n >= 2 && forall k :: 2 <= k < n ==> n % k != 0
  }

  function Product(s: seq<int>): int
    decreases |s|
  {
    if s == [] then 1 else Product(s[..|s| - 1]) * s[|s| - 1]
  }

  predicate NonDecreasing(s: seq<int>) {
    forall i, j :: 0 <= i <= j < |s| ==> s[i] <= s[j]
  }

  /** `factors` lists the prime factors of `n`, smallest first, with repetition; nothing below 2. */
  predicate IsPrimeFactorization(n: int, factors: seq<int>) {
    && (n <= 1 ==> factors == [])
    && (n >= 1 ==> Product(factors) == n)
    && (forall i :: 0 <= i < |factors| ==> Prime(factors[i]))
    && NonDecreasing(factors)
  }

  lemma ProductSnoc(s: seq<int>, x: int)
    ensures Product(s + [x]) == Product(s) * x
  {
    assert (s + [x])[..|s|] == s;
  }

  /** The sign of a product with a positive factor follows the other factor. */
  lemma MulBounds(k: int, c: int)
    requires k >= 1
    ensures c >= 1 ==> k * c >= k
    ensures c <= -1 ==> k * c <= -k
    ensures c >= 0 ==> k * c >= 0
    ensures c <= 0 ==> k * c <= 0
  {
    if c >= 1 {
      assert k * c == k * (c - 1) + k;
      assert k * (c - 1) >= 0;
    } else if c <= -1 {
      assert k * c == -(k * (-c - 1)) - k;
      assert k * (-c - 1) >= 0;
    }
  }

  /** A multiple of `k` leaves no remainder, and dividing it by `k` gives back the factor. */
  lemma ModOfMultiple(k: int, t: int)
    requires k >= 1
    ensures (k * t) % k == 0
    ensures (k * t) / k == t
  {
    var x := k * t;
    var q, r := x / k, x % k;
    assert x == k * q + r;
    assert k * (t - q) == r;
    MulBounds(k, t - q);
  }

  /** If `d` divides `m`, every divisor of `d` divides `m`. */
  lemma DividesTransitive(m: int, d: int, k: int)
    requires d >= 1 && k >= 1 && m % d == 0
    ensures d % k == 0 ==> m % k == 0
  {
    if d % k == 0 {
      var a, b := m / d, d / k;
      assert m == d * a;
      assert d == k * b;
      assert m == k * (b * a);
      ModOfMultiple(k, b * a);
    }
  }

  /** Every divisor of `m / d` divides `m`. */
  lemma QuotientDivisor(m: int, d: int, k: int)
    requires d >= 1 && k >= 1 && m % d == 0
    ensures (m / d) % k == 0 ==> m % k == 0
  {
    var q := m / d;
    assert m == d * q;
    if q % k == 0 {
      var t := q / k;
      assert q == k * t;
      assert m == k * (t * d);
      ModOfMultiple(k, t * d);
    }
  }

  /** Dividing a positive multiple of `d >= 2` by `d` leaves a smaller positive number. */
  lemma QuotientSmaller(m: int, d: int)
    requires m >= 1 && d >= 2 && m % d == 0
    ensures 1 <= m / d < m
  {
    var q := m / d;
    assert m == d * q;
    MulBounds(d, q);
    MulBounds(d - 1, q);
    assert m - q == (d - 1) * q;
  }

  /** The co-divisor `n / k` of a divisor `k` of `n`. */
  lemma CoDivisor(n: int, k: int)
    requires 2 <= k < n
    ensures n % k == 0 ==> 2 <= n / k && n % (n / k) == 0 && k * (n / k) == n
  {
    if n % k == 0 {
      var q := n / k;
      assert n == k * q;
      assert k * (q - 1) == n - k;
      MulBounds(k, q - 1);
      ModOfMultiple(q, k);
      assert n == q * k;
    }
  }

  lemma MulMonotone(a: int, b: int, c: int, e: int)
    requires 0 <= a <= c && 0 <= b <= e
    ensures a * b <= c * e
  {
    assert a * b <= c * b;
    assert c * b <= c * e;
  }

  lemma MulAssociative(a: int, b: int, c: int)
    ensures (a * b) * c == a * (b * c)
  {
  }

  /** Trial division up to the square root suffices. */
  lemma NoSmallDivisorPrime(n: int, i: int)
    requires n >= 2 && i >= 2 && i * i > n
    requires forall k :: 2 <= k < i ==> n % k != 0
    ensures Prime(n)
  {
    forall k | 2 <= k < n ensures n % k != 0 {
      if k >= i {
        CoDivisor(n, k);
        var q := n / k;
        if q >= i {
          MulMonotone(i, i, k, q);
        }
      }
    }
  }

  /** The least divisor above 1 of a number is prime. */
  lemma LeastDivisorPrime(m: int, d: int)
    requires m >= 1 && d >= 2 && m % d == 0
    requires forall k :: 2 <= k < d ==> m % k != 0
    ensures Prime(d)
  {
    forall k | 2 <= k < d ensures d % k != 0 {
      DividesTransitive(m, d, k);
    }
  }

  /** One step of the inner loop of the factorisation: `d` is the least divisor left, so it is prime. */
  lemma DivideOut(factors: seq<int>, m: int, d: int, n: int)
    requires d >= 2 && m >= 1 && m % d == 0 && Product(factors) * m == n
    requires forall k :: 2 <= k < d ==> m % k != 0
    ensures 1 <= m / d < m
    ensures Product(factors + [d]) * (m / d) == n
    ensures Prime(d)
    ensures forall k :: 2 <= k < d ==> (m / d) % k != 0
  {
    LeastDivisorPrime(m, d);
    QuotientSmaller(m, d);
    ProductSnoc(factors, d);
    assert m == d * (m / d);
    MulAssociative(Product(factors), d, m / d);
    forall k | 2 <= k < d ensures (m / d) % k != 0 {
      QuotientDivisor(m, d, k);
    }
  }

  /** The least divisor of `n` that is at least `k`. */
  function LeastDivisor(n: int, k: int): (d: int)
    requires 2 <= k <= n
    ensures k <= d <= n && n % d == 0
    decreases n - k
  {
    if n % k == 0 then k else LeastDivisor(n, k + 1)
  }

  /** No number from `k` up to the least divisor divides `n`. */
  lemma {:induction false} LeastDivisorLeast(n: int, k: int)
    requires 2 <= k <= n
    ensures forall j :: k <= j < LeastDivisor(n, k) ==> n % j != 0
    decreases n - k
  {
    if n % k != 0 {
      LeastDivisorLeast(n, k + 1);
    }
  }

  /**
   * The prime factors of `n`, smallest first: its least divisor above 1,
   * then the factors of what is left; nothing for `n <= 1`.
   */
  function PrimeFactorsOf(n: int): seq<int>
    decreases if n > 0 then n else 0
  {
    if n <= 1 then []
    else
      var d := LeastDivisor(n, 2);
      QuotientSmaller(n, d);
      [d] + PrimeFactorsOf(n / d)
  }

  /** A divisor with no smaller divisor above 1 is the first factor. */
  lemma PeelLeast(m: int, d: int)
    requires m >= 1 && d >= 2 && m % d == 0
    requires forall k :: 2 <= k < d ==> m % k != 0
    ensures PrimeFactorsOf(m) == [d] + PrimeFactorsOf(m / d)
  {
    QuotientSmaller(m, d);
    var e := LeastDivisor(m, 2);
    LeastDivisorLeast(m, 2);
    assert e == d;
  }

  /** A number is its own only prime factor exactly when it is prime. */
  lemma PrimeFactorsOfSingleton(n: int)
    ensures PrimeFactorsOf(n) == [n] <==> Prime(n)
  {
    if n > 1 {
      var d := LeastDivisor(n, 2);
      LeastDivisorLeast(n, 2);
      var rest := PrimeFactorsOf(n / d);
      assert PrimeFactorsOf(n) == [d] + rest;
      if PrimeFactorsOf(n) == [n] {
        assert ([d] + rest)[0] == d;
        assert d == n;
      }
      if Prime(n) {
        PrimeFactorsOfPrime(n);
      }
    }
  }

  /** `factors` followed by the factors of what is left, `m`, are the factors of `n`. */
  predicate FactorsSoFar(factors: seq<int>, m: int, n: int) {
    factors + PrimeFactorsOf(m) == PrimeFactorsOf(n)
  }

  /** Dividing out the least divisor `d` keeps `FactorsSoFar`. */
  lemma FactorsSoFarStep(factors: seq<int>, m: int, d: int, n: int)
    requires FactorsSoFar(factors, m, n)
    requires m >= 1 && d >= 2 && m % d == 0
    requires forall k :: 2 <= k < d ==> m % k != 0
    ensures FactorsSoFar(factors + [d], m / d, n)
    ensures 1 <= m / d < m
    ensures forall k :: 2 <= k < d ==> (m / d) % k != 0
  {
    QuotientSmaller(m, d);
    forall k | 2 <= k < d ensures (m / d) % k != 0 {
      QuotientDivisor(m, d, k);
    }
    PeelLeast(m, d);
    assert (factors + [d]) + PrimeFactorsOf(m / d) == factors + ([d] + PrimeFactorsOf(m / d));
  }

  /** At the end of the loops the factors found, plus a prime left over, are all of them. */
  lemma FactorsSoFarDone(factors: seq<int>, m: int, n: int)
    requires FactorsSoFar(factors, m, n)
    requires m > 1 ==> Prime(m)
    ensures factors + (if m > 1 then [m] else []) == PrimeFactorsOf(n)
  {
    if m > 1 {
      PrimeFactorsOfPrime(m);
    } else {
      assert factors + [] == factors;
    }
  }

  /** A prime is its own factorisation. */
  lemma PrimeFactorsOfPrime(p: int)
    requires Prime(p)
    ensures PrimeFactorsOf(p) == [p]
  {
    assert p % p == 0 && p / p == 1;
    PeelLeast(p, p);
  }

  /** `isPrime`: trial division by every `i` with `i * i <= n`. */
  method IsPrime(n: int) returns (b: bool)
    ensures b <==> Prime(n)
  {
    if n < 2 {
      return false;
    }
    var i := 2;
    while i * i <= n
      invariant 2 <= i
      invariant forall k :: 2 <= k < i ==> n % k != 0
      decreases n - i
    {
      MulMonotone(2, i, i, i);
      if n % i == 0 {
        assert 2 <= i < n;
        return false;
      }
      i := i + 1;
    }
    NoSmallDivisorPrime(n, i);
    return true;
  }

  /**
   * `getPrimeFactors`: the prime factors of `n` in non-decreasing order,
   * each repeated as often as it divides `n`; nothing for `n <= 1`.
   */
  method GetPrimeFactors(n: int) returns (factors: seq<int>)
    ensures IsPrimeFactorization(n, factors)
    ensures factors == [n] <==> Prime(n)
    ensures factors == PrimeFactorsOf(n)
  {
    factors := [];
    var m := n;
    var d := 2;
    while d * d <= m
      invariant d >= 2
      invariant n <= 1 ==> factors == [] && m == n
      invariant n >= 1 ==> m >= 1 && Product(factors) * m == n
      invariant forall k :: 2 <= k < d ==> m % k != 0
      invariant forall i :: 0 <= i < |factors| ==> Prime(factors[i]) && factors[i] <= d
      invariant NonDecreasing(factors)
      invariant FactorsSoFar(factors, m, n)
      decreases m - d
    {
      MulMonotone(2, d, d, d);
      ghost var m0 := m;
      while m % d == 0
        invariant 1 <= m <= m0
        invariant Product(factors) * m == n
        invariant forall k :: 2 <= k < d ==> m % k != 0
        invariant forall i :: 0 <= i < |factors| ==> Prime(factors[i]) && factors[i] <= d
        invariant NonDecreasing(factors)
        invariant FactorsSoFar(factors, m, n)
        decreases m
      {
        DivideOut(factors, m, d, n);
        FactorsSoFarStep(factors, m, d, n);
        factors := factors + [d];
        m := m / d;
      }
      d := d + 1;
    }
    if m > 1 {
      LastFactor(factors, m, d, n);
    }
    FactorsSoFarDone(factors, m, n);
    if m > 1 {
      factors := factors + [m];
    }
    PrimeFactorsOfSingleton(n);
  }

  /** A number above 1 with no divisor below `d`, where `d * d` exceeds it, is a prime no smaller than `d`. */
  lemma LeftoverPrime(m: int, d: int)
    requires d >= 2 && m > 1 && d * d > m
    requires forall k :: 2 <= k < d ==> m % k != 0
    ensures Prime(m) && d <= m
  {
    assert m % m == 0;
    assert d <= m;
    NoSmallDivisorPrime(m, d);
  }

  /** What is left after the loop, when it exceeds 1, is the last and largest prime factor. */
  lemma LastFactor(factors: seq<int>, m: int, d: int, n: int)
    requires d >= 2 && m > 1 && d * d > m && Product(factors) * m == n
    requires forall k :: 2 <= k < d ==> m % k != 0
    requires forall i :: 0 <= i < |factors| ==> Prime(factors[i]) && factors[i] <= d
    requires NonDecreasing(factors)
    requires n <= 1 ==> factors == [] && m == n
    ensures Prime(m) && d <= m
    ensures IsPrimeFactorization(n, factors + [m])
  {
    LeftoverPrime(m, d);
    ProductSnoc(factors, m);
    SnocPrimes(factors, m);
    SnocNonDecreasing(factors, m);
  }

  lemma SnocPrimes(factors: seq<int>, m: int)
    requires Prime(m)
    requires forall i :: 0 <= i < |factors| ==> Prime(factors[i])
    ensures forall i :: 0 <= i < |factors + [m]| ==> Prime((factors + [m])[i])
  {
    var f := factors + [m];
    forall i | 0 <= i < |f| ensures Prime(f[i]) {
      if i < |factors| {
        assert f[i] == factors[i];
      }
    }
  }

  lemma SnocNonDecreasing(factors: seq<int>, m: int)
    requires NonDecreasing(factors)
    requires forall i :: 0 <= i < |factors| ==> factors[i] <= m
    ensures NonDecreasing(factors + [m])
  {
    var f := factors + [m];
    forall i, j | 0 <= i <= j < |f| ensures f[i] <= f[j] {
      if j < |factors| {
        assert f[i] == factors[i] && f[j] == factors[j];
      }
    }
  }
}
