/**
  How many samples and symbols an orthogonal array or Latin hypercube design gets.
 */
module DesignSizing {
  import opened Common

  /** No divisor between 2 and the number itself, or 4. */
  predicate Usable(k: nat) {
    k == 4 || forall d | 2 <= d < k :: k % d != 0
  }

  lemma UsableMeans(k: nat)
    ensures Usable(k) <==> k == 4 || forall d | 2 <= d < k :: k % d != 0
  {}

  function Factorial(n: nat): (r: nat)
    ensures r >= 1
  {
    if n == 0 then 1 else n * Factorial(n - 1)
  }

  ghost predicate Divides(d: nat, n: nat) {
    exists q: nat :: n == d * q
  }

  lemma {:induction false} FactorialDivisible(n: nat, d: nat)
    requires 1 <= d <= n
    ensures Divides(d, Factorial(n))
  {
    if d == n {
      assert Factorial(n) == d * Factorial(n - 1);
    } else {
      FactorialDivisible(n - 1, d);
      var q: nat :| Factorial(n - 1) == d * q;
      assert Factorial(n) == d * (n * q) by {
        assert n * (d * q) == d * (n * q);
      }
    }
  }

  /** The least divisor from d on. */
  lemma LeastDivisor(n: nat, d: nat) returns (p: nat)
    requires 2 <= d <= n && forall e | 2 <= e < d :: !Divides(e, n)
    ensures d <= p <= n && Divides(p, n) && forall e | 2 <= e < p :: !Divides(e, n)
    decreases n - d
  {
    if Divides(d, n) {
      p := d;
    } else {
      assert d != n by { assert n == n * 1; }
      p := LeastDivisor(n, d + 1);
    }
  }

  lemma DividesTransitive(a: nat, b: nat, c: nat)
    requires Divides(a, b) && Divides(b, c)
    ensures Divides(a, c)
  {
    var q: nat :| b == a * q;
    var r: nat :| c == b * r;
    assert c == a * (q * r) by { assert (a * q) * r == a * (q * r); }
  }

  lemma NoCommonStep(p: nat, m: nat)
    requires p >= 2
    ensures !(Divides(p, m) && Divides(p, m + 1))
  {
    if Divides(p, m) && Divides(p, m + 1) {
      var q: nat :| m == p * q;
      var r: nat :| m + 1 == p * r;
      assert p * (r - q) == 1;
      Scale(p, r - q);
    }
  }

  lemma Scale(p: nat, k: int)
    ensures k >= 1 ==> p * k >= p
    ensures k <= 0 ==> p * k <= 0
    ensures k <= -1 ==> p * k <= -(p as int)
  {
    MulMonotone(1, k, p);
    MulMonotone(k, 0, p);
    MulMonotone(k, -1, p);
    assert p * k == k * p;
  }

  lemma RemainderDivides(p: nat, d: nat)
    requires d > 0 && p % d == 0
    ensures Divides(d, p)
  {
    assert p == d * (p / d);
  }

  /** Euclid: above every bound there is a number without proper divisors. */
  lemma PrimeAbove(n: nat) returns (p: nat)
    ensures p > n && Usable(p)
  {
    var m := Factorial(n);
    p := LeastDivisor(m + 1, 2);
    if p <= n {
      FactorialDivisible(n, p);
      NoCommonStep(p, m);
    }
    forall d | 2 <= d < p ensures p % d != 0 {
      if p % d == 0 {
        RemainderDivides(p, d);
        DividesTransitive(d, p, m + 1);
      }
    }
  }

  /** std::ceil of std::sqrt, without rounding. */
  function CeilSqrt(n: nat): (r: nat)
    ensures r * r >= n && (r == 0 || (r - 1) * (r - 1) < n)
  {
    SqrtFrom(n, 0)
  }

  function SqrtFrom(n: nat, r: nat): (s: nat)
    requires r == 0 || (r - 1) * (r - 1) < n
    ensures s * s >= n && (s == 0 || (s - 1) * (s - 1) < n)
    decreases n - r * r
  {
    if r * r >= n then r else SqrtFrom(n, r + 1)
  }

  /** The divisor loop. */
  method IsUsable(symbols: nat) returns (flag: bool)
    ensures flag == Usable(symbols)
  {
    flag := true;
    var i := 2;
    while i < symbols
      invariant 2 <= i && flag && (symbols > 2 ==> i <= symbols)
      invariant symbols != 4 ==> forall d | 2 <= d < i :: symbols % d != 0
    {
      if symbols % i == 0 && symbols != 4 { return false; }
      i := i + 1;
    }
  }

  /** A request can be kept. */
  predicate Fits(samples: nat, symbols: nat) {
    symbols > 0 && samples % (symbols * symbols) == 0 && Usable(symbols)
  }

  /** A request that fits is kept; otherwise the least usable number of symbols whose
      square covers the samples is taken, with exactly its square of samples. */
  ghost predicate Resolved(samples: nat, symbols: nat, samples': nat, symbols': nat) {
    if Fits(samples, symbols) then samples' == samples && symbols' == symbols
    else
      && Usable(symbols') && symbols' * symbols' == samples' >= samples
      && forall k: nat | k < symbols' && Usable(k) :: k * k < samples
  }

  lemma SmallerSquare(k: nat, r: nat, samples: nat)
    requires k < r && (r - 1) * (r - 1) < samples
    ensures k * k < samples
  {
    MulMonotone(k, r - 1, k);
    MulMonotone(k, r - 1, r - 1);
  }

  lemma LargerSquare(k: nat, r: nat, samples: nat)
    requires k >= r && r * r >= samples
    ensures k * k >= samples
  {
    MulMonotone(r, k, r);
    MulMonotone(r, k, k);
  }

  /** resolve_samples_symbols for orthogonal arrays.  A request without samples is an
      error. */
  method ResolveOrthogonalArray(samples: nat, symbols: nat) returns (ok: bool, samples': nat, symbols': nat)
    ensures ok == (samples > 0)
    ensures ok ==> Resolved(samples, symbols, samples', symbols')
  {
    hide Usable, Factorial;
    samples', symbols' := samples, symbols;
    if samples == 0 { return false, samples, symbols; }
    ok := true;
    var prime := IsUsable(symbols);
    if symbols == 0 || samples % (symbols * symbols) != 0 || !prime {
      symbols' := CeilSqrt(samples);
      ghost var start := symbols';
      ghost var bound := PrimeAbove(symbols');
      prime := IsUsable(symbols');
      while !prime
        invariant start <= symbols' <= bound && prime == Usable(symbols')
        invariant forall k: nat | start <= k < symbols' :: !Usable(k)
        decreases bound - symbols', !prime
      {
        symbols' := symbols' + 1;
        prime := IsUsable(symbols');
      }
      samples' := symbols' * symbols';
      LargerSquare(symbols', start, samples);
      forall k: nat | k < symbols' && Usable(k) ensures k * k < samples {
        SmallerSquare(k, start, samples);
      }
    }
  }

  lemma SquareFits(k: nat)
    requires k > 0 && Usable(k)
    ensures Fits(k * k, k)
  {
    var m := k * k;
    assert m > 0 by { Scale(k, k); }
    assert m % m == 0;
  }

  /** The result always meets the array's restrictions and never has fewer samples. */
  lemma ResolvedFits(samples: nat, symbols: nat, samples': nat, symbols': nat)
    requires samples > 0 && Resolved(samples, symbols, samples', symbols')
    ensures Fits(samples', symbols') && samples' >= samples
    ensures symbols' > 0 && samples' % (symbols' * symbols') == 0
    ensures symbols' == 4 || forall d | 2 <= d < symbols' :: symbols' % d != 0
  {
    if !Fits(samples, symbols) {
      SquareFits(symbols');
    }
  }

  /** What is kept, and what is taken instead, in terms of divisors. */
  lemma ResolvedMeans(samples: nat, symbols: nat, samples': nat, symbols': nat)
    requires samples > 0 && Resolved(samples, symbols, samples', symbols')
    ensures symbols > 0 && samples % (symbols * symbols) == 0
              && (symbols == 4 || forall d | 2 <= d < symbols :: symbols % d != 0)
            ==> samples' == samples && symbols' == symbols
    ensures samples' != samples || symbols' != symbols ==>
              && samples' == symbols' * symbols' && samples' >= samples
              && forall k: nat | k < symbols' && k * k >= samples :: k != 4 && exists d :: 2 <= d < k && k % d == 0
  {
    if samples' != samples || symbols' != symbols {
      forall k: nat | k < symbols' && k * k >= samples ensures k != 4 && exists d :: 2 <= d < k && k % d == 0 {
        UsableMeans(k);
        assert !Usable(k);
      }
    }
  }

  /** The resolution is a function of the request, and applying it twice changes nothing. */
  lemma ResolvedOnce(samples: nat, symbols: nat, samples': nat, symbols': nat, samples'': nat, symbols'': nat)
    requires samples > 0 && Resolved(samples, symbols, samples', symbols')
    ensures Resolved(samples, symbols, samples'', symbols'') ==> samples'' == samples' && symbols'' == symbols'
    ensures Resolved(samples', symbols', samples'', symbols'') ==> samples'' == samples' && symbols'' == symbols'
  {
    ResolvedFits(samples, symbols, samples', symbols');
  }

  /** Latin hypercube: the samples are rounded up to a multiple of the symbols. */
  method ResolveLatinHypercube(samples: nat, symbols: nat) returns (ok: bool, samples': nat, symbols': nat)
    ensures ok == (samples > 0)
    ensures ok ==> symbols' == (if symbols == 0 then samples else symbols) && samples' % symbols' == 0
    ensures ok ==> samples <= samples' < samples + symbols'
  {
    samples', symbols' := samples, symbols;
    if samples == 0 { return false, samples, symbols; }
    ok := true;
    if symbols == 0 {
      symbols' := samples;
    } else if samples % symbols != 0 {
      var replications := CeilDiv(samples, symbols);
      samples' := replications * symbols;
      MultipleRemainder(replications, symbols);
    }
  }

  function CeilDiv(n: nat, d: nat): (q: nat)
    requires d > 0
    ensures n <= q * d < n + d
  {
    assert n == d * (n / d) + n % d;
    assert (n / d + 1) * d == d * (n / d) + d;
    if n % d == 0 then n / d else n / d + 1
  }

  lemma MultipleRemainder(q: nat, d: nat)
    requires d > 0
    ensures (q * d) % d == 0
  {
    var r := (q * d) % d;
    var k := q - (q * d) / d;
    assert r == d * k;
    Scale(d, k);
  }

  /** A multiple within one symbol count is unique, so resolving twice changes nothing. */
  lemma LatinHypercubeOnce(samples: nat, symbols: nat, a: nat, b: nat)
    requires symbols > 0 && samples <= a < samples + symbols && a % symbols == 0
    requires samples <= b < samples + symbols && b % symbols == 0
    ensures a == b
  {
    var d := a / symbols - b / symbols;
    assert a - b == symbols * d;
    Scale(symbols, d);
  }
}
