/**
  Small facts about numbers, sequences and sets that several modules share.
 */
module Common {
  datatype Option<T> = None | Some(value: T)

  /** Counts a condition. */
  function Here(p: bool): nat { if p then 1 else 0 }

  predicate Distinct(ids: seq<nat>) {
    forall i, j | 0 <= i < j < |ids| :: ids[i] != ids[j]
  }

  function Min(a: nat, b: nat): (m: nat)
    ensures m <= a && m <= b && (m == a || m == b)
  {
    if a <= b then a else b
  }

  lemma MulMonotone(a: int, b: int, c: nat)
    ensures a <= b ==> a * c <= b * c
  {
    if a <= b {
      assert b * c == a * c + (b - a) * c;
    }
  }

  lemma DivDown(i: nat, n: nat)
    requires n > 0
    ensures i / n <= i
  {
    var q := i / n;
    MulMonotone(1, n, q);
    assert i == n * q + i % n;
  }

  lemma Multiples(n: nat, d: int)
    ensures d >= 1 ==> n * d >= n
    ensures d <= -1 ==> n * d <= -(n as int)
  {
    MulMonotone(1, d, n);
    MulMonotone(d, -1, n);
    assert n * d == d * n;
  }

  lemma DivStep(i: nat, n: nat)
    requires n > 0
    ensures (i + 1) / n == i / n + (if (i + 1) % n == 0 then 1 else 0)
    ensures (i + 1) % n == (if i % n == n - 1 then 0 else i % n + 1)
  {
    var q, r := i / n, i % n;
    assert i == n * q + r;
    if r == n - 1 {
      assert i + 1 == n * (q + 1);
      DivUnique(i + 1, n, q + 1, 0);
    } else {
      DivUnique(i + 1, n, q, r + 1);
    }
  }

  lemma DivUnique(i: nat, n: nat, q: nat, r: nat)
    requires n > 0 && r < n && i == n * q + r
    ensures i / n == q && i % n == r
  {
    var d := i / n - q;
    assert n * d == r - i % n;
    Multiples(n, d);
  }

  lemma {:induction false} RangeSize(s: set<nat>, lo: nat, hi: nat)
    requires lo <= hi && forall b | b in s :: lo <= b < hi
    ensures |s| <= hi - lo
    decreases hi - lo
  {
    if lo == hi {
      assert s == {};
    } else {
      RangeSize(s - {hi - 1}, lo, hi - 1);
    }
  }

  lemma SameSize(s: set<nat>, t: set<nat>)
    requires s <= t && |s| >= |t|
    ensures s == t
  {
    if x :| x in t && x !in s {
      SubsetSize(s, t - {x});
    }
  }

  lemma {:induction false} SubsetSize(s: set<nat>, t: set<nat>)
    requires s <= t
    ensures |s| <= |t|
  {
    if s != {} {
      var x :| x in s;
      SubsetSize(s - {x}, t - {x});
    }
  }

  method AnyOf<T(==)>(s: set<T>) returns (x: T)
    requires s != {}
    ensures x in s
  {
    x :| x in s;
  }

  /** Ordered maps are scanned from the smallest key. */
  method Least(s: set<nat>) returns (m: nat)
    requires s != {}
    ensures m in s
    ensures forall x | x in s :: m <= x
  {
    m := AnyOf(s);
    var rest := s - {m};
    while rest != {}
      invariant m in s && rest <= s
      invariant forall x | x in s && x !in rest :: m <= x
      decreases rest
    {
      var x := AnyOf(rest);
      if x < m { m := x; }
      rest := rest - {x};
    }
  }
}
