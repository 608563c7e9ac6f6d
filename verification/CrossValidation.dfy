/**
  k-fold cross validation of an active subspace: the samples are split into folds by a
  random permutation, and each fold is held out once.
 */
module CrossValidation {
  import opened Common

  /** random_index_vec after the shuffle */
  ghost predicate Permutation(perm: seq<nat>) {
    && (forall k | 0 <= k < |perm| :: perm[k] < |perm|)
    && (forall k, l | 0 <= k < l < |perm| :: perm[k] != perm[l])
  }

  /** n / folds, and one more for the first n % folds. */
  function FoldSize(n: nat, folds: nat, j: nat): nat
    requires folds > 0
  {
    n / folds + (if j < n % folds then 1 else 0)
  }

  function FoldStart(n: nat, folds: nat, j: nat): nat
    requires folds > 0
  {
    if j == 0 then 0 else FoldStart(n, folds, j - 1) + FoldSize(n, folds, j - 1)
  }

  lemma {:induction false} StartFormula(n: nat, folds: nat, j: nat)
    requires folds > 0
    ensures FoldStart(n, folds, j) == j * (n / folds) + (if j <= n % folds then j else n % folds)
  {
    if j > 0 {
      StartFormula(n, folds, j - 1);
      assert j * (n / folds) == (j - 1) * (n / folds) + n / folds;
    }
  }

  /** The folds cover all samples. */
  lemma FoldsCover(n: nat, folds: nat)
    requires folds > 0
    ensures FoldStart(n, folds, folds) == n
  {
    StartFormula(n, folds, folds);
    assert n == folds * (n / folds) + n % folds;
  }

  predicate InFold(n: nat, folds: nat, j: nat, v: nat)
    requires folds > 0
  {
    FoldStart(n, folds, j) <= v < FoldStart(n, folds, j) + FoldSize(n, folds, j)
  }

  lemma {:induction false} StartsGrow(n: nat, folds: nat, i: nat, j: nat)
    requires folds > 0 && i < j
    ensures FoldStart(n, folds, i) + FoldSize(n, folds, i) <= FoldStart(n, folds, j)
  {
    if i < j - 1 { StartsGrow(n, folds, i, j - 1); }
  }

  lemma {:induction false} SomeFold(n: nat, folds: nat, k: nat, v: nat) returns (j: nat)
    requires folds > 0 && v < FoldStart(n, folds, k)
    ensures j < k && InFold(n, folds, j, v)
  {
    if FoldStart(n, folds, k - 1) <= v {
      j := k - 1;
    } else {
      j := SomeFold(n, folds, k - 1, v);
    }
  }

  /** Every sample is in exactly one test fold. */
  lemma ExactlyOneFold(n: nat, folds: nat, v: nat)
    requires folds > 0 && v < n
    ensures exists j :: 0 <= j < folds && InFold(n, folds, j, v)
    ensures forall i, j | 0 <= i < folds && 0 <= j < folds && InFold(n, folds, i, v) && InFold(n, folds, j, v) :: i == j
  {
    FoldsCover(n, folds);
    var f := SomeFold(n, folds, folds, v);
    forall i, j | 0 <= i < folds && 0 <= j < folds && InFold(n, folds, i, v) && InFold(n, folds, j, v) ensures i == j {
      if i < j {
        StartsGrow(n, folds, i, j);
      } else if j < i {
        StartsGrow(n, folds, j, i);
      }
    }
  }

  /** The sizes of all folds. */
  method FoldSizes(n: nat, folds: nat) returns (size: array<nat>)
    requires folds > 0
    ensures fresh(size) && size.Length == folds
    ensures forall j | 0 <= j < folds :: size[j] == n / folds + (if j < n % folds then 1 else 0)
            == FoldSize(n, folds, j)
  {
    size := new nat[folds](_ => n / folds);
    var j := 0;
    while j < n % folds
      invariant j <= n % folds
      invariant forall i | 0 <= i < folds :: size[i] == n / folds + (if i < j then 1 else 0)
    {
      size[j] := size[j] + 1;
      j := j + 1;
    }
  }

  /** The values of the permutation seen so far, split by the fold [lo, hi). */
  ghost predicate Split(perm: seq<nat>, k: nat, lo: nat, hi: nat, tested: set<nat>, trained: set<nat>) {
    && k <= |perm|
    && (forall v | v in tested :: lo <= v < hi)
    && (forall v | v in trained :: v < |perm| && !(lo <= v < hi))
    && (forall i | k <= i < |perm| :: perm[i] !in tested && perm[i] !in trained)
  }

  lemma TestRoom(perm: seq<nat>, k: nat, lo: nat, hi: nat, tested: set<nat>, trained: set<nat>)
    requires Permutation(perm) && Split(perm, k, lo, hi, tested, trained) && k < |perm| && lo <= hi <= |perm|
    ensures lo <= perm[k] < hi ==> |tested| < hi - lo && Split(perm, k + 1, lo, hi, tested + {perm[k]}, trained)
    ensures !(lo <= perm[k] < hi)
            ==> |trained| < |perm| - (hi - lo) && Split(perm, k + 1, lo, hi, tested, trained + {perm[k]})
  {
    if lo <= perm[k] < hi {
      RangeSize(tested + {perm[k]}, lo, hi);
    } else {
      Outside(trained + {perm[k]}, lo, hi, |perm|);
    }
  }

  lemma Outside(s: set<nat>, lo: nat, hi: nat, n: nat)
    requires lo <= hi <= n && forall v | v in s :: v < n && !(lo <= v < hi)
    ensures |s| <= n - (hi - lo)
  {
    var below, above := set v | v in s && v < lo, set v | v in s && v >= hi;
    assert s == below + above;
    RangeSize(below, 0, lo);
    RangeSize(above, hi, n);
  }

  /** The samples before k that are in the fold, or outside it, in order. */
  function Chosen(perm: seq<nat>, k: nat, lo: nat, hi: nat, inside: bool): seq<nat>
    requires k <= |perm|
  {
    if k == 0 then []
    else Chosen(perm, k - 1, lo, hi, inside) + (if (lo <= perm[k-1] < hi) == inside then [k - 1] else [])
  }

  lemma {:induction false} ChosenMeans(perm: seq<nat>, k: nat, lo: nat, hi: nat, inside: bool)
    requires k <= |perm|
    ensures forall i: nat :: i in Chosen(perm, k, lo, hi, inside) <==> i < k && (lo <= perm[i] < hi) == inside
    ensures |Chosen(perm, k, lo, hi, true)| + |Chosen(perm, k, lo, hi, false)| == k
  {
    if k > 0 {
      ChosenMeans(perm, k - 1, lo, hi, inside);
    }
  }

  ghost predicate Increasing(s: seq<nat>) {
    forall i, j | 0 <= i < j < |s| :: s[i] < s[j]
  }

  lemma {:induction false} ChosenIncreasing(perm: seq<nat>, k: nat, lo: nat, hi: nat, inside: bool)
    requires k <= |perm|
    ensures Increasing(Chosen(perm, k, lo, hi, inside))
    ensures forall i | 0 <= i < |Chosen(perm, k, lo, hi, inside)| :: Chosen(perm, k, lo, hi, inside)[i] < k
  {
    if k > 0 { ChosenIncreasing(perm, k - 1, lo, hi, inside); }
  }

  /** Fill the test and training sets of one fold.  The sets are allocated with the
      fold's size and the rest, all writes are in bounds, and both end up full. */
  method BuildFold(perm: seq<nat>, sizes: array<nat>, folds: nat, j: nat)
    returns (test: array<nat>, training: array<nat>)
    requires Permutation(perm) && folds > 0 && j < folds && sizes.Length == folds
    requires forall i | 0 <= i < folds :: sizes[i] == FoldSize(|perm|, folds, i)
    ensures fresh(test) && fresh(training)
    ensures test.Length == FoldSize(|perm|, folds, j) && test.Length + training.Length == |perm|
    ensures var lo := j * (|perm| / folds) + (if j <= |perm| % folds then j else |perm| % folds);
            var hi := lo + |perm| / folds + (if j < |perm| % folds then 1 else 0);
            && (forall k: nat :: k in test[..] <==> k < |perm| && lo <= perm[k] < hi)
            && (forall k: nat :: k in training[..] <==> k < |perm| && !(lo <= perm[k] < hi))
    ensures forall k: nat :: k in test[..] <==> k < |perm| && InFold(|perm|, folds, j, perm[k])
    ensures Increasing(test[..]) && Increasing(training[..])
  {
    var n := |perm|;
    var lo := 0;
    var i := 0;
    while i < j
      invariant i <= j && lo == FoldStart(n, folds, i)
    {
      lo := lo + sizes[i];
      i := i + 1;
    }
    var hi := lo + sizes[j];
    FoldsCover(n, folds);
    StartsGrow(n, folds, j, folds);
    test, training := FillFold(perm, lo, hi);
    StartFormula(n, folds, j);
    ChosenMeans(perm, n, lo, hi, true);
    ChosenMeans(perm, n, lo, hi, false);
    ChosenIncreasing(perm, n, lo, hi, true);
    ChosenIncreasing(perm, n, lo, hi, false);
  }

  method FillFold(perm: seq<nat>, lo: nat, hi: nat) returns (test: array<nat>, training: array<nat>)
    requires Permutation(perm) && lo <= hi <= |perm|
    ensures fresh(test) && fresh(training) && test.Length == hi - lo && training.Length == |perm| - (hi - lo)
    ensures test[..] == Chosen(perm, |perm|, lo, hi, true) && training[..] == Chosen(perm, |perm|, lo, hi, false)
  {
    hide Permutation, Split, Chosen;
    var n := |perm|;
    NoneChosen(perm, lo, hi);
    test, training := new nat[hi - lo], new nat[n - (hi - lo)];
    var testCount, trainingCount, k := 0, 0, 0;
    ghost var tested: set<nat>, trained: set<nat> := {}, {};
    StartSplit(perm, lo, hi);
    while k < n
      invariant k <= n && testCount + trainingCount == k
      invariant testCount == |tested| <= test.Length && trainingCount == |trained| <= training.Length
      invariant Split(perm, k, lo, hi, tested, trained)
      invariant test[..testCount] == Chosen(perm, k, lo, hi, true)
      invariant training[..trainingCount] == Chosen(perm, k, lo, hi, false)
    {
      TestRoom(perm, k, lo, hi, tested, trained);
      NotSeen(perm, k, lo, hi, tested, trained);
      if lo <= perm[k] < hi {
        Put(test, testCount, k);
        testCount := testCount + 1;
        tested := tested + {perm[k]};
      } else {
        Put(training, trainingCount, k);
        trainingCount := trainingCount + 1;
        trained := trained + {perm[k]};
      }
      ChosenNext(perm, k, lo, hi);
      k := k + 1;
    }
    assert test[..] == test[..testCount] && training[..] == training[..trainingCount];
  }

  /** One write into the set being filled. */
  method Put(a: array<nat>, count: nat, k: nat)
    requires count < a.Length
    modifies a
    ensures a[..count + 1] == old(a[..count]) + [k]
  {
    a[count] := k;
  }

  lemma NoneChosen(perm: seq<nat>, lo: nat, hi: nat)
    ensures Chosen(perm, 0, lo, hi, true) == Chosen(perm, 0, lo, hi, false) == []
  {}

  lemma ChosenNext(perm: seq<nat>, k: nat, lo: nat, hi: nat)
    requires k < |perm|
    ensures forall inside :: Chosen(perm, k + 1, lo, hi, inside)
                == Chosen(perm, k, lo, hi, inside) + (if (lo <= perm[k] < hi) == inside then [k] else [])
  {}

  lemma StartSplit(perm: seq<nat>, lo: nat, hi: nat)
    ensures Split(perm, 0, lo, hi, {}, {})
  {}

  lemma NotSeen(perm: seq<nat>, k: nat, lo: nat, hi: nat, tested: set<nat>, trained: set<nat>)
    requires Split(perm, k, lo, hi, tested, trained) && k < |perm|
    ensures perm[k] !in tested && perm[k] !in trained
  {}
}
