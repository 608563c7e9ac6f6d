/**
  Interval-halving continuation after a failed evaluation, in exact arithmetic: walk
  from a point that worked to the target, halving the step whenever an evaluation fails.
 */
module Continuation {
  const MaxFailures: nat := 10

  /** An evaluation that was tried, and whether it succeeded. */
  datatype Trial = Trial(point: seq<real>, ok: bool)

  /** The point a fraction t of the way from the source to the target. */
  function At(source: seq<real>, target: seq<real>, t: real): seq<real>
    requires |source| == |target|
  {
    seq(|source|, i requires 0 <= i < |source| => source[i] + t * (target[i] - source[i]))
  }

  /** A step of fraction h. */
  function Step(source: seq<real>, target: seq<real>, h: real): seq<real>
    requires |source| == |target|
  {
    seq(|source|, i requires 0 <= i < |source| => h * (target[i] - source[i]))
  }

  function Plus(a: seq<real>, b: seq<real>): seq<real>
    requires |a| == |b|
  {
    seq(|a|, i requires 0 <= i < |a| => a[i] + b[i])
  }

  /** A point lies a fraction of the way from the source to the target. */
  ghost predicate Between(source: seq<real>, target: seq<real>, t: real, point: seq<real>) {
    |source| == |target| == |point|
      && forall i | 0 <= i < |point| :: point[i] == source[i] + t * (target[i] - source[i])
  }

  lemma Along(source: seq<real>, target: seq<real>, t: real, h: real)
    requires |source| == |target|
    ensures Plus(At(source, target, t), Step(source, target, h)) == At(source, target, t + h)
  {
    forall i | 0 <= i < |source|
      ensures source[i] + t * (target[i] - source[i]) + h * (target[i] - source[i])
              == source[i] + (t + h) * (target[i] - source[i])
    {
      Distribute(t, h, target[i] - source[i]);
    }
  }

  lemma Distribute(a: real, b: real, d: real)
    ensures (a + b) * d == a * d + b * d
  {}

  lemma WholeWay(source: seq<real>, target: seq<real>)
    requires |source| == |target|
    ensures At(source, target, 1.0) == target && At(source, target, 0.0) == source
  {}

  lemma HalfStep(source: seq<real>, target: seq<real>, h: real, delta: seq<real>, half: seq<real>)
    requires |source| == |target| && delta == Step(source, target, h)
    requires |half| == |delta| && forall i | 0 <= i < |delta| :: half[i] == delta[i] / 2.0
    ensures half == Step(source, target, h / 2.0)
  {
    forall i | 0 <= i < |delta| ensures half[i] == (h / 2.0) * (target[i] - source[i]) {
      Distribute(h / 2.0, h / 2.0, target[i] - source[i]);
    }
  }

  lemma StepBack(source: seq<real>, target: seq<real>, t: real, h: real, back: seq<real>)
    requires |source| == |target| && |back| == |source|
    requires forall i | 0 <= i < |back| :: back[i] == At(source, target, t)[i] - Step(source, target, h)[i]
    ensures back == At(source, target, t - h)
  {
    forall i | 0 <= i < |back| ensures back[i] == source[i] + (t - h) * (target[i] - source[i]) {
      Distribute(t - h, h, target[i] - source[i]);
    }
  }

  function Pow2(n: nat): (r: nat)
    ensures r >= 1
  {
    if n == 0 then 1 else 2 * Pow2(n - 1)
  }

  function Failures(log: seq<Trial>): nat {
    if log == [] then 0 else Failures(log[..|log|-1]) + (if log[|log|-1].ok then 0 else 1)
  }

  /** How far the successful evaluations got. */
  function LastSuccess(log: seq<Trial>, fractions: seq<real>): real
    requires |log| == |fractions|
  {
    if log == [] then 0.0
    else if log[|log|-1].ok then fractions[|log|-1]
    else LastSuccess(log[..|log|-1], fractions[..|log|-1])
  }

  /** The k-th trial is a step of 1/2^(failures so far + 1) beyond the last success, and
      not beyond the target. */
  ghost predicate Walk(source: seq<real>, target: seq<real>, log: seq<Trial>, fractions: seq<real>)
    requires |source| == |target|
  {
    && |fractions| == |log|
    && forall k | 0 <= k < |log| :: StepOf(source, target, log, fractions, k)
  }

  ghost predicate StepOf(source: seq<real>, target: seq<real>, log: seq<Trial>, fractions: seq<real>, k: nat)
    requires |source| == |target| && k < |log| == |fractions|
  {
    && log[k].point == At(source, target, fractions[k])
    && fractions[k] == LastSuccess(log[..k], fractions[..k]) + 1.0 / (Pow2(Failures(log[..k]) + 1) as real)
    && 0.0 < fractions[k] <= 1.0
  }

  lemma WalkOn(source: seq<real>, target: seq<real>, log: seq<Trial>, fractions: seq<real>, trial: Trial, f: real)
    requires |source| == |target| && Walk(source, target, log, fractions)
    requires trial.point == At(source, target, f) && 0.0 < f <= 1.0
    requires f == LastSuccess(log, fractions) + 1.0 / (Pow2(Failures(log) + 1) as real)
    ensures Walk(source, target, log + [trial], fractions + [f])
    ensures Failures(log + [trial]) == Failures(log) + (if trial.ok then 0 else 1)
    ensures LastSuccess(log + [trial], fractions + [f]) == (if trial.ok then f else LastSuccess(log, fractions))
  {
    hide At, Pow2;
    var l, fs := log + [trial], fractions + [f];
    assert l[..|l|-1] == log && fs[..|l|-1] == fractions;
    forall k | 0 <= k < |l| ensures StepOf(source, target, l, fs, k) {
      if k < |log| {
        assert StepOf(source, target, log, fractions, k);
        assert l[..k] == log[..k] && fs[..k] == fractions[..k];
      }
    }
  }

  /** m whole steps of size h remain after the current one. */
  predicate Remaining(last: real, h: real, m: nat) {
    last + h + h * (m as real) == 1.0 && h > 0.0
  }

  lemma HalvingDoubles(last: real, h: real, m: nat)
    requires Remaining(last, h, m)
    ensures Remaining(last, h / 2.0, 2 * m + 1) && last + h - h / 2.0 == last + h / 2.0
  {
    assert h / 2.0 * ((2 * m + 1) as real) == h * (m as real) + h / 2.0;
  }

  lemma AdvanceCounts(last: real, h: real, m: nat)
    requires Remaining(last, h, m)
    ensures last + h <= 1.0 && (m == 0 ==> last + h == 1.0)
    ensures m > 0 ==> Remaining(last + h, h, m - 1)
  {
    if m > 0 {
      assert h * (m as real) == h + h * ((m - 1) as real);
      assert h * ((m - 1) as real) >= 0.0;
    }
  }

  lemma HalfPower(f: nat)
    ensures 1.0 / (Pow2(f) as real) / 2.0 == 1.0 / (Pow2(f + 1) as real)
  {
    Reciprocal(Pow2(f) as real);
  }

  lemma Reciprocal(p: real)
    requires p >= 1.0
    ensures 1.0 / p / 2.0 == 1.0 / (2.0 * p)
  {}

  /** continuation: for every pattern of failures the walk ends, either with the first
      successful evaluation at exactly the target or, after MaxFailures failures, where the
      source aborts.  `outcome` says whether the k-th evaluation succeeds. */
  method Continue(source: seq<real>, target: seq<real>, outcome: nat -> bool)
    returns (reached: bool, log: seq<Trial>, ghost fractions: seq<real>)
    requires |source| == |target|
    ensures forall k | 0 <= k < |log| :: log[k].ok == outcome(k)
    ensures forall k | 0 <= k < |log| - 1 :: log[k] != Trial(target, true)
    ensures Walk(source, target, log, fractions) && |log| > 0
    ensures reached ==> log[|log|-1] == Trial(target, true) && Failures(log) < 10
    ensures !reached ==> !log[|log|-1].ok && Failures(log) == 10
    ensures forall k | 0 <= k < |log| :: |fractions| == |log| && Between(source, target, fractions[k], log[k].point)
  {
    hide Poised, Logged, Minus, Walk, Failures, Between;
    var n := |source|;
    var failures := 1;
    var delta := seq(n, i requires 0 <= i < n => (target[i] - source[i]) / 2.0);
    var current := seq(n, i requires 0 <= i < n => source[i] + delta[i]);
    log, fractions := [], [];
    ghost var last, h := 0.0, 0.5;
    ghost var m: nat := 1;
    WalkStarts(source, target, delta, current);
    while true
      invariant 1 <= failures <= MaxFailures && |delta| == n && |current| == n
      invariant Logged(source, target, log, fractions, last, failures)
      invariant Poised(source, target, delta, current, last, h, m, failures)
      invariant forall k | 0 <= k < |log| :: log[k].ok == outcome(k) && log[k] != Trial(target, true)
      decreases MaxFailures - failures, m
    {
      var ok := outcome(|log|);
      Tried(source, target, delta, current, last, h, m, failures, log, fractions, ok);
      log, fractions := log + [Trial(current, ok)], fractions + [last + h];
      if !ok {
        failures := failures + 1;
        if failures > MaxFailures {
          LoggedWalk(source, target, log, fractions, last, failures);
          return false, log, fractions;
        }
        var half := seq(n, i requires 0 <= i < n => delta[i] / 2.0);
        Halve(source, target, delta, current, last, h, m, failures - 1, half);
        delta, current := half, Minus(current, half);
        h, m := h / 2.0, 2 * m + 1;
      } else {
        Advance(source, target, delta, current, last, h, m, failures);
        if current == target {
          LoggedWalk(source, target, log, fractions, last + h, failures);
          return true, log, fractions;
        }
        current := Plus(current, delta);
        last, m := last + h, m - 1;
      }
    }
  }

  /** What the loop knows: the current point is one step beyond the last success and m
      more steps lead exactly to the target. */
  ghost predicate Poised(source: seq<real>, target: seq<real>, delta: seq<real>, current: seq<real>, last: real,
      h: real, m: nat, failures: nat)
  {
    && |source| == |target| && h == 1.0 / (Pow2(failures) as real) && 0.0 <= last && Remaining(last, h, m)
    && delta == Step(source, target, h) && current == At(source, target, last + h)
  }

  ghost predicate Logged(source: seq<real>, target: seq<real>, log: seq<Trial>, fractions: seq<real>, last: real,
      failures: nat)
  {
    && |source| == |target| && |fractions| == |log| && Walk(source, target, log, fractions)
    && last == LastSuccess(log, fractions) && Failures(log) + 1 == failures
  }

  lemma LoggedWalk(source: seq<real>, target: seq<real>, log: seq<Trial>, fractions: seq<real>, last: real,
      failures: nat)
    requires Logged(source, target, log, fractions, last, failures)
    ensures |source| == |target| && Walk(source, target, log, fractions) && Failures(log) + 1 == failures
    ensures forall k | 0 <= k < |log| :: |fractions| == |log| && Between(source, target, fractions[k], log[k].point)
  {
    hide Pow2, LastSuccess, Failures;
    forall k | 0 <= k < |log| ensures |fractions| == |log| && Between(source, target, fractions[k], log[k].point) {
      assert StepOf(source, target, log, fractions, k);
    }
  }

  lemma Tried(source: seq<real>, target: seq<real>, delta: seq<real>, current: seq<real>, last: real, h: real, m: nat,
      failures: nat, log: seq<Trial>, fractions: seq<real>, ok: bool)
    requires Poised(source, target, delta, current, last, h, m, failures)
    requires Logged(source, target, log, fractions, last, failures)
    ensures Logged(source, target, log + [Trial(current, ok)], fractions + [last + h],
                   if ok then last + h else last, if ok then failures else failures + 1)
  {
    hide Walk, At, Step, Pow2, LastSuccess, Failures, Minus, Plus;
    AdvanceCounts(last, h, m);
    WalkOn(source, target, log, fractions, Trial(current, ok), last + h);
  }

  lemma Halve(source: seq<real>, target: seq<real>, delta: seq<real>, current: seq<real>, last: real, h: real, m: nat,
      failures: nat, half: seq<real>)
    requires Poised(source, target, delta, current, last, h, m, failures)
    requires |half| == |delta| == |current| && forall i | 0 <= i < |delta| :: half[i] == delta[i] / 2.0
    ensures Poised(source, target, half, Minus(current, half), last, h / 2.0, 2 * m + 1, failures + 1)
  {
    hide Remaining;
    HalfStep(source, target, h, delta, half);
    StepBack(source, target, last + h, h / 2.0, Minus(current, half));
    HalvingDoubles(last, h, m);
    HalfPower(failures);
  }

  lemma Advance(source: seq<real>, target: seq<real>, delta: seq<real>, current: seq<real>, last: real, h: real,
      m: nat, failures: nat)
    requires Poised(source, target, delta, current, last, h, m, failures)
    ensures |delta| == |current| && (m == 0 ==> current == target)
    ensures m > 0 ==> Poised(source, target, delta, Plus(current, delta), last + h, h, m - 1, failures)
  {
    AdvanceCounts(last, h, m);
    WholeWay(source, target);
    Along(source, target, last + h, h);
  }

  function Minus(a: seq<real>, b: seq<real>): (c: seq<real>)
    requires |a| == |b|
    ensures |c| == |a| && forall i | 0 <= i < |a| :: c[i] == a[i] - b[i]
  {
    seq(|a|, i requires 0 <= i < |a| => a[i] - b[i])
  }

  lemma WalkStarts(source: seq<real>, target: seq<real>, delta: seq<real>, current: seq<real>)
    requires |source| == |target| == |delta| == |current|
    requires forall i | 0 <= i < |source| ::
               delta[i] == (target[i] - source[i]) / 2.0 && current[i] == source[i] + delta[i]
    ensures Logged(source, target, [], [], 0.0, 1)
    ensures Poised(source, target, delta, current, 0.0, 0.5, 1, 1)
  {
    assert Pow2(1) == 2;
  }
}
