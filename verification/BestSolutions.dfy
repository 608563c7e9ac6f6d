/**
  The best solutions so far: a multimap of bounded size, ordered by constraint violation
  and then objective, in which equal keys keep the order they came in.
 */
module BestSolutions {
  datatype Metrics = Metrics(violation: real, objective: real)

  predicate Less(a: Metrics, b: Metrics) {
    a.violation < b.violation || (a.violation == b.violation && a.objective < b.objective)
  }

  datatype Entry<T> = Entry(key: Metrics, value: T)

  /** Where a multimap inserts a key: after all keys that are not greater. */
  function Place<T>(m: seq<Entry<T>>, key: Metrics): (p: nat)
    ensures p <= |m| && (forall i | 0 <= i < p :: !Less(key, m[i].key)) && (p < |m| ==> Less(key, m[p].key))
  {
    if m == [] || Less(key, m[0].key) then 0 else 1 + Place(m[1..], key)
  }

  function Insert<T>(m: seq<Entry<T>>, e: Entry<T>): seq<Entry<T>> {
    var p := Place(m, e.key);
    m[..p] + [e] + m[p..]
  }

  /** One update: room is used, and a better point replaces the worst. */
  function Offer<T>(m: seq<Entry<T>>, limit: nat, e: Entry<T>): seq<Entry<T>> {
    if |m| < limit then Insert(m, e)
    else if |m| > 0 && Less(e.key, m[|m|-1].key) then Insert(m[..|m|-1], e)
    else m
  }

  /** Evaluation i ranks before evaluation j: by violation, then objective, then arrival. */
  predicate Before(keys: seq<Metrics>, i: nat, j: nat)
    requires i < |keys| && j < |keys|
  {
    var a, b := keys[i], keys[j];
    || a.violation < b.violation
    || (a.violation == b.violation && (a.objective < b.objective || (a.objective == b.objective && i < j)))
  }

  ghost predicate Ranked(b: seq<nat>, keys: seq<Metrics>) {
    && (forall i | 0 <= i < |b| :: b[i] < |keys|)
    && (forall i, j | 0 <= i < j < |b| :: Before(keys, b[i], b[j]))
  }

  /** The first `limit` evaluations of the stable sort. */
  ghost predicate Top(b: seq<nat>, keys: seq<Metrics>, limit: nat) {
    && Ranked(b, keys)
    && |b| == (if |keys| <= limit then |keys| else limit)
    && (forall j | 0 <= j < |keys| :: j in b || (|b| == limit && forall i | 0 <= i < |b| :: Before(keys, b[i], j)))
  }

  /** The first of the list is the best point found: no point violates the constraints less,
      none that violates them as much has a smaller objective, and of equals it came first. */
  lemma BestFirst(b: seq<nat>, keys: seq<Metrics>, limit: nat, j: nat)
    requires Top(b, keys, limit) && b != [] && j < |keys|
    ensures b[0] < |keys| && keys[b[0]].violation <= keys[j].violation
    ensures keys[b[0]].violation == keys[j].violation ==> keys[b[0]].objective <= keys[j].objective
    ensures keys[b[0]] == keys[j] ==> b[0] <= j
  {
    if j in b {
      var i :| 0 <= i < |b| && b[i] == j;
      assert i > 0 ==> Before(keys, b[0], b[i]);
    } else {
      assert Before(keys, b[0], j);
    }
  }

  /** There is only one such list. */
  lemma {:induction false} TopIsUnique(a: seq<nat>, b: seq<nat>, keys: seq<Metrics>, limit: nat, p: nat)
    requires Top(a, keys, limit) && Top(b, keys, limit) && p <= |a|
    ensures |a| == |b| && a[..p] == b[..p]
  {
    if p > 0 {
      TopIsUnique(a, b, keys, limit, p - 1);
      var q := p - 1;
      NotEarlier(a, b, keys, limit, q);
      NotEarlier(b, a, keys, limit, q);
      Total(keys, a[q], b[q]);
      assert a[..p] == a[..q] + [a[q]] && b[..p] == b[..q] + [b[q]];
    }
  }

  lemma Total(keys: seq<Metrics>, i: nat, j: nat)
    requires i < |keys| && j < |keys| && !Before(keys, i, j) && !Before(keys, j, i)
    ensures i == j
  {}

  lemma NotEarlier(a: seq<nat>, b: seq<nat>, keys: seq<Metrics>, limit: nat, q: nat)
    requires Top(a, keys, limit) && Top(b, keys, limit) && |a| == |b| && q < |a| && a[..q] == b[..q]
    ensures !Before(keys, a[q], b[q])
  {
    Absent(a, b, keys, q);
    LeftOut(b, keys, limit, a[q], q);
  }

  lemma Absent(a: seq<nat>, b: seq<nat>, keys: seq<Metrics>, q: nat)
    requires Ranked(a, keys) && Ranked(b, keys) && |a| == |b| && q < |a| && a[..q] == b[..q]
    ensures Before(keys, a[q], b[q]) ==> a[q] !in b
  {
    forall i | 0 <= i < |b| && Before(keys, a[q], b[q]) ensures b[i] != a[q] {
      if i < q {
        assert a[..q][i] == b[..q][i];
        assert Before(keys, a[i], a[q]);
      } else if i > q {
        assert Before(keys, b[q], b[i]);
      }
    }
  }

  lemma LeftOut(b: seq<nat>, keys: seq<Metrics>, limit: nat, j: nat, q: nat)
    requires Top(b, keys, limit) && j < |keys| && q < |b|
    ensures j !in b ==> Before(keys, b[q], j)
  {}

  /** The entries of a list of evaluations. */
  function Pick<T>(b: seq<nat>, keys: seq<Metrics>, values: seq<T>): seq<Entry<T>>
    requires |keys| == |values| && forall i | 0 <= i < |b| :: b[i] < |keys|
  {
    seq(|b|, i requires 0 <= i < |b| => Entry(keys[b[i]], values[b[i]]))
  }

  /** Where the newest evaluation goes in a ranked list. */
  function PlaceOf(b: seq<nat>, keys: seq<Metrics>, key: Metrics): (p: nat)
    requires forall i | 0 <= i < |b| :: b[i] < |keys|
    ensures p <= |b| && (forall i | 0 <= i < p :: !Less(key, keys[b[i]])) && (p < |b| ==> Less(key, keys[b[p]]))
  {
    if b == [] || Less(key, keys[b[0]]) then 0 else 1 + PlaceOf(b[1..], keys, key)
  }

  function OfferOf(b: seq<nat>, keys: seq<Metrics>, key: Metrics, limit: nat): seq<nat>
    requires forall i | 0 <= i < |b| :: b[i] < |keys|
  {
    if |b| < limit then Enter(b, keys, key)
    else if |b| > 0 && Less(key, keys[b[|b|-1]]) then Enter(b[..|b|-1], keys, key)
    else b
  }

  function Enter(b: seq<nat>, keys: seq<Metrics>, key: Metrics): seq<nat>
    requires forall i | 0 <= i < |b| :: b[i] < |keys|
  {
    var p := PlaceOf(b, keys, key);
    b[..p] + [|keys|] + b[p..]
  }

  lemma {:induction false} SamePlace<T>(b: seq<nat>, keys: seq<Metrics>, values: seq<T>, key: Metrics)
    requires |keys| == |values| && forall i | 0 <= i < |b| :: b[i] < |keys|
    ensures Place(Pick(b, keys, values), key) == PlaceOf(b, keys, key)
  {
    if b != [] && !Less(key, keys[b[0]]) {
      assert Pick(b, keys, values)[1..] == Pick(b[1..], keys, values);
      SamePlace(b[1..], keys, values, key);
    }
  }

  lemma SameEntry<T>(b: seq<nat>, keys: seq<Metrics>, values: seq<T>, e: Entry<T>)
    requires |keys| == |values| && forall i | 0 <= i < |b| :: b[i] < |keys|
    ensures forall i | 0 <= i < |Enter(b, keys, e.key)| :: Enter(b, keys, e.key)[i] < |keys| + 1
    ensures Insert(Pick(b, keys, values), e) == Pick(Enter(b, keys, e.key), keys + [e.key], values + [e.value])
  {
    hide Less;
    SamePlace(b, keys, values, e.key);
    var p, c := PlaceOf(b, keys, e.key), Enter(b, keys, e.key);
    var m, picked := Insert(Pick(b, keys, values), e), Pick(c, keys + [e.key], values + [e.value]);
    forall i | 0 <= i < |c| ensures m[i] == picked[i] {
      if i < p { assert c[i] == b[i]; } else if i > p { assert c[i] == b[i - 1]; }
    }
  }

  /** What a map does depends on its keys only: updating the map is updating the list of
      evaluations it holds.  Two maps fed with the same keys therefore stay in lockstep. */
  lemma OfferFollowsKeys<T>(b: seq<nat>, keys: seq<Metrics>, values: seq<T>, limit: nat, e: Entry<T>)
    requires |keys| == |values| && forall i | 0 <= i < |b| :: b[i] < |keys|
    ensures forall i | 0 <= i < |OfferOf(b, keys, e.key, limit)| :: OfferOf(b, keys, e.key, limit)[i] < |keys| + 1
    ensures Offer(Pick(b, keys, values), limit, e)
            == Pick(OfferOf(b, keys, e.key, limit), keys + [e.key], values + [e.value])
  {
    hide Insert, Enter;
    SameEntry(b, keys, values, e);
    if |b| > 0 {
      var rest := b[..|b|-1];
      assert Pick(b, keys, values)[..|b|-1] == Pick(rest, keys, values);
      SameEntry(rest, keys, values, e);
    }
    assert Pick(b, keys + [e.key], values + [e.value]) == Pick(b, keys, values);
  }

  lemma EnterRanks(b: seq<nat>, keys: seq<Metrics>, key: Metrics)
    requires Ranked(b, keys)
    ensures Ranked(Enter(b, keys, key), keys + [key]) && |Enter(b, keys, key)| == |b| + 1
    ensures forall j :: j in Enter(b, keys, key) <==> j in b || j == |keys|
  {
    hide Ranked, Before, Less;
    RankedIndices(b, keys);
    var all, c := keys + [key], Enter(b, keys, key);
    forall i, j | 0 <= i < j < |c| ensures c[i] < |all| && c[j] < |all| && Before(all, c[i], c[j]) {
      EnteredPair(b, keys, key, i, j);
    }
    RankedPairs(c, all);
  }

  lemma RankedIndices(b: seq<nat>, keys: seq<Metrics>)
    requires Ranked(b, keys)
    ensures forall i | 0 <= i < |b| :: b[i] < |keys|
  {}

  lemma RankedPairs(b: seq<nat>, keys: seq<Metrics>)
    requires forall i | 0 <= i < |b| :: b[i] < |keys|
    requires forall i, j | 0 <= i < j < |b| :: Before(keys, b[i], b[j])
    ensures Ranked(b, keys)
  {}

  /** Two places of a list that the newest evaluation has entered. */
  lemma EnteredPair(b: seq<nat>, keys: seq<Metrics>, key: Metrics, i: nat, j: nat)
    requires Ranked(b, keys) && i < j <= |b|
    ensures var c, all := Enter(b, keys, key), keys + [key];
            |c| == |b| + 1 && c[i] < |all| && c[j] < |all| && Before(all, c[i], c[j])
  {
    var p := PlaceOf(b, keys, key);
    if j < p { assert Before(keys, b[i], b[j]); }
    else if j == p { assert !Less(key, keys[b[i]]); }
    else if i < p { assert Before(keys, b[i], b[j - 1]); }
    else if i > p { assert Before(keys, b[i - 1], b[j - 1]); }
    else if p < j - 1 { assert Before(keys, b[p], b[j - 1]); }
  }

  lemma SameRanks(keys: seq<Metrics>, key: Metrics)
    ensures forall i: nat, j: nat | i < |keys| && j < |keys| :: Before(keys + [key], i, j) == Before(keys, i, j)
  {}

  /** A point that is not better than the worst is left out. */
  lemma KeepTop(b: seq<nat>, keys: seq<Metrics>, key: Metrics, limit: nat)
    requires Top(b, keys, limit) && |b| == limit && (limit > 0 ==> !Less(key, keys[b[limit-1]]))
    ensures Top(b, keys + [key], limit)
  {
    SameRanks(keys, key);
    var all, n := keys + [key], |keys|;
    forall i | 0 <= i < |b| ensures Before(all, b[i], n) {
      if i < limit - 1 { assert Before(keys, b[i], b[limit-1]); }
    }
  }

  /** A better point pushes the worst out. */
  lemma ReplaceTop(b: seq<nat>, keys: seq<Metrics>, key: Metrics, limit: nat)
    requires Top(b, keys, limit) && |b| == limit > 0 && Less(key, keys[b[limit-1]])
    ensures Top(Enter(b[..limit-1], keys, key), keys + [key], limit)
  {
    var all, n, rest, last := keys + [key], |keys|, b[..limit-1], b[limit-1];
    EnterRanks(rest, keys, key);
    SameRanks(keys, key);
    var c := Enter(rest, keys, key);
    hide Enter;
    forall j, i | 0 <= j < |all| && j !in c && 0 <= i < |c| ensures Before(all, c[i], j) {
      assert Before(all, n, last);
      if c[i] != n {
        assert c[i] in rest;
        var m :| 0 <= m < |rest| && rest[m] == c[i];
        assert Before(keys, b[m], last);
      }
      if j != last {
        assert j !in b;
        assert Before(keys, last, j);
      }
    }
  }

  /** With room everything is kept. */
  lemma GrowTop(b: seq<nat>, keys: seq<Metrics>, key: Metrics, limit: nat)
    requires Top(b, keys, limit) && |b| < limit
    ensures Top(Enter(b, keys, key), keys + [key], limit)
  {
    EnterRanks(b, keys, key);
  }

  /** Updating the list keeps it the first `limit` evaluations of the stable sort. */
  lemma OfferKeepsTop(b: seq<nat>, keys: seq<Metrics>, key: Metrics, limit: nat)
    requires Top(b, keys, limit)
    ensures Top(OfferOf(b, keys, key, limit), keys + [key], limit)
  {
    hide Enter, Less;
    if |b| < limit {
      GrowTop(b, keys, key, limit);
    } else if |b| > 0 && Less(key, keys[b[|b|-1]]) {
      ReplaceTop(b, keys, key, limit);
    } else {
      KeepTop(b, keys, key, limit);
    }
  }

  /** bestVarsRespMap with the history it summarizes. */
  class BestTracker<T(==)> {
    const numFinalSolutions: nat
    var best: seq<Entry<T>>
    ghost var keys: seq<Metrics>
    ghost var values: seq<T>
    ghost var order: seq<nat>

    /** The map holds exactly the first numFinalSolutions evaluations of the stable sort. */
    ghost predicate Valid()
      reads this
    {
      |keys| == |values| && Top(order, keys, numFinalSolutions) && best == Pick(order, keys, values)
    }

    constructor (limit: nat)
      requires limit >= 1
      ensures Valid() && numFinalSolutions == limit && keys == [] && values == []
    {
      numFinalSolutions, best, keys, values, order := limit, [], [], [], [];
    }

    lemma FirstIsBest()
      requires Valid() && keys != [] && numFinalSolutions >= 1
      ensures best != [] && forall j | 0 <= j < |keys| ::
                best[0].key.violation <= keys[j].violation
                && (best[0].key.violation == keys[j].violation ==> best[0].key.objective <= keys[j].objective)
    {
      forall j | 0 <= j < |keys| { BestFirst(order, keys, numFinalSolutions, j); }
    }

    /** update_best */
    method UpdateBest(key: Metrics, value: T)
      requires Valid() && numFinalSolutions >= 1
      modifies this
      ensures Valid() && keys == old(keys) + [key] && values == old(values) + [value]
      ensures best != [] && forall j | 0 <= j < |keys| ::
                best[0].key.violation <= keys[j].violation
                && (best[0].key.violation == keys[j].violation ==> best[0].key.objective <= keys[j].objective)
    {
      hide Before, Less, Insert, Enter;
      OfferKeepsTop(order, keys, key, numFinalSolutions);
      OfferFollowsKeys(order, keys, values, numFinalSolutions, Entry(key, value));
      if |best| < numFinalSolutions {
        best := Insert(best, Entry(key, value));
      } else if Less(key, best[|best|-1].key) {
        best := Insert(best[..|best|-1], Entry(key, value));
      }
      order := OfferOf(order, keys, key, numFinalSolutions);
      keys, values := keys + [key], values + [value];
      FirstIsBest();
    }
  }

  datatype Final<V, R> = Final(key: Metrics, vars: V, resp: R)

  function Keys<V, R>(points: seq<Final<V, R>>): (r: seq<Metrics>)
    ensures |r| == |points|
  {
    seq(|points|, i requires 0 <= i < |points| => points[i].key)
  }

  function VarsOf<V, R>(points: seq<Final<V, R>>): (r: seq<V>)
    ensures |r| == |points|
  {
    seq(|points|, i requires 0 <= i < |points| => points[i].vars)
  }

  function RespsOf<V, R>(points: seq<Final<V, R>>): (r: seq<R>)
    ensures |r| == |points|
  {
    seq(|points|, i requires 0 <= i < |points| => points[i].resp)
  }

  lemma TakeOne<V, R>(points: seq<Final<V, R>>, k: nat)
    requires k < |points|
    ensures Keys(points[..k + 1]) == Keys(points[..k]) + [points[k].key]
    ensures VarsOf(points[..k + 1]) == VarsOf(points[..k]) + [points[k].vars]
    ensures RespsOf(points[..k + 1]) == RespsOf(points[..k]) + [points[k].resp]
  {}

  /** The i-th variables and the i-th response belong to the i-th point of the stable sort. */
  ghost predicate Lockstep<V, R>(points: seq<Final<V, R>>, limit: nat, bestVars: seq<V>, bestResps: seq<R>) {
    exists b: seq<nat> ::
      && Top(b, Keys(points), limit) && |bestVars| == |b| && |bestResps| == |b|
      && forall i | 0 <= i < |b| ::
           b[i] < |points| && bestVars[i] == points[b[i]].vars && bestResps[i] == points[b[i]].resp
  }

  /** COLIN's post_run keeps variables and responses in two maps, each with its own worst
      entry.  The i-th best variables and the i-th best response still come from the same
      point, and the points are the best ones. */
  method CollectFinal<V, R>(points: seq<Final<V, R>>, limit: nat) returns (bestVars: seq<V>, bestResps: seq<R>)
    requires limit >= 1
    ensures Lockstep(points, limit, bestVars, bestResps)
  {
    hide Top, OfferOf, Insert;
    var vars: seq<Entry<V>> := [];
    var resps: seq<Entry<R>> := [];
    ghost var b: seq<nat> := [];
    assert points[..0] == [];
    NothingYet<V, R>(limit);
    var k := 0;
    while k < |points|
      invariant k <= |points| && Top(b, Keys(points[..k]), limit) && (forall i | 0 <= i < |b| :: b[i] < k)
      invariant vars == Pick(b, Keys(points[..k]), VarsOf(points[..k]))
      invariant resps == Pick(b, Keys(points[..k]), RespsOf(points[..k]))
    {
      var p := points[k];
      TakeOne(points, k);
      OfferKeepsTop(b, Keys(points[..k]), p.key, limit);
      OfferFollowsKeys(b, Keys(points[..k]), VarsOf(points[..k]), limit, Entry(p.key, p.vars));
      OfferFollowsKeys(b, Keys(points[..k]), RespsOf(points[..k]), limit, Entry(p.key, p.resp));
      b := OfferOf(b, Keys(points[..k]), p.key, limit);
      if |vars| < limit {
        vars, resps := Insert(vars, Entry(p.key, p.vars)), Insert(resps, Entry(p.key, p.resp));
      } else {
        if Less(p.key, vars[|vars|-1].key) { vars := Insert(vars[..|vars|-1], Entry(p.key, p.vars)); }
        if Less(p.key, resps[|resps|-1].key) { resps := Insert(resps[..|resps|-1], Entry(p.key, p.resp)); }
      }
      k := k + 1;
    }
    assert points[..k] == points;
    bestVars := seq(|vars|, i requires 0 <= i < |vars| => vars[i].value);
    bestResps := seq(|resps|, i requires 0 <= i < |resps| => resps[i].value);
    assert Top(b, Keys(points), limit);
  }

  /** The entries [first, first + n) of one response written over another. */
  function Overwrite(old_: seq<real>, new_: seq<real>, first: nat, n: nat): seq<real>
    requires first + n <= |old_| && first + n <= |new_|
  {
    old_[..first] + new_[first..first + n] + old_[first + n..]
  }

  /** post_run: collect the best points and copy them to the result arrays, whose responses
      already hold something. */
  method PostRun<V>(points: seq<Final<V, seq<real>>>, limit: nat, held: seq<seq<real>>, recast: bool, first: nat,
      n: nat)
    returns (bestVars: seq<V>, bestResps: seq<seq<real>>, ghost b: seq<nat>)
    requires limit >= 1 && |held| == limit && (forall i | 0 <= i < limit :: first + n <= |held[i]|)
    requires forall k | 0 <= k < |points| :: first + n <= |points[k].resp|
    ensures Top(b, Keys(points), limit) && |bestVars| == |b| && |bestResps| == limit
    ensures forall i | 0 <= i < |b| :: b[i] < |points| && bestVars[i] == points[b[i]].vars
    ensures !recast ==> forall i | 0 <= i < |b| :: bestResps[i] == points[b[i]].resp
    ensures recast ==> forall i | 0 <= i < |b| ::
              && |bestResps[i]| == |held[i]|
              && forall j | 0 <= j < |held[i]| ::
                   bestResps[i][j] == if first <= j < first + n then points[b[i]].resp[j] else held[i][j]
    ensures forall i | |b| <= i < limit :: bestResps[i] == held[i]
  {
    hide Top, Overwrite;
    var resps;
    bestVars, resps := CollectFinal(points, limit);
    b :| Top(b, Keys(points), limit) && |bestVars| == |b| && |resps| == |b|
      && forall i | 0 <= i < |b| ::
           b[i] < |points| && bestVars[i] == points[b[i]].vars && resps[i] == points[b[i]].resp;
    TopSize(b, Keys(points), limit);
    bestResps := held;
    var index := 0;
    while index < |resps|
      invariant index <= |resps| && |bestResps| == limit
      invariant forall i | 0 <= i < index ::
                  bestResps[i] == if recast then Overwrite(held[i], resps[i], first, n) else resps[i]
      invariant forall i | index <= i < limit :: bestResps[i] == held[i]
    {
      if recast {
        var copied := CopyConstraints(held[index], resps[index], first, n);
        bestResps := bestResps[index := copied];
      } else {
        bestResps := bestResps[index := resps[index]];
      }
      index := index + 1;
    }
    forall i | 0 <= i < |b| && recast
      ensures |bestResps[i]| == |held[i]|
      ensures forall j | 0 <= j < |held[i]| ::
                bestResps[i][j] == if first <= j < first + n then points[b[i]].resp[j] else held[i][j]
    {
      OverwriteAt(held[i], resps[i], first, n);
    }
  }

  lemma OverwriteAt(old_: seq<real>, new_: seq<real>, first: nat, n: nat)
    requires first + n <= |old_| && first + n <= |new_|
    ensures var r := Overwrite(old_, new_, first, n);
            |r| == |old_| && forall j | 0 <= j < |old_| :: r[j] == if first <= j < first + n then new_[j] else old_[j]
  {}

  /** The loop that copies constraint values one by one. */
  method CopyConstraints(held: seq<real>, resp: seq<real>, first: nat, n: nat) returns (copied: seq<real>)
    requires first + n <= |held| && first + n <= |resp|
    ensures copied == Overwrite(held, resp, first, n)
  {
    copied := held;
    var i := first;
    while i < first + n
      invariant first <= i <= first + n && copied == Overwrite(held, resp, first, i - first)
    {
      copied := copied[i := resp[i]];
      i := i + 1;
    }
  }

  lemma TopSize(b: seq<nat>, keys: seq<Metrics>, limit: nat)
    requires Top(b, keys, limit)
    ensures |b| <= limit
  {}

  lemma NothingYet<V, R>(limit: nat)
    ensures Top([], Keys<V, R>([]), limit) && Keys<V, R>([]) == [] && VarsOf<V, R>([]) == [] && RespsOf<V, R>([]) == []
  {}

  /** Constraint bounds and targets; they follow the primary functions in the response. */
  datatype Constraints = Constraints(lower: seq<real>, upper: seq<real>, targets: seq<real>)

  predicate WellFormed(c: Constraints) {
    |c.lower| == |c.upper|
  }

  /** How far a value is outside its bounds. */
  function Excess(v: real, lower: real, upper: real): real {
    if v > upper then v - upper else if v < lower then lower - v else 0.0
  }

  /** The squares of the excesses over the first i bounds, and of the deviations from the
      first j targets, added up. */
  ghost function Violation(c: Constraints, vals: seq<real>, offset: nat, i: nat, j: nat): real
    requires WellFormed(c) && |vals| == offset + |c.lower| + |c.targets| && i <= |c.lower| && j <= |c.targets|
    decreases i + j
  {
    if j > 0 then
      var d := vals[offset + |c.lower| + j - 1] - c.targets[j - 1];
      Violation(c, vals, offset, i, j - 1) + Square(d)
    else if i > 0 then
      var e := Excess(vals[offset + i - 1], c.lower[i - 1], c.upper[i - 1]);
      Violation(c, vals, offset, i - 1, 0) + Square(e)
    else 0.0
  }

  /** The violation loops of compute_best_metrics. */
  method ConstraintViolation(c: Constraints, vals: seq<real>, offset: nat) returns (violation: real)
    requires WellFormed(c) && |vals| == offset + |c.lower| + |c.targets|
    ensures violation == Violation(c, vals, offset, |c.lower|, |c.targets|) && violation >= 0.0
    ensures violation == 0.0 <==> Feasible(c, vals, offset)
  {
    violation := 0.0;
    var i, n := 0, |c.lower|;
    while i < n
      invariant i <= n && violation == Violation(c, vals, offset, i, 0)
    {
      var v := vals[i + offset];
      if v > c.upper[i] {
        violation := violation + Square(v - c.upper[i]);
      } else if v < c.lower[i] {
        violation := violation + Square(c.lower[i] - v);
      }
      i := i + 1;
    }
    i := 0;
    while i < |c.targets|
      invariant i <= |c.targets| && violation == Violation(c, vals, offset, n, i)
    {
      var v := vals[i + offset + n];
      var d := v - c.targets[i];
      if d > 0.0 || -d > 0.0 {
        violation := violation + Square(d);
      }
      i := i + 1;
    }
    ViolationIff(c, vals, offset, n, i);
  }

  /** What one constraint contributes. */
  lemma OneConstraint(v: real, lower: real, upper: real, target: real)
    ensures Violation(Constraints([], [], [target]), [v], 0, 0, 1) == (v - target) * (v - target)
    ensures v > upper ==> Violation(Constraints([lower], [upper], []), [v], 0, 1, 0) == (v - upper) * (v - upper)
    ensures v < lower <= upper
            ==> Violation(Constraints([lower], [upper], []), [v], 0, 1, 0) == (lower - v) * (lower - v)
  {
    SquareIsProduct(v - target);
    SquareIsProduct(v - upper);
    SquareIsProduct(lower - v);
    assert Violation(Constraints([], [], [target]), [v], 0, 0, 0) == 0.0;
    assert Violation(Constraints([lower], [upper], []), [v], 0, 0, 0) == 0.0;
  }

  /** Nothing is violated exactly when every constraint is met. */
  lemma {:induction false} ViolationIff(c: Constraints, vals: seq<real>, offset: nat, i: nat, j: nat)
    requires WellFormed(c) && |vals| == offset + |c.lower| + |c.targets| && i <= |c.lower| && j <= |c.targets|
    ensures Violation(c, vals, offset, i, j) >= 0.0
    ensures Violation(c, vals, offset, i, j) == 0.0 <==>
              && (forall k | 0 <= k < i :: MeetsBounds(c, vals, offset, k))
              && (forall k | 0 <= k < j :: MeetsTarget(c, vals, offset, k))
    decreases i + j
  {
    hide Square;
    if j > 0 {
      ViolationIff(c, vals, offset, i, j - 1);
      var d := vals[offset + |c.lower| + j - 1] - c.targets[j - 1];
      assert MeetsTarget(c, vals, offset, j - 1) <==> d == 0.0;
    } else if i > 0 {
      ViolationIff(c, vals, offset, i - 1, 0);
      var e := Excess(vals[offset + i - 1], c.lower[i - 1], c.upper[i - 1]);
      assert MeetsBounds(c, vals, offset, i - 1) <==> e == 0.0;
    }
  }

  predicate MeetsBounds(c: Constraints, vals: seq<real>, offset: nat, k: nat)
    requires |c.lower| == |c.upper| && |vals| == offset + |c.lower| + |c.targets| && k < |c.lower|
  {
    c.lower[k] <= vals[offset + k] <= c.upper[k]
  }

  predicate MeetsTarget(c: Constraints, vals: seq<real>, offset: nat, k: nat)
    requires |vals| == offset + |c.lower| + |c.targets| && k < |c.targets|
  {
    vals[offset + |c.lower| + k] == c.targets[k]
  }

  /** Every constraint is met. */
  ghost predicate Feasible(c: Constraints, vals: seq<real>, offset: nat)
    requires WellFormed(c) && |vals| == offset + |c.lower| + |c.targets|
  {
    && (forall k | 0 <= k < |c.lower| :: MeetsBounds(c, vals, offset, k))
    && (forall k | 0 <= k < |c.targets| :: MeetsTarget(c, vals, offset, k))
  }

  /** std::pow(d, 2) */
  function Square(d: real): (r: real)
    ensures r >= 0.0 && (d != 0.0 ==> r > 0.0) && (d == 0.0 ==> r == 0.0)
  {
    hide Times;
    Product(d, d);
    Times(d, d)
  }

  function Times(a: real, b: real): real { a * b }

  lemma Product(a: real, b: real)
    ensures (a > 0.0 && b > 0.0) || (a < 0.0 && b < 0.0) ==> Times(a, b) > 0.0
    ensures a == 0.0 ==> Times(a, b) == 0.0
  {
    if a < 0.0 && b < 0.0 {
      assert a * b == (-a) * (-b);
    }
  }

  lemma SquareIsProduct(d: real)
    ensures Square(d) == d * d
  {}
}
