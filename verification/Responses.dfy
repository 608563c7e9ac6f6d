/**
  Active sets and response data.  A response holds function values, gradients and
  Hessians by position: entry j of a gradient belongs to the j-th variable of the
  response's own derivative variables vector.
 */
module Responses {
  import opened Common
  type Point = seq<real>

  /** One entry of the active set request vector: bits 1, 2 and 4. */
  datatype Request = Request(value: bool, gradient: bool, hessian: bool)

  datatype ActiveSet = ActiveSet(asv: seq<Request>, dvv: seq<nat>)

  datatype Item = Val(fn: nat) | Grad(fn: nat, j: nat) | Hess(fn: nat, j: nat, k: nat)

  type Data = map<Item, real>

  datatype Response = Response(set_: ActiveSet, data: Data)

  /** What a simulation computes at a point, named by variable id and not by position. */
  datatype Quantity = Fn(fn: nat) | DFn(fn: nat, v: nat) | D2Fn(fn: nat, v: nat, w: nat)

  type Simulation = (Point, Quantity) -> real

  predicate Wants(s: ActiveSet, i: Item) {
    match i
    case Val(f) => f < |s.asv| && s.asv[f].value
    case Grad(f, j) => f < |s.asv| && s.asv[f].gradient && j < |s.dvv|
    case Hess(f, j, k) => f < |s.asv| && s.asv[f].hessian && k <= j < |s.dvv|
  }

  function Wanted(s: ActiveSet): (items: set<Item>)
    ensures forall i :: i in items <==> Wants(s, i)
  {
    var n, m := |s.asv|, |s.dvv|;
    var vals := set f: nat | f < n && s.asv[f].value :: Val(f);
    var grads := set f: nat, j: nat | f < n && j < m && s.asv[f].gradient :: Grad(f, j);
    var hessians := set f: nat, j: nat, k: nat | f < n && j < m && k < m && s.asv[f].hessian && k <= j :: Hess(f, j, k);
    vals + grads + hessians
  }

  function Meaning(s: ActiveSet, i: Item): Quantity
    requires Wants(s, i)
  {
    match i
    case Val(f) => Fn(f)
    case Grad(f, j) => DFn(f, s.dvv[j])
    case Hess(f, j, k) => D2Fn(f, s.dvv[j], s.dvv[k])
  }

  /** derived_map: evaluate the requested quantities at a point. */
  function Evaluate(sim: Simulation, x: Point, s: ActiveSet): Data {
    map i | i in Wanted(s) :: sim(x, Meaning(s, i))
  }

  /** The items that a response to these requests holds, spelled out: a value for every
      value bit, a gradient entry for every gradient bit and derivative variable, a Hessian
      entry for every Hessian bit and pair of derivative variables. */
  ghost predicate HoldsExactly(asv: seq<Request>, dvv: seq<nat>, items: set<Item>) {
    && (forall f: nat :: Val(f) in items <==> f < |asv| && asv[f].value)
    && (forall f: nat, j: nat :: Grad(f, j) in items <==> f < |asv| && asv[f].gradient && j < |dvv|)
    && (forall f: nat, j: nat, k: nat :: Hess(f, j, k) in items <==> f < |asv| && asv[f].hessian && k <= j < |dvv|)
  }

  /** What a response must be: these items, with what the simulation computes at the point
      for the function and the derivative variables in their places. */
  ghost predicate RightData(sim: Simulation, x: Point, s: ActiveSet, data: Data) {
    && HoldsExactly(s.asv, s.dvv, data.Keys)
    && (forall f: nat | Val(f) in data :: data[Val(f)] == sim(x, Fn(f)))
    && (forall f: nat, j: nat | Grad(f, j) in data && j < |s.dvv| :: data[Grad(f, j)] == sim(x, DFn(f, s.dvv[j])))
    && (forall f: nat, j: nat, k: nat | Hess(f, j, k) in data && k <= j < |s.dvv| ::
          data[Hess(f, j, k)] == sim(x, D2Fn(f, s.dvv[j], s.dvv[k])))
  }

  /** An evaluation is such a response, and no other data are. */
  lemma OnlyRightData(sim: Simulation, x: Point, s: ActiveSet, data: Data)
    ensures RightData(sim, x, s, data) <==> data == Evaluate(sim, x, s)
  {
    var all := Evaluate(sim, x, s);
    if RightData(sim, x, s, data) {
      forall i: Item ensures i in data.Keys <==> i in all.Keys {
        match i case Val(f) => case Grad(f, j) => case Hess(f, j, k) =>
      }
      assert data.Keys == all.Keys;
      forall i | i in data ensures data[i] == all[i] {
        match i case Val(f) => case Grad(f, j) => case Hess(f, j, k) =>
      }
    }
  }

  predicate HasDerivatives(s: ActiveSet) {
    exists f :: 0 <= f < |s.asv| && (s.asv[f].gradient || s.asv[f].hessian)
  }

  /** Derivative variables are listed once each. */
  predicate WellFormed(s: ActiveSet) {
    forall i, j | 0 <= i < j < |s.dvv| :: s.dvv[i] != s.dvv[j]
  }

  predicate Implied(search: Request, stored: Request) {
    (search.value ==> stored.value) && (search.gradient ==> stored.gradient) && (search.hessian ==> stored.hessian)
  }

  /** set_compare: does a stored response contain what is searched for? */
  predicate SetCompare(stored: ActiveSet, search: ActiveSet) {
    && |stored.asv| == |search.asv|
    && (forall f | 0 <= f < |search.asv| :: Implied(search.asv[f], stored.asv[f]))
    && (HasDerivatives(search) ==> forall j | 0 <= j < |search.dvv| :: search.dvv[j] in stored.dvv)
  }

  /** Response::update: copy what the own active set requests, position by position.
      None is where the source aborts for want of data. */
  function Update(own: ActiveSet, source: Response): Option<Data> {
    if |source.set_.asv| < |own.asv| then None
    else if HasDerivatives(own) && |source.set_.dvv| < |own.dvv| then None
    else if !(Wanted(own) <= source.data.Keys) then None
    else Some(map i | i in Wanted(own) :: source.data[i])
  }

  /** A stored response can stand in for a searched one when the derivative variables
      it shares are listed in the same places. */
  predicate Aligned(stored: ActiveSet, search: ActiveSet) {
    !HasDerivatives(search)
      || (|search.dvv| <= |stored.dvv| && forall j | 0 <= j < |search.dvv| :: search.dvv[j] == stored.dvv[j])
  }

  lemma {:induction false} NoMoreThan(s: seq<nat>, t: seq<nat>)
    requires (forall i, j | 0 <= i < j < |s| :: s[i] != s[j]) && (forall j | 0 <= j < |s| :: s[j] in t)
    ensures |s| <= |t|
  {
    if s != [] {
      var last := s[|s|-1];
      var k :| 0 <= k < |t| && t[k] == last;
      var rest := t[..k] + t[k + 1..];
      var front := s[..|s|-1];
      forall j | 0 <= j < |front| ensures front[j] in rest {
        var i :| 0 <= i < |t| && t[i] == s[j];
        assert i != k;
        assert rest[if i < k then i else i - 1] == s[j];
      }
      NoMoreThan(front, rest);
    }
  }

  /** A match never aborts the update. */
  lemma MatchUpdates(stored: ActiveSet, search: ActiveSet, data: Data)
    requires SetCompare(stored, search) && WellFormed(search) && data.Keys == Wanted(stored)
    ensures Update(search, Response(stored, data)).Some?
    ensures Update(search, Response(stored, data)).value.Keys == Wanted(search)
  {
    if HasDerivatives(search) {
      NoMoreThan(search.dvv, stored.dvv);
    }
    forall i | i in Wanted(search) ensures i in Wanted(stored) {
      WantedToo(stored, search, i);
    }
  }

  lemma WantedToo(stored: ActiveSet, search: ActiveSet, i: Item)
    requires SetCompare(stored, search) && Wants(search, i)
    requires HasDerivatives(search) ==> |search.dvv| <= |stored.dvv|
    ensures Wants(stored, i)
  {
    assert Implied(search.asv[i.fn], stored.asv[i.fn]);
    if !i.Val? { assert HasDerivatives(search); }
  }

  /** A simulation whose derivatives tell the variables apart. */
  function Distinguish(x: Point, q: Quantity): real {
    match q
    case Fn(f) => 0.0
    case DFn(f, v) => v as real
    case D2Fn(f, v, w) => v as real
  }

  /** Copying what is asked for from a matching response gives just the items asked for,
      each as it is at the same position of the source. */
  lemma UpdateCopies(own: ActiveSet, source: Response)
    requires Update(own, source).Some?
    ensures var data := Update(own, source).value;
            HoldsExactly(own.asv, own.dvv, data.Keys)
              && forall i | i in data :: i in source.data && data[i] == source.data[i]
  {}

  /** Copying from the right response with a matching active set gives the right response,
      whatever the simulation, exactly when the two active sets are aligned. */
  lemma UpdateIsEvaluation(stored: ActiveSet, search: ActiveSet, x: Point)
    requires SetCompare(stored, search) && WellFormed(search)
    ensures Aligned(stored, search) <==>
            forall sim: Simulation, data: Data | RightData(sim, x, stored, data) ::
              var copy := Update(search, Response(stored, data));
              copy.Some? && RightData(sim, x, search, copy.value)
  {
    hide SetCompare, Aligned, WellFormed, Update, Evaluate, RightData;
    if Aligned(stored, search) {
      forall sim: Simulation, data: Data | RightData(sim, x, stored, data)
        ensures var copy := Update(search, Response(stored, data)); copy.Some? && RightData(sim, x, search, copy.value)
      {
        OnlyRightData(sim, x, stored, data);
        OnlyRightData(sim, x, search, Evaluate(sim, x, search));
        AlignedUpdate(sim, stored, search, x);
      }
    } else {
      var data := Evaluate(Distinguish, x, stored);
      OnlyRightData(Distinguish, x, stored, data);
      MisalignedUpdate(stored, search, x);
      var copy := Update(search, Response(stored, data));
      if copy.Some? { OnlyRightData(Distinguish, x, search, copy.value); }
    }
  }

  lemma MisalignedUpdate(stored: ActiveSet, search: ActiveSet, x: Point)
    requires SetCompare(stored, search) && WellFormed(search) && !Aligned(stored, search)
    ensures Update(search, Response(stored, Evaluate(Distinguish, x, stored))) != Some(Evaluate(Distinguish, x, search))
  {
    var data := Evaluate(Distinguish, x, stored);
    MatchUpdates(stored, search, data);
    NoMoreThan(search.dvv, stored.dvv);
    var f :| 0 <= f < |search.asv| && (search.asv[f].gradient || search.asv[f].hessian);
    var j :| 0 <= j < |search.dvv| && search.dvv[j] != stored.dvv[j];
    var i := if search.asv[f].gradient then Grad(f, j) else Hess(f, j, j);
    assert Wants(search, i);
    WantedToo(stored, search, i);
    assert Evaluate(Distinguish, x, search)[i] == search.dvv[j] as real;
    assert data[i] == stored.dvv[j] as real;
  }

  lemma AlignedUpdate(sim: Simulation, stored: ActiveSet, search: ActiveSet, x: Point)
    requires SetCompare(stored, search) && WellFormed(search) && Aligned(stored, search)
    ensures Update(search, Response(stored, Evaluate(sim, x, stored))) == Some(Evaluate(sim, x, search))
  {
    hide SetCompare, Aligned, Wants, Meaning, Wanted, HasDerivatives;
    var data := Evaluate(sim, x, stored);
    MatchUpdates(stored, search, data);
    var u := Update(search, Response(stored, data)).value;
    forall i | i in Wanted(search) ensures u[i] == Evaluate(sim, x, search)[i] {
      SameMeaning(stored, search, i);
    }
    assert u == Evaluate(sim, x, search);
  }

  lemma SameMeaning(stored: ActiveSet, search: ActiveSet, i: Item)
    requires SetCompare(stored, search) && Aligned(stored, search) && Wants(search, i)
    ensures Wants(stored, i) && Meaning(stored, i) == Meaning(search, i)
  {
    if !i.Val? { assert HasDerivatives(search); }
    WantedToo(stored, search, i);
  }

  /** A record for variables (1, 2) returns the derivative for variable 1 to a request for
      variable 2 alone. */
  lemma PermutedDerivatives()
    ensures var stored := ActiveSet([Request(false, true, false)], [1, 2]);
            var search := ActiveSet([Request(false, true, false)], [2]);
            var copied := Update(search, Response(stored, Evaluate(Distinguish, [], stored)));
            var item := Grad(0, 0);
            && SetCompare(stored, search)
            && item in Evaluate(Distinguish, [], search) && Evaluate(Distinguish, [], search)[item] == 2.0
            && copied.Some? && item in copied.value && copied.value[item] == 1.0
  {
    var stored := ActiveSet([Request(false, true, false)], [1, 2]);
    var search := ActiveSet([Request(false, true, false)], [2]);
    var item := Grad(0, 0);
    assert search.dvv[0] == stored.dvv[1];
    assert Wants(search, item) && Wants(stored, item);
    MatchUpdates(stored, search, Evaluate(Distinguish, [], stored));
    assert Evaluate(Distinguish, [], stored)[item] == 1.0;
  }
}
