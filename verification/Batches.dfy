/**
  Batches of evaluations: all are synchronized together, and the combined response map is
  cut into one piece per batch by position.
 */
module Batches {

  /** A map keyed by evaluation id, in the order of its iterators. */
  datatype Keyed<T> = Keyed(id: nat, value: T)

  function Ids<T>(m: seq<Keyed<T>>): (ids: seq<nat>)
    ensures |ids| == |m| && forall i | 0 <= i < |m| :: ids[i] == m[i].id
  {
    seq(|m|, i requires 0 <= i < |m| => m[i].id)
  }

  ghost predicate Increasing(s: seq<nat>) {
    forall i, j | 0 <= i < j < |s| :: s[i] < s[j]
  }

  function Last(s: seq<nat>): nat
    requires s != []
  {
    s[|s|-1]
  }

  /** Nonempty batches, each in increasing ids, one after the other. */
  ghost predicate InOrder(batches: seq<seq<nat>>) {
    && (forall b | 0 <= b < |batches| :: batches[b] != [] && Increasing(batches[b]))
    && (forall b, c | 0 <= b < c < |batches| ::
        batches[b] != [] && batches[c] != [] && Last(batches[b]) < batches[c][0])
  }

  ghost predicate Submitted(batches: seq<seq<nat>>, id: nat) {
    exists b :: 0 <= b < |batches| && id in batches[b]
  }

  /** Between the first and the last id of the batches only batch evaluations came back. */
  ghost predicate NothingForeign(full: seq<nat>, batches: seq<seq<nat>>)
    requires InOrder(batches)
  {
    |batches| > 0 ==>
      forall i | 0 <= i < |full| && batches[0][0] <= full[i] <= Last(batches[|batches|-1]) ::
          Submitted(batches, full[i])
  }

  lemma {:induction false} IncreasingUnique(s: seq<nat>, t: seq<nat>)
    requires Increasing(s) && Increasing(t) && (forall x :: x in s <==> x in t)
    ensures s == t
  {
    hide Increasing;
    assert |s| > 0 ==> s[0] in s;
    assert |t| > 0 ==> t[0] in t;
    if s != [] && t != [] {
      var a, b := s[|s|-1], t[|t|-1];
      Greatest(s, b);
      Greatest(t, a);
      var s', t' := s[..|s|-1], t[..|t|-1];
      Front(s, a);
      Front(t, b);
      forall x ensures x in s' <==> x in t' {
        Front(s, x);
        Front(t, x);
      }
      IncreasingUnique(s', t');
      assert s == s' + [a] && t == t' + [b];
    }
  }

  lemma Greatest(s: seq<nat>, x: nat)
    requires Increasing(s) && s != []
    ensures s[|s|-1] in s && (x in s ==> x <= s[|s|-1])
  {}

  lemma Front(s: seq<nat>, x: nat)
    requires Increasing(s) && s != []
    ensures Increasing(s[..|s|-1]) && (x in s[..|s|-1] <==> x in s && x != s[|s|-1])
  {
    if x in s && x != s[|s|-1] {
      var i :| 0 <= i < |s| && s[i] == x;
      assert s[..|s|-1][i] == x;
    }
  }

  /** find on the response map */
  method Find<T>(full: seq<Keyed<T>>, id: nat) returns (p: nat)
    requires id in Ids(full)
    ensures p < |full| && full[p].id == id
  {
    p := 0;
    assert exists i :: 0 <= i < |full| && full[i].id == id by {
      var i :| 0 <= i < |full| && Ids(full)[i] == id;
      assert full[i].id == id;
    }
    while full[p].id != id
      invariant p < |full| && exists i :: p <= i < |full| && full[i].id == id
      decreases |full| - p
    {
      p := p + 1;
    }
  }

  /** The range [lo, hi) of the response map that is copied for a batch. */
  datatype Span = Span(lo: nat, hi: nat)

  /** A range ends with its batch's last id. */
  predicate Ends(full: seq<nat>, batch: seq<nat>, s: Span) {
    batch != [] && s.lo < s.hi <= |full| && full[s.hi - 1] == Last(batch)
  }

  /** The ranges lie one behind the other from the first id of the first batch. */
  ghost predicate Cut(full: seq<nat>, batches: seq<seq<nat>>, spans: seq<Span>) {
    && |spans| <= |batches|
    && (forall b | 0 <= b < |spans| :: Ends(full, batches[b], spans[b]))
    && (forall b | 0 < b < |spans| :: spans[b].lo == spans[b-1].hi)
    && (|spans| > 0 ==> full[spans[0].lo] == batches[0][0])
  }

  ghost predicate AllReturned(full: seq<nat>, batches: seq<seq<nat>>) {
    forall b, i | 0 <= b < |batches| && 0 <= i < |batches[b]| :: batches[b][i] in full
  }

  lemma InBatch(batch: seq<nat>, x: nat)
    requires Increasing(batch) && x in batch
    ensures batch[0] <= x <= Last(batch)
  {
    var i :| 0 <= i < |batch| && batch[i] == x;
  }

  /** Every id of a batch is in its range. */
  lemma BatchInPiece(full: seq<nat>, batches: seq<seq<nat>>, spans: seq<Span>, b: nat, x: nat)
    requires Increasing(full) && InOrder(batches) && Cut(full, batches, spans) && AllReturned(full, batches)
    requires b < |spans| && Ends(full, batches[b], spans[b]) && x in batches[b]
    ensures x in full[spans[b].lo..spans[b].hi]
  {
    hide Increasing, InOrder, Cut, AllReturned;
    Parts(full, batches, spans, b);
    ReturnedId(full, batches, b, x);
    var p :| 0 <= p < |full| && full[p] == x;
    InBatch(batches[b], x);
    Positions(full, p, spans[b].hi - 1);
    if b > 0 {
      Parts(full, batches, spans, b - 1);
      FollowsOn(full, batches, spans, b);
      Positions(full, spans[b].lo - 1, p);
    } else {
      FirstSpan(full, batches, spans);
      Positions(full, spans[0].lo, p);
    }
    assert full[spans[b].lo..spans[b].hi][p - spans[b].lo] == x;
  }

  lemma ReturnedId(full: seq<nat>, batches: seq<seq<nat>>, b: nat, x: nat)
    requires AllReturned(full, batches) && b < |batches| && x in batches[b]
    ensures x in full
  {
    var i :| 0 <= i < |batches[b]| && batches[b][i] == x;
  }

  lemma Positions(full: seq<nat>, p: nat, q: nat)
    requires Increasing(full) && p < |full| && q < |full|
    ensures full[p] <= full[q] <==> p <= q
  {}

  lemma FollowsOn(full: seq<nat>, batches: seq<seq<nat>>, spans: seq<Span>, b: nat)
    requires InOrder(batches) && Cut(full, batches, spans) && 0 < b < |spans|
    ensures spans[b].lo == spans[b-1].hi && batches[b] != [] && batches[b-1] != [] && Last(batches[b-1]) < batches[b][0]
  {}

  lemma FirstSpan(full: seq<nat>, batches: seq<seq<nat>>, spans: seq<Span>)
    requires Cut(full, batches, spans) && spans != []
    ensures batches[0] != [] && spans[0].lo < |full| && full[spans[0].lo] == batches[0][0]
  {
    assert Ends(full, batches[0], spans[0]);
  }

  lemma {:induction false} SpansGrow(full: seq<nat>, batches: seq<seq<nat>>, spans: seq<Span>, b: nat, c: nat)
    requires Cut(full, batches, spans) && b < c < |spans|
    ensures spans[b].hi <= spans[c].lo
    decreases c
  {
    assert Ends(full, batches[c-1], spans[c-1]);
    if b < c - 1 { SpansGrow(full, batches, spans, b, c - 1); }
  }

  /** An id in a range lies after all earlier batches and not after its own. */
  lemma PieceBounds(full: seq<nat>, batches: seq<seq<nat>>, spans: seq<Span>, b: nat, p: nat)
    requires Increasing(full) && Cut(full, batches, spans) && b < |spans| && spans[b].lo <= p < spans[b].hi <= |full|
    ensures batches[b] != [] && full[p] <= Last(batches[b])
    ensures batches[0] != [] && batches[0][0] <= full[p]
    ensures forall c | 0 <= c < b :: batches[c] != [] && Last(batches[c]) < full[p]
  {
    assert Ends(full, batches[b], spans[b]) && Ends(full, batches[0], spans[0]);
    if b > 0 { SpansGrow(full, batches, spans, 0, b); }
    forall c | 0 <= c < b ensures batches[c] != [] && Last(batches[c]) < full[p] {
      assert Ends(full, batches[c], spans[c]);
      SpansGrow(full, batches, spans, c, b);
    }
  }

  lemma OrderedBatches(batches: seq<seq<nat>>, b: nat, c: nat, x: nat)
    requires InOrder(batches) && b < |batches| && c < |batches| && x in batches[c]
    ensures c > b ==> Last(batches[b]) < x
    ensures x <= Last(batches[c]) && (c < b ==> Last(batches[c]) < Last(batches[b]))
  {
    InBatch(batches[c], x);
    InBatch(batches[b], batches[b][0]);
  }

  /** With nothing foreign, an id in a range belongs to its batch. */
  lemma OwnPiece(full: seq<nat>, batches: seq<seq<nat>>, spans: seq<Span>, b: nat, p: nat)
    requires Increasing(full) && InOrder(batches) && Cut(full, batches, spans) && NothingForeign(full, batches)
    requires b < |spans| && spans[b].lo <= p < spans[b].hi <= |full|
    ensures full[p] in batches[b]
  {
    hide Increasing, InOrder, Cut;
    Parts(full, batches, spans, b);
    PieceBounds(full, batches, spans, b, p);
    var n := |batches| - 1;
    OrderedBatches(batches, n, b, batches[b][0]);
    assert Submitted(batches, full[p]);
    var c :| 0 <= c < |batches| && full[p] in batches[c];
    OrderedBatches(batches, b, c, full[p]);
  }

  ghost predicate Exact(full: seq<nat>, batch: seq<nat>, s: Span) {
    s.lo <= s.hi <= |full| && full[s.lo..s.hi] == batch
  }

  /** The range copy gives each batch exactly its own evaluations if and only if nothing
      foreign came back in between. */
  lemma PiecesMatchIff(full: seq<nat>, batches: seq<seq<nat>>, spans: seq<Span>)
    requires Increasing(full) && InOrder(batches) && Cut(full, batches, spans) && AllReturned(full, batches)
    requires |spans| == |batches|
    ensures NothingForeign(full, batches) <==> forall b | 0 <= b < |batches| :: Exact(full, batches[b], spans[b])
  {
    if NothingForeign(full, batches) {
      forall b | 0 <= b < |batches| ensures Exact(full, batches[b], spans[b]) {
        ExactPiece(full, batches, spans, b);
      }
    } else {
      var p :| 0 <= p < |full| && batches[0][0] <= full[p] <= Last(batches[|batches|-1])
        && !Submitted(batches, full[p]);
      var b := PieceOf(full, batches, spans, p, |batches|);
      HoldsAll(full, batches[b], spans[b], p);
    }
  }

  lemma HoldsAll(full: seq<nat>, batch: seq<nat>, s: Span, p: nat)
    requires s.lo <= p < s.hi <= |full|
    ensures Exact(full, batch, s) ==> full[p] in batch
  {
    if Exact(full, batch, s) {
      assert full[s.lo..s.hi][p - s.lo] == full[p];
    }
  }

  lemma ExactPiece(full: seq<nat>, batches: seq<seq<nat>>, spans: seq<Span>, b: nat)
    requires Increasing(full) && InOrder(batches) && Cut(full, batches, spans) && AllReturned(full, batches)
    requires NothingForeign(full, batches) && b < |spans| <= |batches|
    ensures Exact(full, batches[b], spans[b])
  {
    hide InOrder, Cut, AllReturned, NothingForeign;
    assert Ends(full, batches[b], spans[b]) && Increasing(batches[b]) by { Parts(full, batches, spans, b); }
    var piece := full[spans[b].lo..spans[b].hi];
    forall x ensures x in piece <==> x in batches[b] {
      if x in batches[b] { BatchInPiece(full, batches, spans, b, x); }
      if x in piece {
        var i :| 0 <= i < |piece| && piece[i] == x;
        OwnPiece(full, batches, spans, b, spans[b].lo + i);
      }
    }
    IncreasingUnique(piece, batches[b]);
  }

  lemma Parts(full: seq<nat>, batches: seq<seq<nat>>, spans: seq<Span>, b: nat)
    requires InOrder(batches) && Cut(full, batches, spans) && b < |spans|
    ensures b < |batches| && Ends(full, batches[b], spans[b]) && Increasing(batches[b])
  {}

  lemma PieceOf(full: seq<nat>, batches: seq<seq<nat>>, spans: seq<Span>, p: nat, n: nat) returns (b: nat)
    requires Increasing(full) && Cut(full, batches, spans) && 0 < n <= |spans| && p < |full|
    requires batches[0] != [] && batches[0][0] <= full[p] && batches[n-1] != [] && full[p] <= Last(batches[n-1])
    ensures b < n && spans[b].lo <= p < spans[b].hi <= |full|
  {
    assert Ends(full, batches[n-1], spans[n-1]);
    assert p < spans[n-1].hi;
    if n == 1 || spans[n-1].lo <= p {
      b := n - 1;
    } else {
      assert Ends(full, batches[n-2], spans[n-2]);
      b := PieceOf(full, batches, spans, p, n - 1);
    }
  }

  /** The pieces are consecutive ranges of the full map, from the first id of the first
      batch, each ending with its batch's last id. */
  ghost predicate Ranges<T>(full: seq<Keyed<T>>, batches: seq<seq<nat>>, pieces: seq<seq<Keyed<T>>>) {
    && |pieces| == |batches|
    && exists spans: seq<Span> ::
         && Cut(Ids(full), batches, spans) && |spans| == |batches|
         && forall b | 0 <= b < |spans| ::
              spans[b].lo <= spans[b].hi <= |full| && pieces[b] == full[spans[b].lo..spans[b].hi]
  }

  /** synchronize_batches */
  method SynchronizeBatches<T>(full: seq<Keyed<T>>, batches: seq<seq<nat>>) returns (pieces: seq<seq<Keyed<T>>>)
    requires Increasing(Ids(full)) && InOrder(batches) && AllReturned(Ids(full), batches)
    ensures |pieces| == |batches|
    ensures NothingForeign(Ids(full), batches) <==> forall b | 0 <= b < |batches| :: Ids(pieces[b]) == batches[b]
    ensures Ranges(full, batches, pieces)
  {
    hide Cut, Increasing, InOrder, AllReturned, NothingForeign, Ends, Exact;
    pieces := [];
    if batches == [] {
      NoBatches(Ids(full), batches);
      NoCut(Ids(full), batches);
      assert Cut(Ids(full), batches, []);
      return;
    }
    ghost var ids := Ids(full);
    BatchEnds(ids, batches, 0);
    var first: nat := Find(full, batches[0][0]);
    ghost var spans: seq<Span> := [];
    NoCut(ids, batches);
    var b := 0;
    while b < |batches|
      invariant b <= |batches| && |pieces| == b && |spans| == b && 0 <= first <= |full| && Cut(ids, batches, spans)
      invariant if b == 0 then first < |full| && ids[first] == batches[0][0] else first == spans[b-1].hi
      invariant forall c | 0 <= c < b ::
                  spans[c].lo <= spans[c].hi <= |full| && pieces[c] == full[spans[c].lo..spans[c].hi]
    {
      var batch := batches[b];
      BatchEnds(ids, batches, b);
      var last := Find(full, batch[|batch|-1]);
      NextCut(ids, batches, spans, first, last);
      pieces := pieces + [full[first..last + 1]];
      spans := spans + [Span(first, last + 1)];
      first, b := last + 1, b + 1;
    }
    PiecesMatchIff(ids, batches, spans);
    assert Cut(ids, batches, spans);
    forall c | 0 <= c < |batches| ensures Ids(pieces[c]) == batches[c] <==> Exact(ids, batches[c], spans[c]) {
      CopiedIds(full, batches[c], spans[c]);
    }
  }

  lemma CopiedIds<T>(full: seq<Keyed<T>>, batch: seq<nat>, s: Span)
    requires s.lo <= s.hi <= |full|
    ensures Ids(full[s.lo..s.hi]) == batch <==> Exact(Ids(full), batch, s)
  {
    assert Ids(full[s.lo..s.hi]) == Ids(full)[s.lo..s.hi];
  }

  lemma NoBatches(full: seq<nat>, batches: seq<seq<nat>>)
    requires InOrder(batches) && batches == []
    ensures NothingForeign(full, batches)
  {}

  lemma NoCut(full: seq<nat>, batches: seq<seq<nat>>)
    ensures Cut(full, batches, [])
  {}

  lemma BatchEnds(full: seq<nat>, batches: seq<seq<nat>>, b: nat)
    requires InOrder(batches) && AllReturned(full, batches) && b < |batches|
    ensures batches[b] != [] && batches[b][0] in full && Last(batches[b]) in full
  {}

  lemma NextCut(full: seq<nat>, batches: seq<seq<nat>>, spans: seq<Span>, first: nat, last: nat)
    requires Increasing(full) && InOrder(batches) && Cut(full, batches, spans) && |spans| < |batches| && last < |full|
    requires batches[|spans|] != [] && full[last] == Last(batches[|spans|])
    requires if spans == [] then first < |full| && batches[0] != [] && full[first] == batches[0][0]
             else first == spans[|spans|-1].hi
    ensures first <= last && Cut(full, batches, spans + [Span(first, last + 1)])
  {
    var b := |spans|;
    InBatch(batches[b], Last(batches[b]));
    if b > 0 {
      assert Ends(full, batches[b-1], spans[b-1]);
      assert Last(batches[b-1]) < batches[b][0];
    }
  }

  /** log_response_map walks the samples and the responses of a batch side by side; with
      equal keys every sample meets its own response. */
  method LogResponseMap<S, T>(samples: seq<Keyed<S>>, responses: seq<Keyed<T>>)
    returns (logged: seq<(Keyed<S>, Keyed<T>)>)
    ensures |logged| == (if |samples| <= |responses| then |samples| else |responses|)
    ensures forall i | 0 <= i < |logged| :: logged[i] == (samples[i], responses[i])
    ensures Ids(samples) == Ids(responses)
            ==> |logged| == |samples| && forall i | 0 <= i < |logged| :: logged[i].0.id == logged[i].1.id
  {
    logged := [];
    var i := 0;
    while i < |samples| && i < |responses|
      invariant i <= |samples| && i <= |responses| && |logged| == i
      invariant forall k | 0 <= k < i :: logged[k] == (samples[k], responses[k])
    {
      logged := logged + [(samples[i], responses[i])];
      i := i + 1;
    }
    assert Ids(samples) == Ids(responses) ==> |Ids(samples)| == |Ids(responses)|;
    assert Ids(samples) == Ids(responses) ==> forall k | 0 <= k < i :: Ids(samples)[k] == Ids(responses)[k];
  }

  function IdLists<S>(batches: seq<seq<Keyed<S>>>): (lists: seq<seq<nat>>)
    ensures |lists| == |batches| && forall b | 0 <= b < |batches| :: lists[b] == Ids(batches[b])
  {
    seq(|batches|, b requires 0 <= b < |batches| => Ids(batches[b]))
  }

  /** The ids of consecutive evaluations. */
  function From(first: nat, n: nat): (ids: seq<nat>)
    ensures |ids| == n && forall i | 0 <= i < n :: ids[i] == first + i
  {
    seq(n, i requires 0 <= i < n => first + i)
  }

  /** Submitting a further batch keeps the order, and keeps the batches undisturbed if the
      evaluations issued last were those of the last batch. */
  lemma NextBatch(outstanding: seq<nat>, batches: seq<seq<nat>>, last: nat, n: nat)
    requires n > 0 && Increasing(outstanding) && InOrder(batches) && AllReturned(outstanding, batches)
    requires forall i | 0 <= i < |outstanding| :: outstanding[i] <= last
    ensures Increasing(outstanding + From(last + 1, n)) && InOrder(batches + [From(last + 1, n)])
    ensures AllReturned(outstanding + From(last + 1, n), batches + [From(last + 1, n)])
  {
    hide AllReturned;
    NextReturned(outstanding, batches, From(last + 1, n));
    forall b | 0 <= b < |batches| ensures batches[b] != [] && Last(batches[b]) <= last {
      ReturnedId(outstanding, batches, b, batches[b][|batches[b]|-1]);
    }
  }

  lemma NextReturned(outstanding: seq<nat>, batches: seq<seq<nat>>, batch: seq<nat>)
    requires AllReturned(outstanding, batches)
    ensures AllReturned(outstanding + batch, batches + [batch])
  {
    var all, more := outstanding + batch, batches + [batch];
    forall b, i | 0 <= b < |more| && 0 <= i < |more[b]| ensures more[b][i] in all {
      if b < |batches| {
        assert batches[b][i] in outstanding;
      } else {
        assert all[|outstanding| + i] == more[b][i];
      }
    }
  }

  /** Nothing was issued after the last batch. */
  ghost predicate UpToLast(outstanding: seq<nat>, batches: seq<seq<nat>>) {
    batches == []
    || (batches[|batches|-1] != [] && forall i | 0 <= i < |outstanding| :: outstanding[i] <= Last(batches[|batches|-1]))
  }

  lemma BatchesBelow(batches: seq<seq<nat>>, id: nat)
    requires InOrder(batches) && Submitted(batches, id)
    ensures batches != [] && batches[0][0] <= id <= Last(batches[|batches|-1])
  {
    var b :| 0 <= b < |batches| && id in batches[b];
    InBatch(batches[b], id);
    InBatch(batches[0], batches[0][0]);
    OrderedBatches(batches, |batches| - 1, b, id);
  }

  /** A further batch leaves the pieces clean if and only if they were clean and nobody else
      issued an evaluation after the last batch. */
  lemma NextBatchForeign(outstanding: seq<nat>, batches: seq<seq<nat>>, last: nat, n: nat)
    requires n > 0 && InOrder(batches) && InOrder(batches + [From(last + 1, n)])
    requires forall i | 0 <= i < |outstanding| :: outstanding[i] <= last
    ensures NothingForeign(outstanding + From(last + 1, n), batches + [From(last + 1, n)])
            <==> NothingForeign(outstanding, batches) && UpToLast(outstanding, batches)
  {
    var all, more := outstanding + From(last + 1, n), batches + [From(last + 1, n)];
    if NothingForeign(outstanding, batches) && UpToLast(outstanding, batches) {
      forall i | 0 <= i < |all| && more[0][0] <= all[i] <= Last(more[|more|-1]) ensures Submitted(more, all[i]) {
        if i >= |outstanding| {
          assert more[|batches|][i - |outstanding|] == all[i];
        } else {
          assert Submitted(batches, outstanding[i]);
          var b :| 0 <= b < |batches| && outstanding[i] in batches[b];
          assert more[b] == batches[b];
        }
      }
    }
    if NothingForeign(all, more) && batches != [] {
      forall i | 0 <= i < |outstanding| && batches[0][0] <= outstanding[i] ensures Submitted(batches, outstanding[i]) {
        assert all[i] == outstanding[i];
        StillOld(all, batches, last, n, i);
      }
      forall i | 0 <= i < |outstanding| ensures outstanding[i] <= Last(batches[|batches|-1]) {
        if batches[0][0] <= outstanding[i] {
          BatchesBelow(batches, outstanding[i]);
        } else {
          InBatch(batches[0], batches[0][0]);
          assert Submitted(batches, batches[0][0]);
          BatchesBelow(batches, batches[0][0]);
        }
      }
    }
  }

  lemma StillOld(all: seq<nat>, batches: seq<seq<nat>>, last: nat, n: nat, i: nat)
    requires n > 0 && batches != [] && InOrder(batches) && InOrder(batches + [From(last + 1, n)])
    requires NothingForeign(all, batches + [From(last + 1, n)]) && i < |all| && batches[0][0] <= all[i] <= last
    ensures Submitted(batches, all[i])
  {
    var more := batches + [From(last + 1, n)];
    assert Submitted(more, all[i]);
    var b :| 0 <= b < |more| && all[i] in more[b];
    assert b < |batches| && more[b] == batches[b];
  }

  /** Someone else's evaluation after the last batch is not between the batches. */
  lemma OtherForeign(outstanding: seq<nat>, batches: seq<seq<nat>>, id: nat)
    requires InOrder(batches) && forall b | 0 <= b < |batches| :: batches[b] != [] && Last(batches[b]) < id
    ensures NothingForeign(outstanding + [id], batches) <==> NothingForeign(outstanding, batches)
  {
    if batches != [] {
      var more := outstanding + [id];
      assert more[|outstanding|] == id;
      if NothingForeign(more, batches) {
        forall i | 0 <= i < |outstanding| && batches[0][0] <= outstanding[i] <= Last(batches[|batches|-1])
          ensures Submitted(batches, outstanding[i])
        {
          assert more[i] == outstanding[i];
        }
      }
    }
  }

  lemma OtherIncreasing(outstanding: seq<nat>, id: nat)
    requires Increasing(outstanding) && forall i | 0 <= i < |outstanding| :: outstanding[i] < id
    ensures Increasing(outstanding + [id])
  {}

  lemma OtherKeeps(outstanding: seq<nat>, batches: seq<seq<nat>>, id: nat)
    requires AllReturned(outstanding, batches)
    ensures AllReturned(outstanding + [id], batches)
  {}

  lemma IssuedBefore(outstanding: seq<nat>, batches: seq<seq<nat>>, last: nat)
    requires InOrder(batches) && AllReturned(outstanding, batches)
    requires forall i | 0 <= i < |outstanding| :: outstanding[i] <= last
    ensures forall b | 0 <= b < |batches| :: batches[b] != [] && Last(batches[b]) <= last
  {
    forall b | 0 <= b < |batches| ensures batches[b] != [] && Last(batches[b]) <= last {
      assert batches[b][|batches[b]|-1] in outstanding;
    }
  }

  /** What the log of one batch pairs. */
  ghost predicate Zipped<S, T>(samples: seq<Keyed<S>>, piece: seq<Keyed<T>>, logged: seq<(Keyed<S>, Keyed<T>)>) {
    && |logged| == (if |samples| <= |piece| then |samples| else |piece|)
    && forall i | 0 <= i < |logged| :: logged[i] == (samples[i], piece[i])
  }

  /** Every sample of a batch is logged, with the response of its own evaluation. */
  ghost predicate OwnResponses<S, T>(samples: seq<Keyed<S>>, logged: seq<(Keyed<S>, Keyed<T>)>) {
    |logged| == |samples| && forall i | 0 <= i < |logged| :: logged[i].0.id == logged[i].1.id
  }

  /** A piece that ends with its batch's last id pairs every sample with its own response
      exactly when it is the batch's own piece. */
  lemma OwnIff<S, T>(samples: seq<Keyed<S>>, piece: seq<Keyed<T>>, logged: seq<(Keyed<S>, Keyed<T>)>)
    requires Zipped(samples, piece, logged) && samples != [] && piece != [] && Increasing(Ids(piece))
    requires Increasing(Ids(samples))
    requires piece[|piece|-1].id == samples[|samples|-1].id
    ensures OwnResponses(samples, logged) <==> Ids(piece) == Ids(samples)
  {
    if OwnResponses(samples, logged) {
      var n := |samples|;
      assert logged[n-1].0.id == logged[n-1].1.id;
      assert Ids(piece)[n-1] == Ids(piece)[|piece|-1];
      assert n == |piece|;
      forall i | 0 <= i < n ensures Ids(piece)[i] == Ids(samples)[i] {
        assert logged[i].0.id == logged[i].1.id;
      }
    }
    if Ids(piece) == Ids(samples) {
      assert |Ids(piece)| == |Ids(samples)|;
      forall i | 0 <= i < |logged| ensures logged[i].0.id == logged[i].1.id {
        assert Ids(piece)[i] == Ids(samples)[i];
      }
    }
  }

  /** The batches submitted since the last clearing and the evaluations the model has in
      progress. */
  class BatchAnalyzer<S> {
    var evaluationId: nat
    var batches: seq<seq<Keyed<S>>>   // batchSamplesMap, in batch id order
    var outstanding: seq<nat>         // the model's evaluations in progress
    ghost var collected: bool         // synchronized and not yet cleared

    ghost predicate Valid()
      reads this
    {
      && Increasing(outstanding) && (forall i | 0 <= i < |outstanding| :: outstanding[i] <= evaluationId)
      && InOrder(IdLists(batches)) && (!collected ==> AllReturned(outstanding, IdLists(batches)))
    }

    /** No evaluation by anyone else lies between the batches. */
    ghost predicate Clean()
      requires Valid()
      reads this
    {
      NothingForeign(outstanding, IdLists(batches))
    }

    constructor ()
      ensures Valid() && batches == [] && outstanding == [] && evaluationId == 0 && !collected
    {
      evaluationId, batches, outstanding, collected := 0, [], [], false;
    }

    /** An evaluation by someone else. */
    method EvaluateOther()
      requires Valid()
      modifies this
      ensures Valid() && collected == old(collected) && batches == old(batches) && evaluationId == old(evaluationId) + 1
      ensures outstanding == old(outstanding) + [evaluationId] && (!collected ==> Clean() == old(Clean()))
    {
      hide Increasing, InOrder, AllReturned, NothingForeign;
      ghost var lists := IdLists(batches);
      OtherIncreasing(outstanding, evaluationId + 1);
      if !collected {
        IssuedBefore(outstanding, lists, evaluationId);
        OtherForeign(outstanding, lists, evaluationId + 1);
        OtherKeeps(outstanding, lists, evaluationId + 1);
      }
      evaluationId := evaluationId + 1;
      outstanding := outstanding + [evaluationId];
    }

    /** evaluate_batch: each sample is filed under the id of its own evaluation.  The batches
        stay clean exactly when nobody else issued an evaluation since the last one. */
    method EvaluateBatch(samples: seq<S>)
      requires Valid() && !collected && samples != []
      modifies this
      ensures Valid() && !collected && evaluationId == old(evaluationId) + |samples|
      ensures batches == old(batches) + [Filed(old(evaluationId) + 1, samples)]
      ensures outstanding == old(outstanding) + From(old(evaluationId) + 1, |samples|)
      ensures Clean() == (old(Clean()) && UpToLast(old(outstanding), IdLists(old(batches))))
    {
      hide Increasing, InOrder, AllReturned, NothingForeign, UpToLast;
      var batch: seq<Keyed<S>> := [];
      ghost var first := evaluationId;
      var i := 0;
      while i < |samples|
        invariant i <= |samples| && evaluationId == first + i && |batch| == i
        invariant batches == old(batches) && collected == old(collected)
        invariant outstanding == old(outstanding) + From(first + 1, i)
        invariant forall k | 0 <= k < i :: batch[k] == Keyed(first + 1 + k, samples[k])
      {
        evaluationId := evaluationId + 1;
        outstanding := outstanding + [evaluationId];
        batch := batch + [Keyed(evaluationId, samples[i])];
        i := i + 1;
      }
      assert batch == Filed(first + 1, samples) && Ids(batch) == From(first + 1, i);
      batches := batches + [batch];
      ghost var before := IdLists(old(batches));
      assert IdLists(batches) == before + [From(first + 1, i)];
      NextBatch(old(outstanding), before, first, i);
      NextBatchForeign(old(outstanding), before, first, i);
    }

    /** synchronize_batches with the logging of each batch: everything in progress comes
        back, and every sample is logged with the response of its own evaluation if and only
        if the batches are clean. */
    method Synchronize<T>(full: seq<Keyed<T>>)
      returns (logged: seq<seq<(Keyed<S>, Keyed<T>)>>, ghost pieces: seq<seq<Keyed<T>>>)
      requires Valid() && !collected && Ids(full) == outstanding
      modifies `outstanding, `collected
      ensures Valid() && collected && outstanding == []
      ensures |logged| == |batches| && Ranges(full, IdLists(batches), pieces)
      ensures forall b | 0 <= b < |batches| :: Zipped(batches[b], pieces[b], logged[b])
      ensures old(Clean()) <==> forall b | 0 <= b < |batches| :: OwnResponses(batches[b], logged[b])
    {
      hide Increasing, InOrder, AllReturned, NothingForeign, Zipped, OwnResponses, Ranges;
      var parts := SynchronizeBatches(full, IdLists(batches));
      pieces := parts;
      logged := [];
      var b := 0;
      while b < |batches|
        invariant b <= |batches| && |logged| == b
        invariant forall c | 0 <= c < b :: Zipped(batches[c], pieces[c], logged[c])
      {
        var pairs := LogResponseMap(batches[b], parts[b]);
        assert Zipped(batches[b], pieces[b], pairs) by { ZippedLog(batches[b], pieces[b], pairs); }
        logged := logged + [pairs];
        b := b + 1;
      }
      LoggedOwnIff(full, batches, pieces, logged);
      assert forall c | 0 <= c < |batches| :: IdLists(batches)[c] == Ids(batches[c]);
      NothingOutstanding();
      outstanding, collected := [], true;
    }

    /** clear_batches: the next round starts afresh. */
    method Clear()
      requires Valid()
      modifies `batches, `collected
      ensures Valid() && batches == [] && !collected && Clean()
    {
      batches, collected := [], false;
    }
  }

  lemma NothingOutstanding()
    ensures Increasing([])
  {}

  lemma ZippedLog<S, T>(samples: seq<Keyed<S>>, piece: seq<Keyed<T>>, logged: seq<(Keyed<S>, Keyed<T>)>)
    requires |logged| == (if |samples| <= |piece| then |samples| else |piece|)
    requires forall i | 0 <= i < |logged| :: logged[i] == (samples[i], piece[i])
    ensures Zipped(samples, piece, logged)
  {}

  /** A batch under consecutive ids. */
  function Filed<S>(first: nat, samples: seq<S>): (batch: seq<Keyed<S>>)
    ensures |batch| == |samples| && forall i | 0 <= i < |samples| :: batch[i] == Keyed(first + i, samples[i])
  {
    seq(|samples|, i requires 0 <= i < |samples| => Keyed(first + i, samples[i]))
  }

  lemma LoggedOwnIff<S, T>(full: seq<Keyed<T>>, batches: seq<seq<Keyed<S>>>, pieces: seq<seq<Keyed<T>>>,
      logged: seq<seq<(Keyed<S>, Keyed<T>)>>)
    requires Increasing(Ids(full)) && InOrder(IdLists(batches)) && Ranges(full, IdLists(batches), pieces)
    requires |logged| == |batches| == |pieces|
    requires forall b | 0 <= b < |batches| :: Zipped(batches[b], pieces[b], logged[b])
    ensures (forall b | 0 <= b < |batches| :: Ids(pieces[b]) == Ids(batches[b]))
            <==> forall b | 0 <= b < |batches| :: OwnResponses(batches[b], logged[b])
  {
    hide Zipped, OwnResponses, Ranges, Increasing, InOrder;
    forall b | 0 <= b < |batches| ensures OwnResponses(batches[b], logged[b]) <==> Ids(pieces[b]) == Ids(batches[b]) {
      PieceFacts(full, IdLists(batches), pieces, b);
      OwnIff(batches[b], pieces[b], logged[b]);
    }
  }

  lemma PieceFacts<T>(full: seq<Keyed<T>>, batches: seq<seq<nat>>, pieces: seq<seq<Keyed<T>>>, b: nat)
    requires Increasing(Ids(full)) && InOrder(batches) && Ranges(full, batches, pieces) && b < |batches|
    ensures pieces[b] != [] && Increasing(Ids(pieces[b])) && batches[b] != [] && Increasing(batches[b])
    ensures pieces[b][|pieces[b]|-1].id == batches[b][|batches[b]|-1]
  {
    hide Increasing;
    var spans: seq<Span> :| Cut(Ids(full), batches, spans) && |spans| == |batches|
      && forall b | 0 <= b < |spans| ::
           spans[b].lo <= spans[b].hi <= |full| && pieces[b] == full[spans[b].lo..spans[b].hi];
    PieceEnd(full, batches, b, spans[b]);
  }

  lemma PieceEnd<T>(full: seq<Keyed<T>>, batches: seq<seq<nat>>, b: nat, span: Span)
    requires Increasing(Ids(full)) && InOrder(batches) && b < |batches| && Ends(Ids(full), batches[b], span)
    requires span.lo <= span.hi <= |full|
    ensures var piece := full[span.lo..span.hi];
            && piece != [] && Increasing(Ids(piece)) && batches[b] != [] && Increasing(batches[b])
            && piece[|piece|-1].id == batches[b][|batches[b]|-1]
  {
    Slice(full, span.lo, span.hi);
  }

  lemma Slice<T>(full: seq<Keyed<T>>, lo: nat, hi: nat)
    requires Increasing(Ids(full)) && lo < hi <= |full|
    ensures Increasing(Ids(full[lo..hi])) && full[lo..hi][hi - lo - 1].id == Ids(full)[hi - 1]
  {
    var ids, part := Ids(full), Ids(full[lo..hi]);
    forall i, j | 0 <= i < j < |part| ensures part[i] < part[j] {
      assert part[i] == ids[lo + i] && part[j] == ids[lo + j];
    }
  }

  /** The smallest round that goes wrong: one evaluation by someone else between two
      batches. */
  lemma ForeignBetween()
    ensures var full, batches := [1, 2, 3], [[1], [3]];
            Increasing(full) && InOrder(batches) && AllReturned(full, batches) && !NothingForeign(full, batches)
  {
    var full, batches := [1, 2, 3], [[1], [3]];
    assert full[0] == 1 && full[2] == 3;
    assert !Submitted(batches, full[1]);
  }

  /** In that round the sample of evaluation 3 is logged with the response of evaluation 2. */
  method DisturbedRound<S, T>(x: S, y: S, r: seq<T>) returns (logged: seq<seq<(Keyed<S>, Keyed<T>)>>)
    requires |r| == 3
    ensures |logged| == 2 && logged[0] == [(Keyed(1, x), Keyed(1, r[0]))]
    ensures logged[1] == [(Keyed(3, y), Keyed(2, r[1]))]
  {
    hide BatchAnalyzer.Valid, BatchAnalyzer.Clean, Ranges, UpToLast, Zipped, OwnResponses;
    var a := new BatchAnalyzer<S>();
    a.EvaluateBatch([x]);
    assert a.batches == [Filed(1, [x])] && a.outstanding == From(1, 1);
    a.EvaluateOther();
    a.EvaluateBatch([y]);
    assert a.batches == [Filed(1, [x]), Filed(3, [y])];
    assert a.outstanding == From(1, 1) + [2] + From(3, 1);
    ghost var batches := a.batches;
    var full := Filed(1, r);
    DisturbedIds(r);
    TwoLists(x, y);
    ghost var pieces;
    logged, pieces := a.Synchronize(full);
    DisturbedLog(x, y, r, pieces, logged);
  }

  lemma DisturbedLog<S, T>(x: S, y: S, r: seq<T>, pieces: seq<seq<Keyed<T>>>, logged: seq<seq<(Keyed<S>, Keyed<T>)>>)
    requires |r| == 3 && Ranges(Filed(1, r), [[1], [3]], pieces) && |logged| == 2
    requires Zipped(Filed(1, [x]), pieces[0], logged[0]) && Zipped(Filed(3, [y]), pieces[1], logged[1])
    ensures logged[0] == [(Keyed(1, x), Keyed(1, r[0]))] && logged[1] == [(Keyed(3, y), Keyed(2, r[1]))]
  {
    hide Ranges;
    assert Ids(Filed(1, r)) == [1, 2, 3];
    DisturbedPieces(Filed(1, r), pieces);
  }

  lemma DisturbedIds<T>(r: seq<T>)
    requires |r| == 3
    ensures Ids(Filed(1, r)) == From(1, 1) + [2] + From(3, 1)
  {}

  lemma TwoLists<S>(x: S, y: S)
    ensures IdLists([Filed(1, [x]), Filed(3, [y])]) == [[1], [3]]
  {
    assert Ids(Filed(1, [x])) == [1] && Ids(Filed(3, [y])) == [3];
  }

  lemma DisturbedPieces<T>(full: seq<Keyed<T>>, pieces: seq<seq<Keyed<T>>>)
    requires Ids(full) == [1, 2, 3] && Ranges(full, [[1], [3]], pieces)
    ensures |full| == 3 && |pieces| == 2 && pieces[0] == full[0..1] && pieces[1] == full[1..3]
  {
    var batches := [[1], [3]];
    var ids := Ids(full);
    var spans: seq<Span> :| Cut(ids, batches, spans) && |spans| == 2
      && forall b | 0 <= b < |spans| ::
           spans[b].lo <= spans[b].hi <= |full| && pieces[b] == full[spans[b].lo..spans[b].hi];
    assert Ends(ids, batches[0], spans[0]) && Ends(ids, batches[1], spans[1]);
    assert ids[0] == 1 && ids[1] == 2 && ids[2] == 3;
    assert spans[0].hi == 1 && spans[0].lo == 0 && spans[1].hi == 3 && spans[1].lo == 1;
  }
}
