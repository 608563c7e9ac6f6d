/**
  Surrogate data: points are appended to the data of each function and model key, and the
  number appended is recorded so that the append can be popped again.
 */
module PopCounts {
  import opened Common

  /** The data of one function under one model key. */
  datatype Cell = Cell(fn: nat, key: nat)

  /** Number of functions, the approximated ones, and how response sets map to keys. */
  datatype Config = Config(numFns: nat, indices: seq<nat>, numKeys: nat, recursive: bool)

  predicate WellFormed(c: Config) {
    && c.numFns > 0
    && (forall k | 0 <= k < |c.indices| :: c.indices[k] < c.numFns)
    && (forall k, l | 0 <= k < l < |c.indices| :: c.indices[k] < c.indices[l])
  }

  /** qoi_set_to_key_index; None is where the source aborts. */
  function KeyIndex(c: Config, q: nat): Option<nat> {
    if c.numKeys > 1 then
      if c.recursive then (if q == 0 then Some(c.numKeys - 1) else None) else Some(q)
    else if q == 0 then Some(0) else None
  }

  /** No position of a request vector of this length aborts. */
  predicate Supported(c: Config, len: nat) {
    len <= c.numFns || (c.numKeys > 1 && !c.recursive)
  }

  /** The response set stored under a key. */
  function SetOf(c: Config, key: nat): nat {
    if c.numKeys > 1 && c.recursive then (if key == c.numKeys - 1 then 0 else key + 1) else key
  }

  /** The position in a request vector that feeds a cell. */
  function Position(c: Config, cell: Cell): nat {
    cell.fn + SetOf(c, cell.key) * c.numFns
  }

  lemma KeyInverse(c: Config, q: nat)
    requires KeyIndex(c, q).Some?
    ensures forall key :: SetOf(c, key) == q <==> key == KeyIndex(c, q).value
  {}

  /** The entry of a vector that feeds a cell, case by case: with several keys, key q is fed
      by response set q; in a recursive emulation the last key is fed by the first set, and
      each other key by the set after it, which no vector reaches; with one key only the first
      set counts. */
  lemma WhichEntry(c: Config, fn: nat, key: nat)
    ensures c.numKeys > 1 && !c.recursive ==> Position(c, Cell(fn, key)) == fn + key * c.numFns
    ensures c.numKeys > 1 && c.recursive ==>
              Position(c, Cell(fn, key)) == if key == c.numKeys - 1 then fn else fn + (key + 1) * c.numFns
    ensures c.numKeys <= 1 ==> Position(c, Cell(fn, key)) == fn + key * c.numFns
  {
    assert 0 * c.numFns == 0;
  }

  /** The key of a response set, or the abort. */
  lemma WhichKey(c: Config, q: nat)
    ensures c.numKeys > 1 && !c.recursive ==> KeyIndex(c, q) == Some(q)
    ensures c.numKeys > 1 && c.recursive ==> KeyIndex(c, q) == if q == 0 then Some(c.numKeys - 1) else None
    ensures c.numKeys <= 1 ==> KeyIndex(c, q) == if q == 0 then Some(0) else None
  {}

  /** Whether a request vector asks for the data of a cell. */
  predicate Asks(c: Config, asv: seq<bool>, cell: Cell) {
    cell.fn in c.indices && Position(c, cell) < |asv| && asv[Position(c, cell)]
  }

  predicate Feeds(c: Config, len: nat, cell: Cell) {
    cell.fn in c.indices && Position(c, cell) < len
  }

  function At(m: map<Cell, seq<nat>>, cell: Cell): seq<nat> {
    if cell in m then m[cell] else []
  }

  /** The cells the strided loops have visited: k whole functions and q response sets of
      the next. */
  ghost predicate Visited(c: Config, cell: Cell, k: nat, q: nat) {
    (exists l :: 0 <= l < k && l < |c.indices| && cell.fn == c.indices[l])
      || (k < |c.indices| && cell.fn == c.indices[k] && SetOf(c, cell.key) < q)
  }

  lemma VisitNext(c: Config, k: nat, q: nat, cell: Cell)
    requires WellFormed(c) && k < |c.indices| && KeyIndex(c, q).Some?
    ensures Visited(c, cell, k, q + 1) <==> Visited(c, cell, k, q) || cell == Cell(c.indices[k], KeyIndex(c, q).value)
    ensures !Visited(c, Cell(c.indices[k], KeyIndex(c, q).value), k, q)
    ensures Position(c, Cell(c.indices[k], KeyIndex(c, q).value)) == c.indices[k] + q * c.numFns
  {
    KeyInverse(c, q);
    assert SetOf(c, KeyIndex(c, q).value) == q;
  }

  lemma VisitFunction(c: Config, k: nat, q: nat, len: nat, cell: Cell)
    requires WellFormed(c) && k < |c.indices| && c.indices[k] + q * c.numFns >= len
    ensures Position(c, cell) < len ==> (Visited(c, cell, k, q) <==> Visited(c, cell, k + 1, 0))
  {
    MulMonotone(q, SetOf(c, cell.key), c.numFns);
    if cell.fn == c.indices[k] && Position(c, cell) < len {
      assert SetOf(c, cell.key) < q;
    }
  }

  lemma AllVisited(c: Config, cell: Cell)
    ensures Visited(c, cell, |c.indices|, 0) <==> cell.fn in c.indices
  {}

  lemma SupportedSet(c: Config, k: nat, q: nat, len: nat)
    requires WellFormed(c) && k < |c.indices| && Supported(c, len) && c.indices[k] + q * c.numFns < len
    ensures KeyIndex(c, q).Some?
  {
    MulMonotone(1, q, c.numFns);
  }

  /** No nonzero entry of a record aborts: a response set is mapped to a key only where the
      record has data. */
  ghost predicate RecordSupported(c: Config, asv: seq<bool>) {
    forall k, q: nat | 0 <= k < |c.indices| && KeyIndex(c, q).None? ::
      c.indices[k] + q * c.numFns < |asv| ==> !asv[c.indices[k] + q * c.numFns]
  }

  /** Records of a supported length have no such entry. */
  lemma SupportedRecord(c: Config, asv: seq<bool>)
    requires WellFormed(c) && Supported(c, |asv|)
    ensures RecordSupported(c, asv)
  {
    forall k, q: nat | 0 <= k < |c.indices| && KeyIndex(c, q).None?
      ensures c.indices[k] + q * c.numFns < |asv| ==> !asv[c.indices[k] + q * c.numFns]
    {
      if c.indices[k] + q * c.numFns < |asv| { SupportedSet(c, k, q, |asv|); }
    }
  }

  /** What the strided loops have appended so far: one more entry in each visited cell
      that gets one. */
  ghost predicate Extended(c: Config, m: map<Cell, seq<nat>>, m': map<Cell, seq<nat>>, more: Cell -> seq<nat>, k: nat,
      q: nat)
  {
    forall cell :: At(m', cell) == At(m, cell) + (if Visited(c, cell, k, q) then more(cell) else [])
  }

  lemma ExtendedStarts(c: Config, m: map<Cell, seq<nat>>, more: Cell -> seq<nat>)
    ensures Extended(c, m, m, more, 0, 0)
  {
    forall cell ensures At(m, cell) == At(m, cell) + (if Visited(c, cell, 0, 0) then more(cell) else []) {
      assert !Visited(c, cell, 0, 0);
    }
  }

  /** Visiting one cell. */
  lemma ExtendedNext(c: Config, m: map<Cell, seq<nat>>, m': map<Cell, seq<nat>>, more: Cell -> seq<nat>, k: nat,
      q: nat, cell: Cell, e: seq<nat>)
    requires WellFormed(c) && k < |c.indices| && KeyIndex(c, q).Some?
    requires cell == Cell(c.indices[k], KeyIndex(c, q).value)
    requires Extended(c, m, m', more, k, q) && e == more(cell)
    ensures e != [] ==> Extended(c, m, m'[cell := At(m', cell) + e], more, k, q + 1)
    ensures e == [] ==> Extended(c, m, m', more, k, q + 1)
    ensures Position(c, cell) == c.indices[k] + q * c.numFns
  {
    hide Visited;
    var after := if e != [] then m'[cell := At(m', cell) + e] else m';
    VisitNext(c, k, q, cell);
    forall d ensures At(after, d) == At(m, d) + (if Visited(c, d, k, q + 1) then more(d) else []) {
      VisitNext(c, k, q, d);
      assert At(m', d) == At(m, d) + (if Visited(c, d, k, q) then more(d) else []);
    }
  }

  /** Passing a position that adds nothing. */
  lemma ExtendedSkip(c: Config, m: map<Cell, seq<nat>>, m': map<Cell, seq<nat>>, more: Cell -> seq<nat>, k: nat, q: nat)
    requires WellFormed(c) && k < |c.indices| && Extended(c, m, m', more, k, q)
    requires forall cell: Cell :: cell.fn == c.indices[k] && SetOf(c, cell.key) == q ==> more(cell) == []
    ensures Extended(c, m, m', more, k, q + 1)
  {
    forall d ensures At(m', d) == At(m, d) + (if Visited(c, d, k, q + 1) then more(d) else []) {
      assert At(m', d) == At(m, d) + (if Visited(c, d, k, q) then more(d) else []);
      assert Visited(c, d, k, q + 1) <==> Visited(c, d, k, q) || (d.fn == c.indices[k] && SetOf(c, d.key) == q);
    }
  }

  /** Moving on to the next function: what is beyond the vector gets nothing. */
  lemma ExtendedFunction(c: Config, m: map<Cell, seq<nat>>, m': map<Cell, seq<nat>>, more: Cell -> seq<nat>, k: nat,
      q: nat, len: nat)
    requires WellFormed(c) && k < |c.indices| && c.indices[k] + q * c.numFns >= len
    requires Extended(c, m, m', more, k, q) && forall cell :: Position(c, cell) >= len ==> more(cell) == []
    ensures Extended(c, m, m', more, k + 1, 0)
  {
    hide Visited;
    forall d ensures At(m', d) == At(m, d) + (if Visited(c, d, k + 1, 0) then more(d) else []) {
      VisitFunction(c, k, q, len, d);
      assert At(m', d) == At(m, d) + (if Visited(c, d, k, q) then more(d) else []);
    }
  }

  lemma ExtendedEnds(c: Config, m: map<Cell, seq<nat>>, m': map<Cell, seq<nat>>, more: Cell -> seq<nat>)
    requires Extended(c, m, m', more, |c.indices|, 0) && forall cell: Cell :: cell.fn !in c.indices ==> more(cell) == []
    ensures forall cell :: At(m', cell) == At(m, cell) + more(cell)
  {
    hide Visited;
    forall d ensures At(m', d) == At(m, d) + more(d) {
      AllVisited(c, d);
      assert At(m', d) == At(m, d) + (if Visited(c, d, |c.indices|, 0) then more(d) else []);
    }
  }

  lemma RecordKey(c: Config, asv: seq<bool>, k: nat, q: nat)
    requires RecordSupported(c, asv) && k < |c.indices|
    requires c.indices[k] + q * c.numFns < |asv| && asv[c.indices[k] + q * c.numFns]
    ensures KeyIndex(c, q).Some? && Asks(c, asv, Cell(c.indices[k], KeyIndex(c, q).value))
  {
    SetOfKey(c, q);
  }

  lemma SetOfKey(c: Config, q: nat)
    ensures KeyIndex(c, q).Some? ==> SetOf(c, KeyIndex(c, q).value) == q
  {}

  lemma NextStride(q: nat, n: nat)
    ensures (q + 1) * n == q * n + n
  {}

  /** mixed_add and shallow_add: append a point wherever its record has data. */
  method AddPoint(c: Config, data: map<Cell, seq<nat>>, asv: seq<bool>, id: nat) returns (data': map<Cell, seq<nat>>)
    requires WellFormed(c) && RecordSupported(c, asv)
    ensures forall cell :: At(data', cell) == At(data, cell) + (if Asks(c, asv, cell) then [id] else [])
    ensures c.numKeys > 1 && !c.recursive ==> forall fn: nat, key: nat ::
              At(data', Cell(fn, key)) == At(data, Cell(fn, key))
              + (if fn in c.indices && fn + key * c.numFns < |asv| && asv[fn + key * c.numFns] then [id] else [])
  {
    hide Extended, At, RecordSupported;
    ghost var more := (cell: Cell) => if Asks(c, asv, cell) then [id] else [];
    data' := data;
    var k := 0;
    ExtendedStarts(c, data, more);
    while k < |c.indices|
      invariant k <= |c.indices| && Extended(c, data, data', more, k, 0)
    {
      var fn := c.indices[k];
      var i, q := fn, 0;
      while i < |asv|
        invariant i == fn + q * c.numFns && Extended(c, data, data', more, k, q)
        decreases |asv| - i
      {
        if asv[i] {
          RecordKey(c, asv, k, q);
          var cell := Cell(fn, KeyIndex(c, q).value);
          ExtendedNext(c, data, data', more, k, q, cell, [id]);
          data' := data'[cell := At(data', cell) + [id]];
        } else {
          ExtendedSkip(c, data, data', more, k, q);
        }
        NextStride(q, c.numFns);
        i, q := i + c.numFns, q + 1;
      }
      ExtendedFunction(c, data, data', more, k, q, |asv|);
      k := k + 1;
    }
    ExtendedEnds(c, data, data', more);
  }

  /** How many of the responses ask for position i. */
  function Column(asvs: seq<seq<bool>>, i: nat): nat {
    if asvs == [] then 0
    else Column(asvs[..|asvs|-1], i) + (if i < |asvs[|asvs|-1]| && asvs[|asvs|-1][i] then 1 else 0)
  }

  /** The inner counting loop of update_pop_counts. */
  method CountColumn(asvs: seq<seq<bool>>, i: nat) returns (count: nat)
    requires forall j | 0 <= j < |asvs| :: i < |asvs[j]|
    ensures count == Column(asvs, i)
  {
    count := 0;
    var j := 0;
    while j < |asvs|
      invariant j <= |asvs| && count == Column(asvs[..j], i)
    {
      if asvs[j][i] { count := count + 1; }
      assert asvs[..j + 1][..j] == asvs[..j];
      j := j + 1;
    }
    assert asvs[..j] == asvs;
  }

  /** update_pop_counts: push one count for every cell the request vectors cover.  The
      length of the first vector is used for all. */
  method UpdatePopCounts(c: Config, counts: map<Cell, seq<nat>>, asvs: seq<seq<bool>>)
    returns (counts': map<Cell, seq<nat>>)
    requires WellFormed(c) && asvs != [] && Supported(c, |asvs[0]|)
    requires forall j | 0 <= j < |asvs| :: |asvs[j]| == |asvs[0]|
    ensures forall cell ::
              At(counts', cell)
              == At(counts, cell) + (if Feeds(c, |asvs[0]|, cell) then [Column(asvs, Position(c, cell))] else [])
  {
    hide Column, Extended, At, Supported;
    var len := |asvs[0]|;
    ghost var more := (cell: Cell) => if Feeds(c, len, cell) then [Column(asvs, Position(c, cell))] else [];
    counts' := counts;
    var k := 0;
    ExtendedStarts(c, counts, more);
    while k < |c.indices|
      invariant k <= |c.indices| && Extended(c, counts, counts', more, k, 0)
    {
      var fn := c.indices[k];
      var i, q := fn, 0;
      while i < len
        invariant i == fn + q * c.numFns && Extended(c, counts, counts', more, k, q)
        decreases len - i
      {
        SupportedSet(c, k, q, len);
        var cell := Cell(fn, KeyIndex(c, q).value);
        ExtendedNext(c, counts, counts', more, k, q, cell, more(cell));
        var count := CountColumn(asvs, i);
        counts' := counts'[cell := At(counts', cell) + [count]];
        NextStride(q, c.numFns);
        i, q := i + c.numFns, q + 1;
      }
      ExtendedFunction(c, counts, counts', more, k, q, len);
      k := k + 1;
    }
    ExtendedEnds(c, counts, counts', more);
  }

  /** A point to append: what its response asked for, and what the record that is added
      for it holds; they differ when a cached record is used. */
  datatype Added = Added(id: nat, asked: seq<bool>, stored: seq<bool>)

  function Asked(points: seq<Added>): seq<seq<bool>> {
    seq(|points|, i requires 0 <= i < |points| => points[i].asked)
  }

  /** The points that reach a cell. */
  function Reaching(c: Config, points: seq<Added>, cell: Cell): seq<nat> {
    if points == [] then []
    else
      var p := points[|points|-1];
      Reaching(c, points[..|points|-1], cell) + (if Asks(c, p.stored, cell) then [p.id] else [])
  }

  /** The points reach a cell in the order they were added. */
  lemma {:induction false} ReachingInOrder(c: Config, first: seq<Added>, then_: seq<Added>, cell: Cell)
    ensures Reaching(c, first + then_, cell) == Reaching(c, first, cell) + Reaching(c, then_, cell)
    ensures |then_| == 1 ==> Reaching(c, then_, cell) == if Asks(c, then_[0].stored, cell) then [then_[0].id] else []
  {
    hide Asks;
    if then_ == [] {
      assert first + then_ == first;
    } else {
      var front := then_[..|then_|-1];
      assert (first + then_)[..|first + then_|-1] == first + front;
      ReachingInOrder(c, first, front, cell);
    }
  }

  /** The loop over the points in append_approximation. */
  method AddPoints(c: Config, data: map<Cell, seq<nat>>, points: seq<Added>) returns (data': map<Cell, seq<nat>>)
    requires WellFormed(c) && forall j | 0 <= j < |points| :: RecordSupported(c, points[j].stored)
    ensures forall cell :: At(data', cell) == At(data, cell) + Reaching(c, points, cell)
  {
    hide At, Asks, WellFormed, RecordSupported;
    data' := data;
    var j := 0;
    while j < |points|
      invariant j <= |points|
      invariant forall cell :: At(data', cell) == At(data, cell) + Reaching(c, points[..j], cell)
    {
      data' := AddPoint(c, data', points[j].stored, points[j].id);
      assert points[..j + 1][..j] == points[..j];
      j := j + 1;
    }
    assert points[..j] == points;
  }

  /** The number an append pushes for a cell. */
  function Pushed(c: Config, points: seq<Added>, cell: Cell): nat {
    Column(Asked(points), Position(c, cell))
  }

  ghost predicate Appended(c: Config, points: seq<Added>, len: nat, data: map<Cell, seq<nat>>,
      counts: map<Cell, seq<nat>>, data': map<Cell, seq<nat>>, counts': map<Cell, seq<nat>>)
  {
    && (forall cell :: At(data', cell) == At(data, cell) + Reaching(c, points, cell))
    && (forall cell ::
          At(counts', cell) == At(counts, cell) + (if Feeds(c, len, cell) then [Pushed(c, points, cell)] else []))
  }

  /** No cell is asked to give up more than it has. */
  ghost predicate Poppable(c: Config, len: nat, data: map<Cell, seq<nat>>, counts: map<Cell, seq<nat>>) {
    forall cell :: CellPoppable(c, len, data, counts, cell)
  }

  ghost predicate Popped(c: Config, len: nat, data: map<Cell, seq<nat>>, counts: map<Cell, seq<nat>>,
      data': map<Cell, seq<nat>>, counts': map<Cell, seq<nat>>)
  {
    && (forall cell :: At(data', cell) == if Feeds(c, len, cell) then Dropped(At(data, cell), Top(counts, cell))
      else At(data, cell))
    && (forall cell :: At(counts', cell) == if Feeds(c, len, cell) then Dropped(At(counts, cell), 1)
      else At(counts, cell))
  }

  class Surfaces {
    const config: Config
    var data: map<Cell, seq<nat>>
    var counts: map<Cell, seq<nat>>

    constructor (config: Config)
      ensures this.config == config && data == map[] && counts == map[]
    {
      this.config, data, counts := config, map[], map[];
    }

    /** append_approximation */
    method Append(points: seq<Added>)
      requires WellFormed(config) && points != []
      requires forall j | 0 <= j < |points| :: RecordSupported(config, points[j].stored)
      requires Supported(config, |points[0].asked|)
      requires forall j | 0 <= j < |points| :: |points[j].asked| == |points[0].asked|
      modifies this
      ensures Appended(config, points, |points[0].asked|, old(data), old(counts), data, counts)
    {
      data := AddPoints(config, data, points);
      counts := UpdatePopCounts(config, counts, Asked(points));
    }

    /** pop_approximation: drop the counted points from every cell the last append covered;
        a cell that has fewer loses them all. */
    method Pop(len: nat)
      modifies this
      ensures Popped(config, len, old(data), old(counts), data, counts)
    {
      hide Feeds, Dropped;
      NothingToDrop();
      data := map cell | cell in counts.Keys + data.Keys ::
        if Feeds(config, len, cell) then Dropped(At(data, cell), Top(counts, cell)) else At(data, cell);
      counts := map cell | cell in counts ::
        if Feeds(config, len, cell) then Dropped(At(counts, cell), 1) else At(counts, cell);
    }
  }

  function Top(counts: map<Cell, seq<nat>>, cell: Cell): nat {
    var s := At(counts, cell);
    if s == [] then 0 else s[|s|-1]
  }

  function Dropped(s: seq<nat>, n: nat): seq<nat> {
    if n <= |s| then s[..|s| - n] else []
  }

  lemma NothingToDrop()
    ensures forall n: nat :: Dropped([], n) == []
  {}

  lemma RestoredIff(before: seq<nat>, added: seq<nat>, count: nat)
    ensures count <= |before + added| && Dropped(before + added, count) == before <==> count == |added|
  {
    if count == |added| {
      assert (before + added)[..|before|] == before;
    }
  }

  /** As many records reach each cell as the pop will remove. */
  ghost predicate Balanced(c: Config, points: seq<Added>, len: nat) {
    forall cell :: |Reaching(c, points, cell)| == if Feeds(c, len, cell) then Pushed(c, points, cell) else 0
  }

  ghost predicate CellPoppable(c: Config, len: nat, data: map<Cell, seq<nat>>, counts: map<Cell, seq<nat>>, cell: Cell)
  {
    Feeds(c, len, cell) ==> At(counts, cell) != [] && Top(counts, cell) <= |At(data, cell)|
  }

  /** A balanced append can be popped. */
  lemma BalancedPoppable(c: Config, points: seq<Added>, len: nat, data: map<Cell, seq<nat>>,
      counts: map<Cell, seq<nat>>, data': map<Cell, seq<nat>>, counts': map<Cell, seq<nat>>)
    requires Appended(c, points, len, data, counts, data', counts') && Balanced(c, points, len)
    ensures Poppable(c, len, data', counts')
  {
    hide At, Feeds, Reaching, Pushed;
    forall cell ensures CellPoppable(c, len, data', counts', cell) {
      if Feeds(c, len, cell) { TopOf(counts', cell, At(counts, cell), Pushed(c, points, cell)); }
    }
  }

  /** Appending and popping always restores the counts.  No cell is asked for more than it
      has and the data is as before if and only if the records added for the points balance
      what the points asked for. */
  lemma AppendPopRestores(c: Config, points: seq<Added>, len: nat, data: map<Cell, seq<nat>>,
      counts: map<Cell, seq<nat>>, data': map<Cell, seq<nat>>, counts': map<Cell, seq<nat>>,
      data'': map<Cell, seq<nat>>, counts'': map<Cell, seq<nat>>)
    requires Appended(c, points, len, data, counts, data', counts') && Popped(c, len, data', counts', data'', counts'')
    ensures forall cell :: At(counts'', cell) == At(counts, cell)
    ensures (Poppable(c, len, data', counts') && forall cell :: At(data'', cell) == At(data, cell))
            <==> Balanced(c, points, len)
  {
    hide At, Feeds, Reaching, Pushed, Dropped, CellPoppable;
    forall cell ensures At(counts'', cell) == At(counts, cell)
      ensures CellPoppable(c, len, data', counts', cell) && At(data'', cell) == At(data, cell)
              <==> |Reaching(c, points, cell)| == if Feeds(c, len, cell) then Pushed(c, points, cell) else 0
    {
      CellRestored(c, points, len, data, counts, data', counts', data'', counts'', cell);
    }
  }

  lemma CellRestored(c: Config, points: seq<Added>, len: nat, data: map<Cell, seq<nat>>, counts: map<Cell, seq<nat>>,
      data': map<Cell, seq<nat>>, counts': map<Cell, seq<nat>>, data'': map<Cell, seq<nat>>,
      counts'': map<Cell, seq<nat>>, cell: Cell)
    requires Appended(c, points, len, data, counts, data', counts') && Popped(c, len, data', counts', data'', counts'')
    ensures At(counts'', cell) == At(counts, cell)
    ensures CellPoppable(c, len, data', counts', cell) && At(data'', cell) == At(data, cell)
            <==> |Reaching(c, points, cell)| == if Feeds(c, len, cell) then Pushed(c, points, cell) else 0
  {
    hide At, Feeds, Reaching, Pushed, Dropped;
    if Feeds(c, len, cell) {
      TopOf(counts', cell, At(counts, cell), Pushed(c, points, cell));
      RestoredIff(At(counts, cell), [Pushed(c, points, cell)], 1);
      RestoredIff(At(data, cell), Reaching(c, points, cell), Pushed(c, points, cell));
    }
  }

  const OneSurface := Config(1, [0], 1, false)

  /** A record with data its response did not ask for, and one without data it asked for,
      do not balance. */
  lemma Unbalanced()
    ensures !Balanced(OneSurface, [Added(1, [false], [true])], 1)
    ensures !Balanced(OneSurface, [Added(1, [true], [false])], 1)
  {
    AppendedOne(1, false, true);
    AppendedOne(1, true, false);
  }

  /** A point that stays: it was added from its record although the response did not ask for
      it, and the pop does not count it. */
  method LeavesAPoint() returns (s: Surfaces)
    ensures At(s.data, Cell(0, 0)) == [1]
  {
    s := new Surfaces(OneSurface);
    var points := [Added(1, [false], [true])];
    AppendedOne(1, false, true);
    s.Append(points);
    s.Pop(1);
  }

  /** A point that is lost: point 1 was there before the append of point 2, whose record had
      no data although its response asked for it. */
  method LosesAPoint() returns (s: Surfaces)
    ensures At(s.data, Cell(0, 0)) == []
  {
    s := new Surfaces(OneSurface);
    AppendedOne(1, true, true);
    s.Append([Added(1, [true], [true])]);
    assert At(s.data, Cell(0, 0)) == [1];
    AppendedOne(2, true, false);
    s.Append([Added(2, [true], [false])]);
    s.Pop(1);
  }

  lemma AppendedOne(id: nat, asked: bool, stored: bool)
    ensures var points := [Added(id, [asked], [stored])];
            && RecordSupported(OneSurface, [stored]) && Feeds(OneSurface, 1, Cell(0, 0))
            && Reaching(OneSurface, points, Cell(0, 0)) == (if stored then [id] else [])
            && Pushed(OneSurface, points, Cell(0, 0)) == Here(asked)
  {
    hide Column, RecordSupported, Reaching, Asked;
    ColumnOfOne(asked);
    OnlyPoint(Added(id, [asked], [stored]));
    SupportedRecord(OneSurface, [stored]);
  }

  lemma OnlyPoint(p: Added)
    ensures Asked([p]) == [p.asked]
    ensures Reaching(OneSurface, [p], Cell(0, 0)) == (if Asks(OneSurface, p.stored, Cell(0, 0)) then [p.id] else [])
  {
    assert [p][..|[p]|-1] == [];
    assert Reaching(OneSurface, [], Cell(0, 0)) == [];
  }

  lemma ColumnOfOne(asked: bool)
    ensures Column([[asked]], 0) == Here(asked)
  {
    var asvs := [[asked]];
    assert asvs[..|asvs|-1] == [];
  }

  lemma TopOf(counts: map<Cell, seq<nat>>, cell: Cell, before: seq<nat>, n: nat)
    requires At(counts, cell) == before + [n]
    ensures Top(counts, cell) == n
  {}

  /** Records with the same pattern as their requests are balanced. */
  lemma SamePatternBalanced(c: Config, points: seq<Added>, len: nat)
    requires forall j | 0 <= j < |points| :: points[j].stored == points[j].asked && |points[j].asked| == len
    ensures Balanced(c, points, len)
  {
    forall cell ensures |Reaching(c, points, cell)| == if Feeds(c, len, cell) then Pushed(c, points, cell) else 0 {
      SamePattern(c, points, cell);
      if Position(c, cell) >= len { NothingBeyond(c, points, cell, len); }
    }
  }

  lemma {:induction false} SamePattern(c: Config, points: seq<Added>, cell: Cell)
    requires forall j | 0 <= j < |points| :: points[j].stored == points[j].asked
    ensures cell.fn in c.indices ==> |Reaching(c, points, cell)| == Pushed(c, points, cell)
    ensures cell.fn !in c.indices ==> Reaching(c, points, cell) == []
  {
    if points != [] {
      var front := points[..|points|-1];
      SamePattern(c, front, cell);
      assert Asked(points)[..|points|-1] == Asked(front);
    }
  }

  lemma {:induction false} NothingBeyond(c: Config, points: seq<Added>, cell: Cell, len: nat)
    requires Position(c, cell) >= len && forall j | 0 <= j < |points| :: |points[j].stored| <= len
    ensures Reaching(c, points, cell) == []
  {
    if points != [] { NothingBeyond(c, points[..|points|-1], cell, len); }
  }
}
