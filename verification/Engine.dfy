/**
  The evaluation engine with its shared response objects.  A queue entry, the result
  handed out for it and the cache record made from it are one object; a queue duplicate
  has an object of its own that is filled from the original's when that is complete.
 */
module Engine {
  import opened Responses
  import opened EngineSpec

  /** The representation a Response handle points to. */
  class Rep {
    const wants: ActiveSet
    var data: Data

    constructor (wants: ActiveSet, data: Data)
      ensures this.wants == wants && this.data == data
    {
      this.wants := wants;
      this.data := data;
    }

    function Value(): Response
      reads `data
    {
      Response(wants, data)
    }

    /** Response::update; a match leaves nothing to abort for. */
    method UpdateFrom(source: Rep)
      requires SetCompare(source.wants, wants) && WellFormed(wants) && source.data.Keys == Wanted(source.wants)
      modifies `data
      ensures Value() == Copied(wants, old(source.Value())) && HoldsExactly(wants.asv, wants.dvv, data.Keys)
      ensures forall i | i in data :: i in old(source.data) && data[i] == old(source.data)[i]
    {
      MatchUpdates(source.wants, wants, source.data);
      var update := Update(wants, source.Value());
      UpdateCopies(wants, source.Value());
      data := update.value;
    }
  }

  datatype Pair = Pair(x: Point, rep: Rep)

  /** A ParamResponsePair of the cache. */
  datatype Stored = Stored(id: int, pair: Pair)

  /** The records as they are now. */
  ghost function Records(s: seq<Stored>): (r: seq<Record>)
    reads set i | 0 <= i < |s| :: s[i].pair.rep
    ensures |r| == |s|
    ensures forall i | 0 <= i < |s| :: r[i] == Record(s[i].id, Job(s[i].pair.x, s[i].pair.rep.wants),
            s[i].pair.rep.data)
  {
    if s == [] then []
    else
      var last := s[|s|-1];
      Records(s[..|s|-1]) + [Record(last.id, Job(last.pair.x, last.pair.rep.wants), last.pair.rep.data)]
  }

  datatype Duplicate = Duplicate(original: nat, rep: Rep)

  /** How the parts of the engine represent the parts of its state. */
  ghost predicate QueueAs(queue: map<nat, Pair>, pending: map<Rep, nat>, s: State) {
    && queue.Keys == s.queue
    && forall id | id in queue ::
         && queue[id].rep in pending && pending[queue[id].rep] == id
         && Own(s, id) == Job(queue[id].x, queue[id].rep.wants)
  }

  ghost predicate DuplicatesAs(duplicates: map<nat, Duplicate>, pending: map<Rep, nat>, s: State) {
    && duplicates.Keys == s.duplicates.Keys
    && forall d | d in duplicates ::
         && duplicates[d].original == s.duplicates[d]
         && duplicates[d].rep in pending && pending[duplicates[d].rep] == d
         && Own(s, d).wants == duplicates[d].rep.wants
  }

  ghost predicate StoredAs(s: Stored, settled: set<Rep>, r: Record)
    reads settled
  {
    s.pair.rep in settled && r == Record(s.id, Job(s.pair.x, s.pair.rep.wants), s.pair.rep.data)
  }

  ghost predicate CacheAs(cache: seq<Stored>, settled: set<Rep>, records: seq<Record>)
    reads settled
  {
    |cache| == |records| && forall i | 0 <= i < |cache| :: StoredAs(cache[i], settled, records[i])
  }

  ghost predicate HistoryAs(history: map<nat, Rep>, settled: set<Rep>, responses: map<nat, Response>)
    reads settled
  {
    && history.Keys == responses.Keys
    && forall id | id in history :: history[id] in settled && responses[id] == history[id].Value()
  }

  /** Filing a request with a fresh object disturbs none of the others. */
  lemma QueueGrows(queue: map<nat, Pair>, pending: map<Rep, nat>, s: State, s': State, job: Job, rep: Rep)
    requires QueueAs(queue, pending, s) && Conserved(s) && s'.requests == s.requests + [job] && s'.queue == s.queue
    ensures QueueAs(queue, pending, s')
    ensures rep !in pending ==> QueueAs(queue, pending[rep := |s.requests| + 1], s')
    ensures rep !in pending && rep.wants == job.wants ==>
              QueueAs(queue[|s.requests| + 1 := Pair(job.x, rep)], pending[rep := |s.requests| + 1],
                s'.(queue := s.queue + {|s.requests| + 1}))
  {
    OwnOutstanding(s, s', job);
    OwnOutstanding(s, s'.(queue := s.queue + {|s.requests| + 1}), job);
  }

  lemma DuplicatesGrow(duplicates: map<nat, Duplicate>, pending: map<Rep, nat>, s: State, s': State, job: Job,
      rep: Rep, o: nat)
    requires DuplicatesAs(duplicates, pending, s) && Conserved(s) && s'.requests == s.requests + [job]
    requires s'.duplicates == s.duplicates
    ensures DuplicatesAs(duplicates, pending, s')
    ensures rep !in pending ==> DuplicatesAs(duplicates, pending[rep := |s.requests| + 1], s')
    ensures rep !in pending && rep.wants == job.wants ==>
              DuplicatesAs(duplicates[|s.requests| + 1 := Duplicate(o, rep)], pending[rep := |s.requests| + 1],
                           s'.(duplicates := s.duplicates[|s.requests| + 1 := o]))
  {
    OwnOutstanding(s, s', job);
    OwnOutstanding(s, s'.(duplicates := s.duplicates[|s.requests| + 1 := o]), job);
  }

  function PromoteStored(cache: seq<Stored>, k: nat, id: nat): seq<Stored> {
    if k < |cache| && cache[k].id <= 0 then cache[..k] + cache[k + 1..] + [Stored(id, cache[k].pair)] else cache
  }

  /** Some record, or some queued job, asks for all that a job asks for. */
  ghost predicate CacheCovers(cache: seq<Stored>, job: Job) {
    exists i :: 0 <= i < |cache| && Covers(Job(cache[i].pair.x, cache[i].pair.rep.wants), job)
  }

  ghost predicate QueueCovers(queue: map<nat, Pair>, job: Job) {
    exists id :: id in queue && Covers(Job(queue[id].x, queue[id].rep.wants), job)
  }

  /** What a hit does to the cache: a restart record that is hit, and no other, gets the new
      id, which no other record has. */
  ghost predicate HitLeaves(cache: seq<Stored>, now: seq<Stored>, k: nat, id: nat) {
    && k < |cache|
    && if cache[k].id > 0 then now == cache
       else
         && multiset(now) == multiset(cache) - multiset{cache[k]} + multiset{Stored(id, cache[k].pair)}
         && exists i :: 0 <= i < |now| && now[i] == Stored(id, cache[k].pair)
                        && forall j | 0 <= j < |now| && j != i :: now[j].id != id
  }

  lemma HitLeavesThis(cache: seq<Stored>, k: nat, id: nat)
    requires k < |cache| && forall i | 0 <= i < |cache| :: cache[i].id < id
    ensures HitLeaves(cache, PromoteStored(cache, k, id), k, id)
  {
    var r, now := cache[k], PromoteStored(cache, k, id);
    if r.id <= 0 {
      assert cache == cache[..k] + [r] + cache[k + 1..];
      assert now == cache[..k] + cache[k + 1..] + [Stored(id, r.pair)];
      assert now[|now|-1] == Stored(id, r.pair);
      forall j | 0 <= j < |now| - 1 ensures now[j].id != id {
        assert now[j] == cache[if j < k then j else j + 1];
      }
    }
  }

  lemma IdsBelow(cache: seq<Stored>, settled: set<Rep>, s: State)
    requires CacheAs(cache, settled, s.cache) && Ordered(s)
    ensures forall i | 0 <= i < |cache| :: cache[i].id < |s.requests| + 1
  {
    hide Conserved, Anchored, AllWellFormed;
    forall i | 0 <= i < |cache| ensures cache[i].id < |s.requests| + 1 {
      assert StoredAs(cache[i], settled, s.cache[i]);
    }
  }

  lemma SameLength(cache: seq<Stored>, settled: set<Rep>, records: seq<Record>)
    requires CacheAs(cache, settled, records)
    ensures |cache| == |records|
  {}

  lemma CachePromoted(cache: seq<Stored>, settled: set<Rep>, records: seq<Record>, k: nat, id: nat)
    requires CacheAs(cache, settled, records) && k < |cache|
    ensures CacheAs(PromoteStored(cache, k, id), settled, Promote(records, k, id))
  {
    hide StoredAs;
    assert StoredAs(cache[k], settled, records[k]);
    PromotedRecord(cache[k], settled, records[k], id);
    var c, r := PromoteStored(cache, k, id), Promote(records, k, id);
    forall i | 0 <= i < |c| ensures |c| == |r| && StoredAs(c[i], settled, r[i]) {
      var j := if cache[k].id > 0 || i < k then i else if i < |c| - 1 then i + 1 else k;
      assert StoredAs(cache[j], settled, records[j]);
    }
  }

  lemma PromotedRecord(s: Stored, settled: set<Rep>, r: Record, id: nat)
    requires StoredAs(s, settled, r)
    ensures r.id == s.id && StoredAs(Stored(id, s.pair), settled, r.(id := id))
  {}

  lemma CacheSettled(cache: seq<Stored>, settled: set<Rep>, settled': set<Rep>, records: seq<Record>)
    requires CacheAs(cache, settled, records) && settled <= settled'
    ensures CacheAs(cache, settled', records)
  {
    forall i | 0 <= i < |cache| ensures StoredAs(cache[i], settled', records[i]) {
      assert StoredAs(cache[i], settled, records[i]);
    }
  }

  lemma CacheAdds(cache: seq<Stored>, settled: set<Rep>, records: seq<Record>, rep: Rep, id: int, x: Point)
    requires CacheAs(cache, settled, records)
    ensures CacheAs(cache + [Stored(id, Pair(x, rep))], settled + {rep},
            records + [Record(id, Job(x, rep.wants), rep.data)])
  {
    CacheSettled(cache, settled, settled + {rep}, records);
    hide CacheAs;
    assert StoredAs(Stored(id, Pair(x, rep)), settled + {rep}, Record(id, Job(x, rep.wants), rep.data));
    CacheAppend(cache, settled + {rep}, records, Stored(id, Pair(x, rep)), Record(id, Job(x, rep.wants), rep.data));
  }

  lemma CacheAppend(cache: seq<Stored>, settled: set<Rep>, records: seq<Record>, s: Stored, r: Record)
    requires CacheAs(cache, settled, records) && StoredAs(s, settled, r)
    ensures CacheAs(cache + [s], settled, records + [r])
  {
    hide StoredAs;
  }

  lemma HistoryAdds(history: map<nat, Rep>, settled: set<Rep>, responses: map<nat, Response>, id: nat, rep: Rep)
    requires HistoryAs(history, settled, responses)
    ensures HistoryAs(history, settled + {rep}, responses)
    ensures HistoryAs(history[id := rep], settled + {rep}, responses[id := rep.Value()])
  {}

  /** The cache records made from finished jobs: they share the queue's objects. */
  function StoredJobs(queue: map<nat, Pair>, done: seq<nat>): seq<Stored>
    requires forall i | 0 <= i < |done| :: done[i] in queue
  {
    seq(|done|, i requires 0 <= i < |done| => Stored(done[i], queue[done[i]]))
  }

  lemma StoredNext(queue: map<nat, Pair>, done: seq<nat>, i: nat)
    requires i <= |done| && forall k | 0 <= k < |done| :: done[k] in queue
    ensures i == 0 ==> StoredJobs(queue, done[..i]) == []
    ensures i < |done|
            ==> StoredJobs(queue, done[..i + 1]) == StoredJobs(queue, done[..i]) + [Stored(done[i], queue[done[i]])]
  {}

  /** The raw responses of the first n of these jobs. */
  ghost predicate FiledUnder(raw: map<nat, Rep>, queue: map<nat, Pair>, done: seq<nat>, n: nat) {
    && n <= |done| && raw.Keys == (set k | 0 <= k < n :: done[k])
    && forall id | id in raw :: id in queue && raw[id] == queue[id].rep
  }

  lemma FiledNext(raw: map<nat, Rep>, queue: map<nat, Pair>, done: seq<nat>, i: nat)
    requires i <= |done| && (FiledUnder(raw, queue, done, i) || (i == 0 && raw == map[]))
    requires forall k | 0 <= k < |done| :: done[k] in queue
    ensures i == 0 && raw == map[] ==> FiledUnder(raw, queue, done, i)
    ensures i < |done| ==> FiledUnder(raw[done[i] := queue[done[i]].rep], queue, done, i + 1)
    ensures raw.Keys == (set k | 0 <= k < i :: done[k])
    ensures forall id | id in raw :: id in queue && raw[id] == queue[id].rep
  {}

  /** The objects of these jobs hold their evaluations. */
  ghost predicate Complete(queue: map<nat, Pair>, done: seq<nat>, sim: Simulation, s: State, reps: set<Rep>)
    reads reps
  {
    forall i | 0 <= i < |done| ::
      done[i] in queue && queue[done[i]].rep in reps && queue[done[i]].rep.Value() == Evaluated(sim, Own(s, done[i]))
  }

  function Handed(s: State, done: seq<nat>): set<nat> {
    set id | id in Outstanding(s) && HandsBack(s, done, id)
  }

  /** The objects still to be filled after a synchronization. */
  ghost function StillPending(pending: map<Rep, nat>, gone: set<nat>): map<Rep, nat> {
    map r | r in pending && pending[r] !in gone :: pending[r]
  }

  ghost function NowSettled(pending: map<Rep, nat>, gone: set<nat>): set<Rep> {
    set r | r in pending && pending[r] in gone
  }

  lemma QueueShrinks(queue: map<nat, Pair>, pending: map<Rep, nat>, caching: bool, sim: Simulation, s: State,
      done: seq<nat>)
    requires QueueAs(queue, pending, s) && Ordered(s)
    ensures QueueAs(queue - Handed(s, done), StillPending(pending, Handed(s, done)), Next(caching, sim, s, Synch(done)))
  {
    hide Ordered;
    Apart(s);
    var s', gone := Next(caching, sim, s, Synch(done)), Handed(s, done);
    SameRequests(s, s');
    hide Own;
    forall id | id in s.queue ensures id in gone <==> id in done {}
    assert (queue - gone).Keys == s'.queue;
  }

  lemma DuplicatesShrink(duplicates: map<nat, Duplicate>, pending: map<Rep, nat>, caching: bool, sim: Simulation,
      s: State, done: seq<nat>)
    requires DuplicatesAs(duplicates, pending, s) && Ordered(s) && forall i | 0 <= i < |done| :: done[i] in s.queue
    ensures DuplicatesAs(duplicates - Handed(s, done), StillPending(pending, Handed(s, done)),
            Next(caching, sim, s, Synch(done)))
  {
    hide Ordered;
    Apart(s);
    var s', gone := Next(caching, sim, s, Synch(done)), Handed(s, done);
    SameRequests(s, s');
    hide Own;
    forall id | id in s.duplicates ensures id in gone <==> s.duplicates[id] in done {}
    assert (duplicates - gone).Keys == s'.duplicates.Keys;
  }

  lemma SameRequests(s: State, s': State)
    requires s'.requests == s.requests
    ensures forall id: nat :: Own(s', id) == Own(s, id)
  {}

  lemma CacheFiled(cache: seq<Stored>, queue: map<nat, Pair>, pending: map<Rep, nat>, settled: set<Rep>,
      sim: Simulation, s: State, done: seq<nat>)
    requires CacheAs(cache, settled, s.cache) && QueueAs(queue, pending, s)
    requires Complete(queue, done, sim, s, pending.Keys)
    requires forall i | 0 <= i < |done| :: done[i] in s.queue
    ensures forall i | 0 <= i < |done| :: done[i] in queue
    ensures CacheAs(cache + StoredJobs(queue, done), settled + NowSettled(pending, Handed(s, done)),
            s.cache + Filed(s, sim, done))
    ensures CacheAs(cache, settled + NowSettled(pending, Handed(s, done)), s.cache)
  {
    var after := settled + NowSettled(pending, Handed(s, done));
    CacheSettled(cache, settled, after, s.cache);
    var stored, filed := StoredJobs(queue, done), Filed(s, sim, done);
    forall i | 0 <= i < |done| ensures StoredAs(stored[i], after, filed[i]) {
      assert done[i] in Handed(s, done);
      assert queue[done[i]].rep in after;
    }
    hide StoredAs;
  }

  /** When the whole queue is done everything is handed back. */
  lemma AllGone(queue: map<nat, Pair>, duplicates: map<nat, Duplicate>, pending: map<Rep, nat>, s: State,
      done: seq<nat>)
    requires QueueAs(queue, pending, s) && DuplicatesAs(duplicates, pending, s) && Anchored(s)
    requires forall id | id in s.queue :: id in done
    ensures queue - Handed(s, done) == map[] && duplicates - Handed(s, done) == map[]
  {
    hide Own, Matches;
    var gone := Handed(s, done);
    assert (queue - gone).Keys == {} && (duplicates - gone).Keys == {};
  }

  /** With the whole queue in, the emptied queue and duplicates represent the next state. */
  lemma NothingKept(queue: map<nat, Pair>, duplicates: map<nat, Duplicate>, pending: map<Rep, nat>, caching: bool,
      sim: Simulation, s: State, done: seq<nat>)
    requires QueueAs(queue, pending, s) && DuplicatesAs(duplicates, pending, s) && Ordered(s)
    requires forall id | id in s.queue :: id in done
    requires forall i | 0 <= i < |done| :: done[i] in s.queue
    ensures QueueAs(map[], StillPending(pending, Handed(s, done)), Next(caching, sim, s, Synch(done)))
    ensures DuplicatesAs(map[], StillPending(pending, Handed(s, done)), Next(caching, sim, s, Synch(done)))
  {
    hide Ordered, QueueAs, DuplicatesAs, Handed, StillPending, Next;
    OrderedFacts(s);
    QueueShrinks(queue, pending, caching, sim, s, done);
    DuplicatesShrink(duplicates, pending, caching, sim, s, done);
    AllGone(queue, duplicates, pending, s, done);
  }

  lemma CountsUp(caching: bool, sim: Simulation, s: State, c: Call)
    ensures !c.Synch? && Enabled(caching, s, c) ==> |Next(caching, sim, s, c).requests| == |s.requests| + 1
  {}

  lemma InQueue(queue: map<nat, Pair>, pending: map<Rep, nat>, s: State, id: nat)
    requires QueueAs(queue, pending, s) && id in queue
    ensures id in s.queue
  {}

  lemma QueueFacts(queue: map<nat, Pair>, pending: map<Rep, nat>, s: State)
    requires QueueAs(queue, pending, s)
    ensures queue.Keys == s.queue
    ensures forall id | id in queue :: queue[id].rep in pending && pending[queue[id].rep] == id
    ensures forall id | id in queue :: Own(s, id) == Job(queue[id].x, queue[id].rep.wants)
  {}

  lemma DuplicateFacts(duplicates: map<nat, Duplicate>, pending: map<Rep, nat>, s: State)
    requires DuplicatesAs(duplicates, pending, s)
    ensures duplicates.Keys == s.duplicates.Keys
    ensures forall d | d in duplicates :: duplicates[d].rep in pending && pending[duplicates[d].rep] == d
  {}

  lemma SynchParts(caching: bool, sim: Simulation, s: State, done: seq<nat>)
    ensures var s' := Next(caching, sim, s, Synch(done));
            && s'.cache == (if caching then s.cache + Filed(s, sim, done) else s.cache)
            && s'.history == map[] && s'.requests == s.requests
  {}

  lemma SplitPending(pending: map<Rep, nat>, settled: set<Rep>, gone: set<nat>)
    requires pending.Keys !! settled
    ensures StillPending(pending, gone).Keys !! settled + NowSettled(pending, gone)
    ensures StillPending(pending, gone).Keys <= pending.Keys && NowSettled(pending, gone) <= pending.Keys
  {}

  lemma NoHistory(settled: set<Rep>)
    ensures HistoryAs(map[], settled, map[])
  {}

  lemma SynchAsks(caching: bool, s: State, done: seq<nat>)
    requires Enabled(caching, s, Synch(done))
    ensures forall i | 0 <= i < |done| :: done[i] in s.queue
  {}

  lemma OrderedFacts(s: State)
    requires Ordered(s)
    ensures Conserved(s) && Anchored(s) && AllWellFormed(s)
  {}

  /** Restart records and their copies on values. */
  lemma RestartRecords(restart: seq<Stored>)
    requires forall i | 0 <= i < |restart| ::
               restart[i].id <= 0 && restart[i].pair.rep.data.Keys == Wanted(restart[i].pair.rep.wants)
    ensures Ordered(State([], Records(restart), {}, map[], map[], map[])) && Full(Records(restart))
    ensures CacheAs(restart, set i | 0 <= i < |restart| :: restart[i].pair.rep, Records(restart))
    ensures var s := State([], Records(restart), {}, map[], map[], map[]);
            QueueAs(map[], map[], s) && DuplicatesAs(map[], map[], s) && HistoryAs(map[], {}, map[])
  {
    RestartOrdered(Records(restart));
  }

  /** A hit asks for a record that is there. */
  lemma HitAsks(caching: bool, s: State, job: Job, k: nat)
    requires Enabled(caching, s, Hit(job, k))
    ensures k < |s.cache| && Matches(s.cache[k].job, job) && WellFormed(job.wants)
  {}

  /** What represents the engine's state after a history duplicate was filed. */
  lemma AfterHit(queue: map<nat, Pair>, duplicates: map<nat, Duplicate>, pending: map<Rep, nat>, cache: seq<Stored>,
      history: map<nat, Rep>, settled: set<Rep>, caching: bool, sim: Simulation, s: State, job: Job, k: nat, rep: Rep)
    requires QueueAs(queue, pending, s) && DuplicatesAs(duplicates, pending, s) && Ordered(s) && Full(s.cache)
    requires CacheAs(cache, settled, s.cache) && HistoryAs(history, settled, s.history)
    requires Enabled(caching, s, Hit(job, k)) && k < |s.cache| == |cache| && rep.Value() == FromCache(job, s.cache[k])
    requires rep !in pending && pending.Keys !! settled
    ensures var id, s' := |s.requests| + 1, Next(caching, sim, s, Hit(job, k));
            && QueueAs(queue, pending, s') && DuplicatesAs(duplicates, pending, s') && Ordered(s') && Full(s'.cache)
            && CacheAs(PromoteStored(cache, k, id), settled + {rep}, s'.cache) && |s'.requests| == id
            && HistoryAs(history[id := rep], settled + {rep}, s'.history) && pending.Keys !! settled + {rep}
  {
    hide Ordered, QueueAs, DuplicatesAs, CacheAs, HistoryAs, FromCache, Promote, PromoteStored, Full, Enabled;
    var id, s' := |s.requests| + 1, Next(caching, sim, s, Hit(job, k));
    OrderedFacts(s);
    OrderedStep(caching, sim, s, Hit(job, k));
    FullStep(caching, sim, s, Hit(job, k));
    CachePromoted(cache, settled, s.cache, k, id);
    CacheSettled(PromoteStored(cache, k, id), settled, settled + {rep}, s'.cache);
    HistoryAdds(history, settled, s.history, id, rep);
    QueueGrows(queue, pending, s, s', job, rep);
    DuplicatesGrow(duplicates, pending, s, s', job, rep, 0);
  }

  class EvalEngine {
    const caching: bool               // evalCacheFlag
    const sim: Simulation             // derived_map
    var evalIdCntr: nat
    var queue: map<nat, Pair>         // beforeSynchCorePRPQueue
    var cache: seq<Stored>            // data_pairs
    var history: map<nat, Rep>        // historyDuplicateMap
    var duplicates: map<nat, Duplicate>  // beforeSynchDuplicateMap

    ghost var view: State
    ghost var pending: map<Rep, nat>  // the objects still to be filled, and for which id
    ghost var settled: set<Rep>       // the objects that will not change any more

    ghost predicate Valid()
      reads this, settled
    {
      && QueueAs(queue, pending, view) && DuplicatesAs(duplicates, pending, view)
      && CacheAs(cache, settled, view.cache) && HistoryAs(history, settled, view.history)
      && Full(view.cache) && pending.Keys !! settled
      && evalIdCntr == |view.requests| && Ordered(view)
    }

    /** Start with the records of a restart file. */
    constructor (caching: bool, sim: Simulation, restart: seq<Stored>)
      requires forall i | 0 <= i < |restart| ::
                 restart[i].id <= 0 && restart[i].pair.rep.data.Keys == Wanted(restart[i].pair.rep.wants)
      ensures Valid() && this.caching == caching && this.sim == sim
      ensures |view.cache| == |restart| && view == State([], view.cache, {}, map[], map[], map[])
      ensures forall i | 0 <= i < |restart| ::
                view.cache[i] == Record(restart[i].id, Job(restart[i].pair.x, restart[i].pair.rep.wants),
                  restart[i].pair.rep.data)
    {
      hide Ordered, Full, CacheAs, QueueAs, DuplicatesAs;
      this.caching, this.sim, evalIdCntr, queue, cache := caching, sim, 0, map[], restart;
      history, duplicates, pending := map[], map[], map[];
      settled := set i | 0 <= i < |restart| :: restart[i].pair.rep;
      view := State([], Records(restart), {}, map[], map[], map[]);
      RestartRecords(restart);
    }

    /** lookup_by_val on the cache: any matching record may be found. */
    method FindInCache(x: Point, wants: ActiveSet) returns (found: bool, k: nat)
      requires Valid()
      ensures found == CacheCovers(cache, Job(x, wants))
      ensures found ==> k < |cache| && Covers(Job(cache[k].pair.x, cache[k].pair.rep.wants), Job(x, wants))
      ensures found ==> k < |view.cache| && Matches(view.cache[k].job, Job(x, wants))
      ensures !found ==> !CacheHas(view.cache, Job(x, wants))
    {
      hide QueueAs, DuplicatesAs, HistoryAs, Ordered, Full, SetCompare, Matches, Covers;
      k := 0;
      found := exists i :: 0 <= i < |cache| && Matches(Job(cache[i].pair.x, cache[i].pair.rep.wants), Job(x, wants));
      forall i | 0 <= i < |cache|
        ensures Matches(Job(cache[i].pair.x, cache[i].pair.rep.wants), Job(x, wants))
                <==> Covers(Job(cache[i].pair.x, cache[i].pair.rep.wants), Job(x, wants))
      {
        MatchesCovers(Job(cache[i].pair.x, cache[i].pair.rep.wants), Job(x, wants));
      }
      if found {
        k :| 0 <= k < |cache| && Matches(Job(cache[k].pair.x, cache[k].pair.rep.wants), Job(x, wants));
        assert StoredAs(cache[k], settled, view.cache[k]);
      } else {
        forall i | 0 <= i < |view.cache| ensures !Matches(view.cache[i].job, Job(x, wants)) {
          assert StoredAs(cache[i], settled, view.cache[i]);
        }
      }
    }

    /** lookup_by_val on the queue. */
    method FindInQueue(x: Point, wants: ActiveSet) returns (found: bool, id: nat)
      requires Valid()
      ensures found == QueueCovers(queue, Job(x, wants))
      ensures found ==> id in queue && Covers(Job(queue[id].x, queue[id].rep.wants), Job(x, wants))
      ensures found ==> Matches(Own(view, id), Job(x, wants))
      ensures !found ==> !QueueHas(view, Job(x, wants))
    {
      hide DuplicatesAs, CacheAs, HistoryAs, Ordered, Full, SetCompare, Own, Matches, Covers;
      id, found := 0, exists i :: i in queue && Matches(Job(queue[i].x, queue[i].rep.wants), Job(x, wants));
      forall i | i in queue
        ensures Matches(Job(queue[i].x, queue[i].rep.wants), Job(x, wants))
                <==> Covers(Job(queue[i].x, queue[i].rep.wants), Job(x, wants))
      {
        MatchesCovers(Job(queue[i].x, queue[i].rep.wants), Job(x, wants));
      }
      if found {
        id :| id in queue && Matches(Job(queue[id].x, queue[id].rep.wants), Job(x, wants));
      }
    }

    /** Queue a new job under its own response object. */
    method AddToQueue(x: Point, wants: ActiveSet)
      requires Valid() && Enabled(caching, view, New(Job(x, wants)))
      modifies this
      ensures Valid() && view == Next(caching, sim, old(view), New(Job(x, wants)))
      ensures settled == old(settled)
      ensures cache == old(cache) && history == old(history) && duplicates == old(duplicates)
      ensures queue.Keys == old(queue).Keys + {evalIdCntr}
    {
      hide Ordered, Enabled, Full, QueueAs, DuplicatesAs, CacheAs, HistoryAs;
      var job := Job(x, wants);
      ghost var was := view;
      OrderedFacts(was);
      OrderedStep(caching, sim, was, New(job));
      var id := evalIdCntr + 1;
      var rep := new Rep(wants, map[]);
      QueueGrows(queue, pending, was, was.(requests := was.requests + [job]), job, rep);
      DuplicatesGrow(duplicates, pending, was, Next(caching, sim, was, New(job)), job, rep, 0);
      evalIdCntr, queue := id, queue[id := Pair(x, rep)];
      pending, view := pending[rep := id], Next(caching, sim, was, New(job));
    }

    /** File a queue duplicate with a response object of its own. */
    method AddDuplicate(x: Point, wants: ActiveSet, original: nat)
      requires Valid() && Enabled(caching, view, Queued(Job(x, wants), original))
      modifies this
      ensures Valid() && view == Next(caching, sim, old(view), Queued(Job(x, wants), original))
      ensures settled == old(settled)
      ensures cache == old(cache) && history == old(history) && queue == old(queue)
      ensures evalIdCntr in duplicates && duplicates[evalIdCntr].original == original
      ensures duplicates.Keys == old(duplicates).Keys + {evalIdCntr}
    {
      hide Ordered, Enabled, Full, QueueAs, DuplicatesAs, CacheAs, HistoryAs;
      var job := Job(x, wants);
      ghost var was := view;
      OrderedFacts(was);
      OrderedStep(caching, sim, was, Queued(job, original));
      var id := evalIdCntr + 1;
      var rep := new Rep(wants, map[]);
      QueueGrows(queue, pending, was, Next(caching, sim, was, Queued(job, original)), job, rep);
      DuplicatesGrow(duplicates, pending, was, was.(requests := was.requests + [job]), job, rep, original);
      evalIdCntr, duplicates := id, duplicates[id := Duplicate(original, rep)];
      pending, view := pending[rep := id], Next(caching, sim, was, Queued(job, original));
    }

    /** A fresh response filled from a matching record. */
    method CopyRecord(x: Point, wants: ActiveSet, k: nat) returns (rep: Rep)
      requires Valid() && WellFormed(wants) && k < |cache| && k < |view.cache|
      requires Matches(view.cache[k].job, Job(x, wants))
      ensures Valid() && fresh(rep) && rep.Value() == FromCache(Job(x, wants), view.cache[k])
    {
      hide QueueAs, DuplicatesAs, HistoryAs, Ordered, SetCompare, WellFormed, Update, Wanted;
      assert StoredAs(cache[k], settled, view.cache[k]);
      rep := new Rep(wants, map[]);
      rep.UpdateFrom(cache[k].pair.rep);
    }

    /** File a history duplicate: keep a copy of the record and promote it if it came from
        a restart file. */
    method AddHistory(x: Point, wants: ActiveSet, k: nat)
      requires Valid() && Enabled(caching, view, Hit(Job(x, wants), k))
      modifies this
      ensures Valid() && view == Next(caching, sim, old(view), Hit(Job(x, wants), k))
      ensures settled >= old(settled) && fresh(settled - old(settled))
      ensures HitLeaves(old(cache), cache, k, evalIdCntr) && queue == old(queue) && duplicates == old(duplicates)
      ensures history.Keys == old(history).Keys + {evalIdCntr}
    {
      hide *;
      var job := Job(x, wants);
      ghost var was := view;
      ValidParts();
      HitAsks(caching, was, job, k);
      var id := evalIdCntr + 1;
      var rep := CopyRecord(x, wants, k);
      ghost var now := Next(caching, sim, was, Hit(job, k));
      AfterHit(queue, duplicates, pending, cache, history, settled, caching, sim, was, job, k, rep);
      HitLeavesThis(cache, k, id);
      evalIdCntr, cache, history := id, PromoteStored(cache, k, id), history[id := rep];
      settled, view := settled + {rep}, now;
      PartsValid();
    }

    /** The invariant and its parts. */
    lemma ValidParts()
      requires Valid()
      ensures QueueAs(queue, pending, view) && DuplicatesAs(duplicates, pending, view) && Ordered(view)
      ensures CacheAs(cache, settled, view.cache) && HistoryAs(history, settled, view.history) && Full(view.cache)
      ensures pending.Keys !! settled && evalIdCntr == |view.requests| && |cache| == |view.cache|
      ensures forall i | 0 <= i < |cache| :: cache[i].id < evalIdCntr + 1
    {
      hide QueueAs, DuplicatesAs, HistoryAs, Ordered, Full;
      IdsBelow(cache, settled, view);
    }

    lemma PartsValid()
      requires QueueAs(queue, pending, view) && DuplicatesAs(duplicates, pending, view) && Ordered(view)
      requires CacheAs(cache, settled, view.cache) && HistoryAs(history, settled, view.history) && Full(view.cache)
      requires pending.Keys !! settled && evalIdCntr == |view.requests|
      ensures Valid()
    {}

    /** receive_evaluation and process_asynch_local for all jobs that are in: fill the
        job's object and share it with the result map and the cache. */
    method FileResults(done: seq<nat>) returns (raw: map<nat, Rep>)
      requires Valid() && Enabled(caching, view, Synch(done))
      modifies `cache, pending.Keys
      ensures forall i | 0 <= i < |done| :: done[i] in queue
      ensures cache == if caching then old(cache) + StoredJobs(queue, done) else old(cache)
      ensures Complete(queue, done, sim, view, pending.Keys)
      ensures raw.Keys == (set i | 0 <= i < |done| :: done[i])
      ensures forall id | id in raw :: id in queue && raw[id] == queue[id].rep
      ensures forall id | id in raw :: RightData(sim, queue[id].x, queue[id].rep.wants, queue[id].rep.data)
    {
      hide EvalEngine.Valid, Enabled, Evaluated, Own, StoredJobs, Complete, RightData;
      OwnQueued();
      raw := FileEach(done);
      CompleteIsRight(done, raw);
    }

    lemma OwnQueued()
      requires Valid()
      ensures forall id | id in queue :: Own(view, id) == Job(queue[id].x, queue[id].rep.wants)
    {
      QueueFacts(queue, pending, view);
    }

    /** The loop over the jobs. */
    method FileEach(done: seq<nat>) returns (raw: map<nat, Rep>)
      requires Valid() && Enabled(caching, view, Synch(done))
      modifies `cache, pending.Keys
      ensures forall i | 0 <= i < |done| :: done[i] in queue
      ensures cache == if caching then old(cache) + StoredJobs(queue, done) else old(cache)
      ensures Complete(queue, done, sim, view, pending.Keys)
      ensures raw.Keys == (set i | 0 <= i < |done| :: done[i])
      ensures forall id | id in raw :: id in queue && raw[id] == queue[id].rep
    {
      hide *;
      raw := map[];
      FilingFacts(done);
      var i := 0;
      StoredNext(queue, done, i);
      FiledNext(raw, queue, done, i);
      NoneComplete(done[..i]);
      while i < |done|
        invariant i <= |done|
        invariant cache == if caching then old(cache) + StoredJobs(queue, done[..i]) else old(cache)
        invariant Complete(queue, done[..i], sim, view, pending.Keys)
        invariant FiledUnder(raw, queue, done, i)
      {
        var id := done[i];
        FileNext(done, i);
        FiledNext(raw, queue, done, i);
        raw := raw[id := queue[id].rep];
        StoredNext(queue, done, i);
        i := i + 1;
      }
      assert done[..i] == done;
      FiledNext(raw, queue, done, i);
    }

    lemma CompleteIsRight(done: seq<nat>, raw: map<nat, Rep>)
      requires raw.Keys == (set i | 0 <= i < |done| :: done[i]) && forall id | id in raw :: id in queue
      requires Complete(queue, done, sim, view, pending.Keys)
      requires forall id | id in queue :: Own(view, id) == Job(queue[id].x, queue[id].rep.wants)
      ensures forall id | id in raw :: RightData(sim, queue[id].x, queue[id].rep.wants, queue[id].rep.data)
    {
      hide Evaluate, RightData;
      forall id | id in raw ensures RightData(sim, queue[id].x, queue[id].rep.wants, queue[id].rep.data) {
        var i :| 0 <= i < |done| && done[i] == id;
        OnlyRightData(sim, queue[done[i]].x, queue[done[i]].rep.wants, queue[done[i]].rep.data);
      }
    }

    lemma NoneComplete(done: seq<nat>)
      ensures done == [] ==> Complete(queue, done, sim, view, pending.Keys)
    {}

    /** The next result; those filed before keep theirs. */
    method FileNext(done: seq<nat>, i: nat)
      requires i < |done| && done[i] in queue && Complete(queue, done[..i], sim, view, pending.Keys)
      requires queue[done[i]].rep in pending && Own(view, done[i]) == Job(queue[done[i]].x, queue[done[i]].rep.wants)
      requires forall k | 0 <= k < i :: done[k] in queue && queue[done[k]].rep != queue[done[i]].rep
      modifies `cache, queue[done[i]].rep
      ensures Complete(queue, done[..i + 1], sim, view, pending.Keys)
      ensures cache == if caching then old(cache) + [Stored(done[i], queue[done[i]])] else old(cache)
    {
      hide Evaluated, Own;
      assert forall k | 0 <= k < i :: done[..i][k] == done[k];
      FileResult(done[i]);
    }

    /** One result: it enters the object of its queue entry, which the cache then shares. */
    method FileResult(id: nat)
      requires id in queue
      modifies `cache, queue[id].rep
      ensures queue[id].rep.Value() == Evaluated(sim, Job(queue[id].x, queue[id].rep.wants))
      ensures cache == if caching then old(cache) + [Stored(id, queue[id])] else old(cache)
    {
      hide Evaluate;
      var pair := queue[id];
      pair.rep.data := Evaluate(sim, pair.x, pair.rep.wants);
      if caching { cache := cache + [Stored(id, pair)]; }
    }

    /** What can be filed: queued jobs, each with a response object of its own. */
    lemma FilingFacts(done: seq<nat>)
      requires Valid() && Enabled(caching, view, Synch(done))
      ensures forall i | 0 <= i < |done| :: done[i] in queue && queue[done[i]].rep in pending
      ensures forall i, j | 0 <= i < j < |done| :: queue[done[i]].rep != queue[done[j]].rep
      ensures forall id | id in queue :: Own(view, id) == Job(queue[id].x, queue[id].rep.wants)
    {
      QueueFacts(queue, pending, view);
    }

    /** The duplicates whose originals are in. */
    ghost predicate Filled(raw: map<nat, Rep>, results: map<nat, Rep>, todo: set<nat>)
      reads this, pending.Keys
    {
      && Includes(raw, results)
      && (forall d | d in duplicates && d !in todo && duplicates[d].original in results :: FilledFor(d, raw))
    }

    /** The results themselves, and duplicates of them. */
    ghost predicate Includes(raw: map<nat, Rep>, results: map<nat, Rep>)
      reads `duplicates
    {
      && results.Keys <= raw.Keys && (forall id | id in results :: raw[id] == results[id])
      && (forall d | d in raw && d !in results :: d in duplicates && duplicates[d].original in results)
    }

    lemma IncludesMore(raw: map<nat, Rep>, results: map<nat, Rep>, d: nat, rep: Rep)
      requires Includes(raw, results) && d in duplicates && duplicates[d].original in results && d !in results
      ensures Includes(raw[d := rep], results)
    {}

    ghost predicate FilledFor(d: nat, raw: map<nat, Rep>)
      requires d in duplicates
      reads this, pending.Keys
    {
      && d in raw && raw[d] == duplicates[d].rep && raw[d] in pending
      && raw[d].Value() == Copied(Own(view, d).wants, Evaluated(sim, Own(view, duplicates[d].original)))
    }

    /** Every object handed out holds the result for its id. */
    ghost predicate HandsOut(raw: map<nat, Rep>, s: State, done: seq<nat>, reps: set<Rep>)
      reads reps
    {
      && raw.Keys == Handed(s, done)
      && forall id | id in raw :: raw[id] in reps && raw[id].Value() == Result(s, sim, id)
    }

    lemma AllHandedOut(raw: map<nat, Rep>, results: map<nat, Rep>, done: seq<nat>)
      requires QueueAs(queue, pending, view) && DuplicatesAs(duplicates, pending, view) && Ordered(view)
      requires HistoryAs(history, settled, view.history)
      requires Complete(queue, done, sim, view, pending.Keys) && Filled(raw, results, {})
      requires results.Keys == (set i | 0 <= i < |done| :: done[i])
      requires forall id | id in results :: id in queue && results[id] == queue[id].rep
      ensures HandsOut(raw + history, view, done, settled + NowSettled(pending, Handed(view, done)))
      ensures (raw + history).Keys == Handed(view, done)
    {
      hide Ordered, Evaluated, Copied, Own, QueueAs, DuplicatesAs, HistoryAs, Complete, Filled, Result, NowSettled,
        Handed, FilledFor;
      HandedKeys(raw, results, done);
      var all := raw + history;
      forall id | id in all
        ensures all[id] in settled + NowSettled(pending, Handed(view, done)) && all[id].Value() == Result(view, sim, id)
      {
        HandedValue(raw, results, done, id);
      }
    }

    /** The ids are those of the finished jobs, of their duplicates and of the history. */
    lemma HandedKeys(raw: map<nat, Rep>, results: map<nat, Rep>, done: seq<nat>)
      requires QueueAs(queue, pending, view) && DuplicatesAs(duplicates, pending, view)
      requires HistoryAs(history, settled, view.history)
      requires Complete(queue, done, sim, view, pending.Keys) && Filled(raw, results, {})
      requires results.Keys == (set i | 0 <= i < |done| :: done[i])
      ensures (raw + history).Keys == Handed(view, done)
      ensures forall id | id in results :: id in raw && raw[id] == results[id]
      ensures forall id | id in raw && id !in results :: id in duplicates && FilledFor(id, raw)
    {
      hide Evaluated, Copied, Own, FilledFor;
      var all := raw + history;
      forall id | id in view.duplicates && view.duplicates[id] in done ensures id in raw && FilledFor(id, raw) {
        assert duplicates[id].original in results;
        KeptAs(id, raw);
      }
      forall id | id in all ensures id in Handed(view, done) {
        if id in results { assert id in done; }
      }
    }

    lemma KeptAs(d: nat, raw: map<nat, Rep>)
      requires d in duplicates && FilledFor(d, raw)
      ensures d in raw
    {}

    /** The object for one id. */
    lemma HandedValue(raw: map<nat, Rep>, results: map<nat, Rep>, done: seq<nat>, id: nat)
      requires results.Keys == (set i | 0 <= i < |done| :: done[i]) && id in raw + history && id in Handed(view, done)
      requires forall j | j in results :: j in queue && j in raw && raw[j] == results[j] == queue[j].rep
      requires forall j | j in raw && j !in results :: j in duplicates && FilledFor(j, raw)
      requires QueueAs(queue, pending, view) && DuplicatesAs(duplicates, pending, view) && Ordered(view)
      requires HistoryAs(history, settled, view.history) && Complete(queue, done, sim, view, pending.Keys)
      ensures (raw + history)[id] in settled + NowSettled(pending, Handed(view, done))
      ensures (raw + history)[id].Value() == Result(view, sim, id)
    {
      hide Ordered, Evaluated, Copied, Own, HandsBack, Outstanding, Handed;
      Apart(view);
      if id in history {
      } else if id in results {
        assert id in done;
      } else {
        assert FilledFor(id, raw);
      }
    }

    /** Fill the object of one duplicate; the others keep their values. */
    method FillOne(d: nat, ghost done: seq<nat>, raw: map<nat, Rep>) returns (raw': map<nat, Rep>)
      requires QueueAs(queue, pending, view) && DuplicatesAs(duplicates, pending, view) && Ordered(view)
      requires Complete(queue, done, sim, view, pending.Keys)
      requires d in duplicates && duplicates[d].original in done
      modifies duplicates[d].rep
      ensures Complete(queue, done, sim, view, pending.Keys)
      ensures raw' == raw[d := duplicates[d].rep] && FilledFor(d, raw')
      ensures forall e | e in duplicates && e != d && old(FilledFor(e, raw)) :: FilledFor(e, raw')
    {
      hide Ordered, Copied, Own, SetCompare, WellFormed;
      Apart(view);
      DuplicateMatches(view, d);
      var source := queue[duplicates[d].original].rep;
      EvaluatedKeys(sim, Own(view, duplicates[d].original).x, source.wants);
      duplicates[d].rep.UpdateFrom(source);
      raw' := raw[d := duplicates[d].rep];
    }

    method FillDuplicates(done: seq<nat>, results: map<nat, Rep>) returns (raw: map<nat, Rep>)
      requires QueueAs(queue, pending, view) && DuplicatesAs(duplicates, pending, view) && Ordered(view)
      requires Complete(queue, done, sim, view, pending.Keys)
      requires results.Keys == (set i | 0 <= i < |done| :: done[i])
      requires forall id | id in results :: id in queue && results[id] == queue[id].rep
      modifies pending.Keys
      ensures Complete(queue, done, sim, view, pending.Keys) && Filled(raw, results, {})
    {
      hide Ordered, Complete, QueueAs, DuplicatesAs, Filled;
      raw := results;
      StartFilled(results);
      var todo := duplicates.Keys;
      while todo != {}
        invariant todo <= duplicates.Keys && Filled(raw, results, todo)
        invariant Complete(queue, done, sim, view, pending.Keys)
      {
        var d :| d in todo;
        raw := FillNext(d, done, raw, results, todo);
        todo := todo - {d};
      }
    }

    lemma StartFilled(results: map<nat, Rep>)
      ensures Filled(results, results, duplicates.Keys)
    {}

    /** One round of the loop over the duplicates. */
    method FillNext(d: nat, ghost done: seq<nat>, raw: map<nat, Rep>, results: map<nat, Rep>, ghost todo: set<nat>)
      returns (raw': map<nat, Rep>)
      requires QueueAs(queue, pending, view) && DuplicatesAs(duplicates, pending, view) && Ordered(view)
      requires Complete(queue, done, sim, view, pending.Keys) && d in todo && todo <= duplicates.Keys
      requires results.Keys == (set i | 0 <= i < |done| :: done[i]) && results.Keys <= queue.Keys
      requires Filled(raw, results, todo)
      modifies pending.Keys
      ensures Complete(queue, done, sim, view, pending.Keys) && Filled(raw', results, todo - {d})
    {
      hide Ordered, Complete, QueueAs, DuplicatesAs, FilledFor, Includes;
      raw' := raw;
      Apart(view);
      QueueFacts(queue, pending, view);
      DuplicateFacts(duplicates, pending, view);
      if duplicates[d].original in results {
        IncludesMore(raw, results, d, duplicates[d].rep);
        raw' := FillOne(d, done, raw);
      }
    }

    /** Fill the objects of the finished jobs and of their duplicates, and put them with
        the history duplicates. */
    method GatherResults(done: seq<nat>) returns (raw: map<nat, Rep>)
      requires Valid() && Enabled(caching, view, Synch(done))
      modifies `cache, pending.Keys
      ensures HandsOut(raw, view, done, settled + NowSettled(pending, Handed(view, done)))
      ensures raw.Keys == Handed(view, done)
      ensures CacheAs(cache, settled + NowSettled(pending, Handed(view, done)),
              Next(caching, sim, view, Synch(done)).cache)
    {
      hide Ordered, QueueAs, DuplicatesAs, CacheAs, HistoryAs, Complete, Full, Filled, HandsOut, Next, Handed,
        StillPending, NowSettled;
      ghost var stored := cache;
      assert forall i | 0 <= i < |done| :: done[i] in view.queue;
      var results := FileResults(done);
      raw := FillDuplicates(done, results);
      AllHandedOut(raw, results, done);
      raw := raw + history;
      CacheFiled(stored, queue, pending, settled, sim, view, done);
      SynchParts(caching, sim, view, done);
    }

    /** synchronize_nowait, for whatever jobs the scheduler found complete: returns the
        results of these, of their duplicates and of the history duplicates. */
    method SynchronizeNowait(done: seq<nat>) returns (raw: map<nat, Rep>)
      requires Valid() && Enabled(caching, view, Synch(done))
      modifies this, pending.Keys
      ensures Valid() && view == Next(caching, sim, old(view), Synch(done))
      ensures settled <= old(settled) + old(pending).Keys && pending.Keys <= old(pending).Keys
      ensures HandsOut(raw, old(view), done, settled)
    {
      hide Ordered, QueueAs, DuplicatesAs, CacheAs, HistoryAs, Full, HandsOut, Next, Handed, StillPending, NowSettled,
        Enabled;
      ghost var was := view;
      SynchAsks(caching, was, done);
      raw := GatherResults(done);
      QueueShrinks(queue, pending, caching, sim, was, done);
      DuplicatesShrink(duplicates, pending, caching, sim, was, done);
      SplitPending(pending, settled, Handed(was, done));
      history, queue, duplicates := map[], queue - raw.Keys, duplicates - raw.Keys;
      SettleObjects(done);
    }

    /** Move the objects that were handed out to the settled ones. */
    ghost method SettleObjects(done: seq<nat>)
      requires Ordered(view) && Enabled(caching, view, Synch(done)) && Full(view.cache) && pending.Keys !! settled
      requires evalIdCntr == |view.requests| && history == map[]
      requires CacheAs(cache, settled + NowSettled(pending, Handed(view, done)),
               Next(caching, sim, view, Synch(done)).cache)
      requires QueueAs(queue, StillPending(pending, Handed(view, done)), Next(caching, sim, view, Synch(done)))
      requires DuplicatesAs(duplicates, StillPending(pending, Handed(view, done)),
               Next(caching, sim, view, Synch(done)))
      modifies `view, `settled, `pending
      ensures Valid() && view == Next(caching, sim, old(view), Synch(done))
      ensures settled == old(settled) + NowSettled(old(pending), Handed(old(view), done))
      ensures pending == StillPending(old(pending), Handed(old(view), done))
    {
      hide Ordered, QueueAs, DuplicatesAs, CacheAs, HistoryAs, Full, Next, Handed, StillPending, NowSettled;
      OrderedStep(caching, sim, view, Synch(done));
      FullStep(caching, sim, view, Synch(done));
      SynchParts(caching, sim, view, done);
      ghost var gone := Handed(view, done);
      SplitPending(pending, settled, gone);
      NoHistory(settled + NowSettled(pending, gone));
      view := Next(caching, sim, view, Synch(done));
      settled, pending := settled + NowSettled(pending, gone), StillPending(pending, gone);
    }

    /** synchronize: wait for the whole queue, return everything and start afresh. */
    method Synchronize(done: seq<nat>) returns (raw: map<nat, Rep>)
      requires Valid() && Enabled(caching, view, Synch(done)) && forall id | id in queue :: id in done
      modifies this, pending.Keys
      ensures Valid() && view == Next(caching, sim, old(view), Synch(done))
      ensures settled <= old(settled) + old(pending).Keys && pending.Keys <= old(pending).Keys
      ensures HandsOut(raw, old(view), done, settled)
      ensures queue == map[] && history == map[] && duplicates == map[]
    {
      hide Ordered, QueueAs, DuplicatesAs, CacheAs, HistoryAs, Full, HandsOut, Next, Handed, StillPending, NowSettled,
        Enabled, Anchored;
      ghost var was := view;
      OrderedFacts(was);
      SynchAsks(caching, was, done);
      QueueFacts(queue, pending, was);
      raw := GatherResults(done);
      NothingKept(queue, duplicates, pending, caching, sim, was, done);
      SplitPending(pending, settled, Handed(was, done));
      history, queue, duplicates := map[], map[], map[];
      SettleObjects(done);
    }

    /** A synchronous evaluation whose record matches. */
    method ReuseNow(x: Point, wants: ActiveSet, k: nat) returns (response: Response)
      requires Valid() && Enabled(caching, view, HitNow(Job(x, wants), k))
      modifies this
      ensures Valid() && view == Next(caching, sim, old(view), HitNow(Job(x, wants), k))
      ensures settled == old(settled) && pending == old(pending)
      ensures evalIdCntr in view.returned && response == view.returned[evalIdCntr]
      ensures HitLeaves(old(cache), cache, k, evalIdCntr)
      ensures queue == old(queue) && duplicates == old(duplicates) && history == old(history)
    {
      hide Ordered, QueueAs, DuplicatesAs, CacheAs, HistoryAs, FromCache, Promote, PromoteStored, HitLeaves, Full;
      var job := Job(x, wants);
      ghost var was := view;
      OrderedFacts(was);
      OrderedStep(caching, sim, was, HitNow(job, k));
      FullStep(caching, sim, was, HitNow(job, k));
      SameLength(cache, settled, was.cache);
      IdsBelow(cache, settled, was);
      HitLeavesThis(cache, k, evalIdCntr + 1);
      var id := evalIdCntr + 1;
      var rep := CopyRecord(x, wants, k);
      ghost var now := Next(caching, sim, was, HitNow(job, k));
      CachePromoted(cache, settled, was.cache, k, id);
      QueueGrows(queue, pending, was, now, job, rep);
      DuplicatesGrow(duplicates, pending, was, now, job, rep, 0);
      evalIdCntr, cache, view := id, PromoteStored(cache, k, id), now;
      response := rep.Value();
    }

    /** A synchronous evaluation of a new point; the cache gets a copy of its own. */
    method RunNow(x: Point, wants: ActiveSet) returns (response: Response)
      requires Valid() && Enabled(caching, view, EvaluateNow(Job(x, wants)))
      modifies this
      ensures Valid() && view == Next(caching, sim, old(view), EvaluateNow(Job(x, wants)))
      ensures settled >= old(settled) && fresh(settled - old(settled)) && pending == old(pending)
      ensures evalIdCntr in view.returned && response == view.returned[evalIdCntr]
      ensures queue == old(queue) && duplicates == old(duplicates) && history == old(history)
    {
      hide Ordered, QueueAs, DuplicatesAs, CacheAs, HistoryAs, Full, Evaluate, Enabled;
      var job := Job(x, wants);
      ghost var was := view;
      OrderedFacts(was);
      OrderedStep(caching, sim, was, EvaluateNow(job));
      FullStep(caching, sim, was, EvaluateNow(job));
      var id := evalIdCntr + 1;
      var rep := new Rep(wants, Evaluate(sim, x, wants));
      ghost var now := Next(caching, sim, was, EvaluateNow(job));
      CacheAdds(cache, settled, was.cache, rep, id, x);
      HistoryAdds(history, settled, was.history, id, rep);
      QueueGrows(queue, pending, was, now, job, rep);
      DuplicatesGrow(duplicates, pending, was, now, job, rep, 0);
      evalIdCntr, view := id, now;
      if caching {
        cache, settled := cache + [Stored(id, Pair(x, rep))], settled + {rep};
      }
      response := rep.Value();
    }

    /** map: file an asynchronous request as a history duplicate, a queue duplicate or a
        new job. */
    method MapAsynch(x: Point, wants: ActiveSet) returns (ghost call: Call)
      requires Valid() && WellFormed(wants)
      modifies this
      ensures Valid() && !call.Synch? && call.job == Job(x, wants) && (call.New? || call.Hit? || call.Queued?)
      ensures Enabled(caching, old(view), call) && view == Next(caching, sim, old(view), call)
      ensures fresh(settled - old(settled)) && evalIdCntr == old(evalIdCntr) + 1
      ensures call.Hit? == (caching && CacheCovers(old(cache), Job(x, wants)))
      ensures call.New? == (!caching
              || (!CacheCovers(old(cache), Job(x, wants)) && !QueueCovers(old(queue), Job(x, wants))))
      ensures if call.Hit? then HitLeaves(old(cache), cache, call.k, evalIdCntr) else cache == old(cache)
      ensures queue.Keys == old(queue).Keys + (if call.New? then {evalIdCntr} else {})
      ensures history.Keys == old(history).Keys + (if call.Hit? then {evalIdCntr} else {})
      ensures duplicates.Keys == old(duplicates).Keys + (if call.Queued? then {evalIdCntr} else {})
    {
      hide Ordered, QueueAs, DuplicatesAs, CacheAs, HistoryAs, Full, Next, Matches, CacheHas, QueueHas, WellFormed,
        CacheCovers, QueueCovers, Covers, HitLeaves;
      var job := Job(x, wants);
      if caching {
        var found, at := FindInCache(x, wants);
        if found {
          call := Hit(job, at);
          CountsUp(caching, sim, view, call);
          AddHistory(x, wants, at);
          return;
        }
        var queued, original := FindInQueue(x, wants);
        if queued {
          call := Queued(job, original);
          CountsUp(caching, sim, view, call);
          InQueue(queue, pending, view, original);
          AddDuplicate(x, wants, original);
          return;
        }
      }
      call := New(job);
      CountsUp(caching, sim, view, call);
      AddToQueue(x, wants);
    }

    /** map: a synchronous request is answered at once. */
    method MapSynch(x: Point, wants: ActiveSet) returns (response: Response, ghost call: Call)
      requires Valid() && WellFormed(wants)
      modifies this
      ensures Valid() && !call.Synch? && call.job == Job(x, wants) && (call.EvaluateNow? || call.HitNow?)
      ensures Enabled(caching, old(view), call) && view == Next(caching, sim, old(view), call)
      ensures fresh(settled - old(settled)) && evalIdCntr == old(evalIdCntr) + 1
      ensures evalIdCntr in view.returned && response == view.returned[evalIdCntr]
      ensures call.HitNow? == (caching && CacheCovers(old(cache), Job(x, wants)))
      ensures call.HitNow? ==> HitLeaves(old(cache), cache, call.k, evalIdCntr)
      ensures queue == old(queue) && duplicates == old(duplicates) && history == old(history)
    {
      hide Ordered, QueueAs, DuplicatesAs, CacheAs, HistoryAs, Full, Next, Matches, CacheHas, QueueHas, WellFormed,
        CacheCovers, QueueCovers, Covers, HitLeaves;
      var job := Job(x, wants);
      if caching {
        var found, at := FindInCache(x, wants);
        if found {
          call := HitNow(job, at);
          CountsUp(caching, sim, view, call);
          response := ReuseNow(x, wants, at);
          return;
        }
      }
      call := EvaluateNow(job);
      CountsUp(caching, sim, view, call);
      response := RunNow(x, wants);
    }
  }
}
