/**
  What the evaluation engine does, on values: every request gets the next evaluation id
  and is filed as a duplicate of a finished evaluation, a duplicate of a queued one or a
  new job; synchronization hands results back by id.
 */
module EngineSpec {
  import opened Common
  import opened Responses

  datatype Job = Job(x: Point, wants: ActiveSet)

  /** A record of the evaluation cache.  Records from a restart file have id <= 0. */
  datatype Record = Record(id: int, job: Job, data: Data)

  /** requests[id - 1] is what evaluation id asked for. */
  datatype State = State(
    requests: seq<Job>, cache: seq<Record>, queue: set<nat>,
    history: map<nat, Response>, duplicates: map<nat, nat>, returned: map<nat, Response>)

  datatype Call =
    | New(job: Job)
    | Hit(job: Job, k: nat)
    | Queued(job: Job, original: nat)
    | EvaluateNow(job: Job)
    | HitNow(job: Job, k: nat)
    | Synch(done: seq<nat>)

  predicate Matches(stored: Job, search: Job) {
    stored.x == search.x && SetCompare(stored.wants, search.wants)
  }

  /** One job asks, at the same point and for as many functions, for all that another asks
      for: every bit set there is set here, and the derivative variables asked for there are
      listed here. */
  ghost predicate Covers(stored: Job, search: Job) {
    var a, b := stored.wants, search.wants;
    && stored.x == search.x && |a.asv| == |b.asv|
    && (forall f | 0 <= f < |b.asv| && b.asv[f].value :: a.asv[f].value)
    && (forall f | 0 <= f < |b.asv| && b.asv[f].gradient :: a.asv[f].gradient)
    && (forall f | 0 <= f < |b.asv| && b.asv[f].hessian :: a.asv[f].hessian)
    && (forall f, v | 0 <= f < |b.asv| && (b.asv[f].gradient || b.asv[f].hessian) && v in b.dvv :: v in a.dvv)
  }

  lemma MatchesCovers(stored: Job, search: Job)
    ensures Matches(stored, search) <==> Covers(stored, search)
  {
    var a, b := stored.wants, search.wants;
    if Matches(stored, search) {
      forall f | 0 <= f < |b.asv| ensures Implied(b.asv[f], a.asv[f]) {}
    }
    if Covers(stored, search) && HasDerivatives(b) {
      var f :| 0 <= f < |b.asv| && (b.asv[f].gradient || b.asv[f].hessian);
      forall j | 0 <= j < |b.dvv| ensures b.dvv[j] in a.dvv { assert b.dvv[j] in b.dvv; }
    }
  }

  lemma CoversOn(a: Job, b: Job, c: Job)
    requires Covers(a, b) && Covers(b, c)
    ensures Covers(a, c)
  {}

  predicate CacheHas(cache: seq<Record>, job: Job) {
    exists k :: 0 <= k < |cache| && Matches(cache[k].job, job)
  }

  predicate QueueHas(s: State, job: Job) {
    exists id :: id in s.queue && Matches(Own(s, id), job)
  }

  function Own(s: State, id: nat): Job {
    if 1 <= id <= |s.requests| then s.requests[id - 1] else Job([], ActiveSet([], []))
  }

  /** What a call does is decided by the cache and the queue; `caching` is off when the
      user deactivates the evaluation cache. */
  predicate Enabled(caching: bool, s: State, c: Call) {
    match c
    case New(job) => WellFormed(job.wants) && (caching ==> !CacheHas(s.cache, job) && !QueueHas(s, job))
    case Hit(job, k) => WellFormed(job.wants) && caching && k < |s.cache| && Matches(s.cache[k].job, job)
    case Queued(job, o) => WellFormed(job.wants) && caching && !CacheHas(s.cache, job) && o in s.queue
      && Matches(Own(s, o), job)
    case EvaluateNow(job) => WellFormed(job.wants) && (caching ==> !CacheHas(s.cache, job))
    case HitNow(job, k) => WellFormed(job.wants) && caching && k < |s.cache| && Matches(s.cache[k].job, job)
    case Synch(done) => Distinct(done) && forall i | 0 <= i < |done| :: done[i] in s.queue
  }

  function Evaluated(sim: Simulation, job: Job): Response {
    Response(job.wants, Evaluate(sim, job.x, job.wants))
  }

  function Copied(wants: ActiveSet, source: Response): Response {
    Response(wants, match Update(wants, source) case Some(d) => d case None => map[])
  }

  function FromCache(job: Job, r: Record): Response {
    Copied(job.wants, Response(r.job.wants, r.data))
  }

  /** A restart record that is used gets the id of the evaluation that used it. */
  function Promote(cache: seq<Record>, k: nat, id: nat): seq<Record> {
    if k < |cache| && cache[k].id <= 0 then cache[..k] + cache[k + 1..] + [cache[k].(id := id)] else cache
  }

  function Filed(s: State, sim: Simulation, done: seq<nat>): seq<Record> {
    seq(|done|, i requires 0 <= i < |done| => Record(done[i], Own(s, done[i]), Evaluated(sim, Own(s, done[i])).data))
  }

  /** The ids a synchronization hands back, and what it hands back for each. */
  predicate HandsBack(s: State, done: seq<nat>, id: nat) {
    id in done || id in s.history || (id in s.duplicates && s.duplicates[id] in done)
  }

  function Result(s: State, sim: Simulation, id: nat): Response {
    if id in s.history then s.history[id]
    else if id in s.duplicates then Copied(Own(s, id).wants, Evaluated(sim, Own(s, s.duplicates[id])))
    else Evaluated(sim, Own(s, id))
  }

  function Outstanding(s: State): set<nat> {
    s.queue + s.duplicates.Keys + s.history.Keys
  }

  function Next(caching: bool, sim: Simulation, s: State, c: Call): State {
    var id := |s.requests| + 1;
    match c
    case New(job) => s.(requests := s.requests + [job], queue := s.queue + {id})
    case Hit(job, k) =>
      if k >= |s.cache| then s
      else s.(requests := s.requests + [job], cache := Promote(s.cache, k, id),
              history := s.history[id := FromCache(job, s.cache[k])])
    case Queued(job, o) => s.(requests := s.requests + [job], duplicates := s.duplicates[id := o])
    case EvaluateNow(job) =>
      s.(requests := s.requests + [job],
         cache := if caching then s.cache + [Record(id, job, Evaluated(sim, job).data)] else s.cache,
         returned := s.returned[id := Evaluated(sim, job)])
    case HitNow(job, k) =>
      if k >= |s.cache| then s
      else s.(requests := s.requests + [job], cache := Promote(s.cache, k, id),
              returned := s.returned[id := FromCache(job, s.cache[k])])
    case Synch(done) =>
      s.(cache := if caching then s.cache + Filed(s, sim, done) else s.cache,
         queue := (set j | j in s.queue && j !in done),
         history := map[],
         duplicates := (map d | d in s.duplicates && s.duplicates[d] !in done :: s.duplicates[d]),
         returned := s.returned + (map j | j in Outstanding(s) && HandsBack(s, done, j) :: Result(s, sim, j)))
  }

  function Run(caching: bool, sim: Simulation, cache: seq<Record>, t: seq<Call>): State {
    if t == [] then State([], cache, {}, map[], map[], map[])
    else Next(caching, sim, Run(caching, sim, cache, t[..|t|-1]), t[|t|-1])
  }

  ghost predicate Legal(caching: bool, sim: Simulation, cache: seq<Record>, t: seq<Call>) {
    forall i | 0 <= i < |t| :: Enabled(caching, Run(caching, sim, cache, t[..i]), t[i])
  }

  function Places(s: State, id: nat): nat {
    Here(id in s.queue) + Here(id in s.history) + Here(id in s.duplicates) + Here(id in s.returned)
  }

  /** Every id issued is in exactly one place, and no other id is anywhere. */
  ghost predicate Conserved(s: State) {
    forall id: nat :: Places(s, id) == Here(1 <= id <= |s.requests|)
  }

  /** Every queue duplicate points at a queued job that has what it wants. */
  ghost predicate Anchored(s: State) {
    forall d | d in s.duplicates :: s.duplicates[d] in s.queue && Matches(Own(s, s.duplicates[d]), Own(s, d))
  }

  /** Cache ids: positive ones are distinct, were issued, and are not in the queue. */
  ghost predicate CacheIds(s: State) {
    && (forall i | 0 <= i < |s.cache| :: s.cache[i].id <= |s.requests|)
    && (forall i | 0 <= i < |s.cache| && s.cache[i].id > 0 :: s.cache[i].id !in s.queue)
    && (forall i, j | 0 <= i < j < |s.cache| && s.cache[i].id > 0 :: s.cache[i].id != s.cache[j].id)
  }

  ghost predicate AllWellFormed(s: State) {
    forall i | 0 <= i < |s.requests| :: WellFormed(s.requests[i].wants)
  }

  ghost predicate Ordered(s: State) {
    Conserved(s) && Anchored(s) && CacheIds(s) && AllWellFormed(s)
  }

  lemma ConservedStep(caching: bool, sim: Simulation, s: State, c: Call)
    requires Conserved(s) && Anchored(s) && Enabled(caching, s, c)
    ensures Conserved(Next(caching, sim, s, c))
  {
    hide CacheHas, QueueHas, Matches, WellFormed;
    var s' := Next(caching, sim, s, c);
    forall id: nat ensures Places(s', id) == Here(1 <= id <= |s'.requests|) {
      assert Places(s, id) == Here(1 <= id <= |s.requests|);
    }
  }

  lemma AnchoredStep(caching: bool, sim: Simulation, s: State, c: Call)
    requires Conserved(s) && Anchored(s) && Enabled(caching, s, c)
    ensures Anchored(Next(caching, sim, s, c))
  {
    hide CacheHas, QueueHas, WellFormed, SetCompare;
    var s' := Next(caching, sim, s, c);
    forall d | d in s'.duplicates
      ensures s'.duplicates[d] in s'.queue && Matches(Own(s', s'.duplicates[d]), Own(s', d))
    {
      assert Places(s, s'.duplicates[d]) == Here(1 <= s'.duplicates[d] <= |s.requests|);
      if d in s.duplicates {
        assert Places(s, d) == Here(1 <= d <= |s.requests|);
      }
    }
  }

  lemma PromotedIds(cache: seq<Record>, k: nat, id: nat)
    requires k < |cache| && id > 0
    requires forall i | 0 <= i < |cache| :: cache[i].id < id
    requires forall i, j | 0 <= i < j < |cache| && cache[i].id > 0 :: cache[i].id != cache[j].id
    ensures var c := Promote(cache, k, id);
            && (forall i | 0 <= i < |c| ::
                  c[i].id <= id && (c[i].id == id || exists j :: 0 <= j < |cache| && c[i] == cache[j]))
            && (forall i, j | 0 <= i < j < |c| && c[i].id > 0 :: c[i].id != c[j].id)
  {}

  lemma CacheIdsStep(caching: bool, sim: Simulation, s: State, c: Call)
    requires Conserved(s) && CacheIds(s) && Enabled(caching, s, c)
    ensures CacheIds(Next(caching, sim, s, c))
  {
    hide CacheHas, QueueHas, WellFormed, Matches, Promote, Filed;
    var id := |s.requests| + 1;
    assert Places(s, id) == 0;
    match c
    case New(job) =>
    case Queued(job, o) =>
    case EvaluateNow(job) =>
    case Hit(job, k) => HitIds(s, Next(caching, sim, s, c), k);
    case HitNow(job, k) => HitIds(s, Next(caching, sim, s, c), k);
    case Synch(done) => FiledIds(s, sim, done);
  }

  lemma HitIds(s: State, s': State, k: nat)
    requires CacheIds(s) && k < |s.cache| && |s.requests| + 1 !in s.queue
    requires s'.queue == s.queue && |s'.requests| == |s.requests| + 1
    requires s'.cache == Promote(s.cache, k, |s.requests| + 1)
    ensures CacheIds(s')
  {
    hide Promote;
    PromotedIds(s.cache, k, |s.requests| + 1);
  }

  lemma FiledIds(s: State, sim: Simulation, done: seq<nat>)
    requires Conserved(s) && CacheIds(s) && Distinct(done) && forall i | 0 <= i < |done| :: done[i] in s.queue
    ensures var c := s.cache + Filed(s, sim, done);
            && (forall i | 0 <= i < |c| :: c[i].id <= |s.requests|)
            && (forall i | 0 <= i < |c| && c[i].id > 0 :: c[i].id !in s.queue || c[i].id in done)
            && (forall i, j | 0 <= i < j < |c| && c[i].id > 0 :: c[i].id != c[j].id)
  {
    var c := s.cache + Filed(s, sim, done);
    forall i | |s.cache| <= i < |c| ensures c[i].id == done[i - |s.cache|] && 1 <= c[i].id <= |s.requests| {
      assert Places(s, done[i - |s.cache|]) >= 1;
    }
  }

  lemma OrderedStep(caching: bool, sim: Simulation, s: State, c: Call)
    requires Ordered(s) && Enabled(caching, s, c)
    ensures Ordered(Next(caching, sim, s, c))
  {
    ConservedStep(caching, sim, s, c);
    AnchoredStep(caching, sim, s, c);
    CacheIdsStep(caching, sim, s, c);
    hide Conserved, Anchored, CacheIds, CacheHas, QueueHas, Matches;
  }

  ghost predicate FromRestart(cache: seq<Record>) {
    forall i | 0 <= i < |cache| :: cache[i].id <= 0
  }

  lemma RestartOrdered(cache: seq<Record>)
    requires FromRestart(cache)
    ensures Ordered(State([], cache, {}, map[], map[], map[]))
  {}

  lemma LegalPrefix(caching: bool, sim: Simulation, cache: seq<Record>, t: seq<Call>, k: nat)
    requires Legal(caching, sim, cache, t) && k <= |t|
    ensures Legal(caching, sim, cache, t[..k])
  {
    forall i | 0 <= i < k ensures Enabled(caching, Run(caching, sim, cache, t[..k][..i]), t[..k][i]) {
      assert t[..k][..i] == t[..i];
    }
  }

  /** Over every sequence of calls: no id is lost, repeated or in two places, every queue
      duplicate has a live original, and the positive ids of the cache are distinct. */
  lemma {:induction false} RunsAreOrdered(caching: bool, sim: Simulation, cache: seq<Record>, t: seq<Call>)
    requires FromRestart(cache) && Legal(caching, sim, cache, t)
    ensures Ordered(Run(caching, sim, cache, t))
  {
    hide Ordered, Next, Enabled, FromRestart;
    if t == [] {
      RestartOrdered(cache);
    } else {
      LegalPrefix(caching, sim, cache, t, |t| - 1);
      RunsAreOrdered(caching, sim, cache, t[..|t|-1]);
      OrderedStep(caching, sim, Run(caching, sim, cache, t[..|t|-1]), t[|t|-1]);
    }
  }

  /** What has been returned stays as it is: no id is returned a second time. */
  lemma {:induction false} ReturnedOnce(caching: bool, sim: Simulation, cache: seq<Record>, t: seq<Call>, k: nat,
      id: nat)
    requires FromRestart(cache) && Legal(caching, sim, cache, t) && k <= |t|
    requires id in Run(caching, sim, cache, t[..k]).returned
    ensures id in Run(caching, sim, cache, t).returned
    ensures Run(caching, sim, cache, t).returned[id] == Run(caching, sim, cache, t[..k]).returned[id]
    ensures k < |t| && t[k].Synch? ==> id !in Outstanding(Run(caching, sim, cache, t[..k]))
    decreases |t|
  {
    hide Ordered, Next, Enabled, Outstanding, FromRestart, Legal;
    if k < |t| {
      var u := t[..|t|-1];
      LastEnabled(caching, sim, cache, t);
      assert u[..k] == t[..k];
      LegalPrefix(caching, sim, cache, t, |t| - 1);
      ReturnedOnce(caching, sim, cache, u, k, id);
      RunsAreOrdered(caching, sim, cache, u);
      StaysReturned(caching, sim, Run(caching, sim, cache, u), t[|t|-1], id);
      LegalPrefix(caching, sim, cache, t, k);
      RunsAreOrdered(caching, sim, cache, t[..k]);
      NotOutstanding(Run(caching, sim, cache, t[..k]), id);
    } else {
      assert t[..k] == t;
    }
  }

  lemma LastEnabled(caching: bool, sim: Simulation, cache: seq<Record>, t: seq<Call>)
    requires Legal(caching, sim, cache, t) && t != []
    ensures Enabled(caching, Run(caching, sim, cache, t[..|t|-1]), t[|t|-1])
  {}

  lemma NotOutstanding(s: State, id: nat)
    requires Ordered(s) && id in s.returned
    ensures id !in Outstanding(s)
  {
    assert Places(s, id) <= 1;
  }

  lemma StaysReturned(caching: bool, sim: Simulation, s: State, c: Call, id: nat)
    requires Ordered(s) && Enabled(caching, s, c) && id in s.returned
    ensures id in Next(caching, sim, s, c).returned && Next(caching, sim, s, c).returned[id] == s.returned[id]
  {
    hide Anchored, CacheIds, AllWellFormed, CacheHas, QueueHas, Matches;
    assert Places(s, id) <= 1;
    assert Places(s, |s.requests| + 1) == 0;
  }

  /** A synchronization that waits for the whole queue returns everything. */
  lemma BlockingReturnsAll(caching: bool, sim: Simulation, s: State, done: seq<nat>)
    requires Ordered(s) && Enabled(caching, s, Synch(done)) && forall j | j in s.queue :: j in done
    ensures var s' := Next(caching, sim, s, Synch(done));
            && s'.queue == {} && s'.history == map[] && s'.duplicates == map[]
            && forall id: nat :: id in s'.returned <==> 1 <= id <= |s.requests|
  {
    var s' := Next(caching, sim, s, Synch(done));
    OrderedStep(caching, sim, s, Synch(done));
    forall id: nat ensures id in s'.returned <==> 1 <= id <= |s.requests| {
      assert Places(s', id) == Here(1 <= id <= |s'.requests|);
    }
  }

  /** One record has a new id in place of its own, and it is the only one with that id; the
      others are as they were. */
  ghost predicate Reissued(cache: seq<Record>, now: seq<Record>, r: Record, id: nat) {
    && multiset(now) == multiset(cache) - multiset{r} + multiset{Record(id, r.job, r.data)}
    && exists i ::
         && 0 <= i < |now| && now[i] == Record(id, r.job, r.data)
         && forall j | 0 <= j < |now| && j != i :: now[j].id != id
  }

  /** A hit on a record from a restart file gives that one record the id of the evaluation
      that hit it; a hit on any other record changes nothing. */
  lemma HitReissues(caching: bool, sim: Simulation, s: State, c: Call)
    requires Ordered(s) && Enabled(caching, s, c) && (c.Hit? || c.HitNow?)
    ensures var r, now := s.cache[c.k], Next(caching, sim, s, c).cache;
            if r.id <= 0 then Reissued(s.cache, now, r, |s.requests| + 1) else now == s.cache
  {
    hide Conserved, Anchored, AllWellFormed, Matches, Reissued, FromCache;
    if s.cache[c.k].id <= 0 { PromoteReissues(s.cache, c.k, |s.requests| + 1); }
  }

  lemma PromoteReissues(cache: seq<Record>, k: nat, id: nat)
    requires k < |cache| && cache[k].id <= 0 && forall i | 0 <= i < |cache| :: cache[i].id < id
    ensures Reissued(cache, Promote(cache, k, id), cache[k], id)
  {
    var r, now := cache[k], Promote(cache, k, id);
    assert cache == cache[..k] + [r] + cache[k + 1..];
    assert now == cache[..k] + cache[k + 1..] + [r.(id := id)];
    assert now[|now|-1] == Record(id, r.job, r.data);
    forall j | 0 <= j < |now| && j != |now| - 1 ensures now[j].id != id {
      assert now[j] == cache[if j < k then j else j + 1];
    }
  }

  /** Some record of the cache has what a job asks for. */
  ghost predicate Recorded(cache: seq<Record>, job: Job) {
    exists k :: 0 <= k < |cache| && Covers(cache[k].job, job)
  }

  /** Whatever was asked for before is in the cache or on its way: a record, or a queued job,
      has all that it asks for. */
  ghost predicate Remembered(s: State) {
    forall id | 1 <= id <= |s.requests| :: RememberedAt(s, id)
  }

  ghost predicate RememberedAt(s: State, id: nat) {
    if id in s.queue then true
    else if id in s.duplicates then s.duplicates[id] in s.queue && Covers(Own(s, s.duplicates[id]), Own(s, id))
    else Recorded(s.cache, Own(s, id))
  }

  ghost predicate HasJob(cache: seq<Record>, job: Job) {
    exists i :: 0 <= i < |cache| && cache[i].job == job
  }

  /** What the cache has it keeps. */
  ghost predicate KeepsJobs(cache: seq<Record>, cache': seq<Record>) {
    forall k | 0 <= k < |cache| :: HasJob(cache', cache[k].job)
  }

  lemma StillRecorded(cache: seq<Record>, cache': seq<Record>, job: Job)
    requires KeepsJobs(cache, cache') && Recorded(cache, job)
    ensures Recorded(cache', job)
  {
    hide Covers;
    var k :| 0 <= k < |cache| && Covers(cache[k].job, job);
    var i :| 0 <= i < |cache'| && cache'[i].job == cache[k].job;
  }

  lemma PromoteKeepsJobs(cache: seq<Record>, k: nat, id: nat)
    ensures KeepsJobs(cache, Promote(cache, k, id))
  {
    var c := Promote(cache, k, id);
    forall i | 0 <= i < |cache| ensures HasJob(c, cache[i].job) {
      var j := if k >= |cache| || cache[k].id > 0 || i < k then i else if i == k then |c| - 1 else i - 1;
      assert c[j].job == cache[i].job;
    }
  }

  lemma AppendKeepsJobs(a: seq<Record>, b: seq<Record>)
    ensures KeepsJobs(a, a + b)
  {
    forall i | 0 <= i < |a| ensures HasJob(a + b, a[i].job) {
      assert (a + b)[i].job == a[i].job;
    }
  }

  lemma CacheKeepsJobs(caching: bool, sim: Simulation, s: State, c: Call)
    ensures KeepsJobs(s.cache, Next(caching, sim, s, c).cache)
  {
    hide KeepsJobs, Promote, Filed;
    AppendKeepsJobs(s.cache, []);
    assert s.cache + [] == s.cache;
    match c
    case EvaluateNow(job) => AppendKeepsJobs(s.cache, [Record(|s.requests| + 1, job, Evaluated(sim, job).data)]);
    case Hit(job, k) => PromoteKeepsJobs(s.cache, k, |s.requests| + 1);
    case HitNow(job, k) => PromoteKeepsJobs(s.cache, k, |s.requests| + 1);
    case Synch(done) => AppendKeepsJobs(s.cache, Filed(s, sim, done));
    case New(job) =>
    case Queued(job, o) =>
  }

  lemma CoversSelf(job: Job)
    ensures Covers(job, job)
  {}

  /** The request of a call is remembered. */
  lemma RemembersNew(sim: Simulation, s: State, c: Call)
    requires Ordered(s) && Enabled(true, s, c) && !c.Synch?
    ensures RememberedAt(Next(true, sim, s, c), |s.requests| + 1)
  {
    hide Covers, Matches, CacheHas, QueueHas, Anchored, CacheIds, AllWellFormed, Promote, Recorded;
    var s' := Next(true, sim, s, c);
    OwnOutstanding(s, s', c.job);
    match c
    case New(job) =>
    case Queued(job, o) => MatchesCovers(Own(s, o), job);
    case EvaluateNow(job) => RecordsAppended(s.cache, Record(|s.requests| + 1, job, Evaluated(sim, job).data));
    case Hit(job, k) => RecordsHit(s, job, k);
    case HitNow(job, k) => RecordsHit(s, job, k);
  }

  lemma RecordsAppended(cache: seq<Record>, r: Record)
    ensures Recorded(cache + [r], r.job)
  {
    CoversSelf(r.job);
    assert (cache + [r])[|cache|].job == r.job;
  }

  lemma RecordsHit(s: State, job: Job, k: nat)
    requires k < |s.cache| && Matches(s.cache[k].job, job)
    ensures Recorded(Promote(s.cache, k, |s.requests| + 1), job)
  {
    hide Covers, Matches, Promote;
    MatchesCovers(s.cache[k].job, job);
    PromoteKeepsJobs(s.cache, k, |s.requests| + 1);
    StillRecorded(s.cache, Promote(s.cache, k, |s.requests| + 1), job);
  }

  lemma RememberedStep(sim: Simulation, s: State, c: Call)
    requires Ordered(s) && Enabled(true, s, c) && Remembered(s)
    ensures Remembered(Next(true, sim, s, c))
  {
    hide RememberedAt, Ordered, Enabled;
    var s' := Next(true, sim, s, c);
    if !c.Synch? { RemembersNew(sim, s, c); }
    forall id: nat | 1 <= id <= |s.requests| ensures RememberedAt(s', id) {
      if c.Synch? { RemembersDone(sim, s, c.done, id); } else { RemembersOld(sim, s, c, id); }
    }
    CallCounts(sim, s, c);
  }

  lemma CallCounts(sim: Simulation, s: State, c: Call)
    requires Enabled(true, s, c)
    ensures |Next(true, sim, s, c).requests| == |s.requests| + (if c.Synch? then 0 else 1)
  {}

  lemma RemembersOld(sim: Simulation, s: State, c: Call, id: nat)
    requires Ordered(s) && Enabled(true, s, c) && !c.Synch? && 1 <= id <= |s.requests| && RememberedAt(s, id)
    ensures RememberedAt(Next(true, sim, s, c), id)
  {
    hide Covers, Matches, CacheHas, QueueHas, Anchored, CacheIds, AllWellFormed, Promote, Recorded, KeepsJobs;
    var s' := Next(true, sim, s, c);
    OwnOutstanding(s, s', c.job);
    CacheKeepsJobs(true, sim, s, c);
    assert Own(s', id) == Own(s, id);
    if id !in s.queue && id !in s.duplicates { StillRecorded(s.cache, s'.cache, Own(s, id)); }
  }

  /** A synchronization moves what it hands back into the cache. */
  lemma RemembersDone(sim: Simulation, s: State, done: seq<nat>, id: nat)
    requires Ordered(s) && RememberedAt(s, id) && 1 <= id <= |s.requests|
    ensures RememberedAt(Next(true, sim, s, Synch(done)), id)
  {
    hide Covers, Recorded, KeepsJobs, Ordered, Filed;
    var s' := Next(true, sim, s, Synch(done));
    CacheKeepsJobs(true, sim, s, Synch(done));
    Apart(s);
    if id in s.queue {
      if id in done { RecordsDone(s, sim, done, id, Own(s, id)); }
    } else if id in s.duplicates {
      if s.duplicates[id] in done { RecordsDone(s, sim, done, s.duplicates[id], Own(s, id)); }
    } else {
      StillRecorded(s.cache, s'.cache, Own(s, id));
    }
  }

  lemma RecordsDone(s: State, sim: Simulation, done: seq<nat>, o: nat, job: Job)
    requires o in done && (Own(s, o) == job || Covers(Own(s, o), job))
    ensures Recorded(s.cache + Filed(s, sim, done), job)
  {
    hide Covers;
    CoversSelf(job);
    var i :| 0 <= i < |done| && done[i] == o;
    assert (s.cache + Filed(s, sim, done))[|s.cache| + i].job == Own(s, o);
  }

  /** Nothing is run a second time: with the cache on, a job enters the queue only if no
      request before it and no restart record covers it, and a synchronous request is
      evaluated only if no finished evaluation and no restart record covers it. */
  lemma NothingRunsTwice(sim: Simulation, cache: seq<Record>, t: seq<Call>, c: Call)
    requires FromRestart(cache) && Legal(true, sim, cache, t) && Enabled(true, Run(true, sim, cache, t), c)
    requires c.New? || c.EvaluateNow?
    ensures forall k | 0 <= k < |cache| :: !Covers(cache[k].job, c.job)
    ensures var s := Run(true, sim, cache, t);
            forall i | 0 <= i < |s.requests| && (c.New? || i + 1 in s.returned || i + 1 in s.history) ::
              !Covers(s.requests[i], c.job)
  {
    var s := Run(true, sim, cache, t);
    hide Covers, Matches, Ordered, Remembered, KeepsJobs, Recorded, Next, Run, Legal, CacheHas, QueueHas;
    RunsAreOrdered(true, sim, cache, t);
    RunsRemember(sim, cache, t);
    NothingRecorded(s.cache, c.job);
    forall k | 0 <= k < |cache| ensures !Covers(cache[k].job, c.job) {
      if Covers(cache[k].job, c.job) { RecordedHere(cache, c.job, k); StillRecorded(cache, s.cache, c.job); }
    }
    forall i | 0 <= i < |s.requests| && (c.New? || i + 1 in s.returned || i + 1 in s.history)
      ensures !Covers(s.requests[i], c.job)
    {
      if Covers(s.requests[i], c.job) { StillCovered(s, c, i + 1); }
    }
  }

  /** What the cache has came from the restart file or was asked for. */
  ghost predicate Traceable(restart: seq<Record>, s: State) {
    forall k | 0 <= k < |s.cache| :: HasJob(restart, s.cache[k].job) || s.cache[k].job in s.requests
  }

  lemma TraceableStep(restart: seq<Record>, caching: bool, sim: Simulation, s: State, c: Call)
    requires Ordered(s) && Enabled(caching, s, c) && Traceable(restart, s)
    ensures Traceable(restart, Next(caching, sim, s, c))
  {
    hide HasJob, Matches, CacheHas, QueueHas, Anchored, CacheIds, AllWellFormed;
    if c.Synch? {
      forall i | 0 <= i < |c.done| ensures Own(s, c.done[i]) in s.requests {
        assert Places(s, c.done[i]) >= 1;
      }
    }
  }

  lemma {:induction false} RunsAreTraceable(caching: bool, sim: Simulation, cache: seq<Record>, t: seq<Call>)
    requires FromRestart(cache) && Legal(caching, sim, cache, t)
    ensures Traceable(cache, Run(caching, sim, cache, t))
  {
    hide Ordered, Next, Enabled, FromRestart, Legal, Traceable;
    if t == [] {
      TracesRestart(cache);
    } else {
      var u := t[..|t|-1];
      LegalPrefix(caching, sim, cache, t, |t| - 1);
      LastEnabled(caching, sim, cache, t);
      RunsAreTraceable(caching, sim, cache, u);
      RunsAreOrdered(caching, sim, cache, u);
      TraceableStep(cache, caching, sim, Run(caching, sim, cache, u), t[|t|-1]);
    }
  }

  lemma TracesRestart(cache: seq<Record>)
    ensures Traceable(cache, State([], cache, {}, map[], map[], map[]))
  {}

  /** With the cache on, an asynchronous request becomes a new job if and only if no request
      before it and no restart record covers it. */
  lemma NewIffUncovered(sim: Simulation, cache: seq<Record>, t: seq<Call>, c: Call)
    requires FromRestart(cache) && Legal(true, sim, cache, t) && Enabled(true, Run(true, sim, cache, t), c)
    requires c.New? || c.Hit? || c.Queued?
    ensures c.New? <==> (forall k | 0 <= k < |cache| :: !Covers(cache[k].job, c.job))
                        && (forall i | 0 <= i < |Run(true, sim, cache, t).requests| ::
                              !Covers(Run(true, sim, cache, t).requests[i], c.job))
  {
    hide Covers, Matches, Ordered, Traceable, Run, Legal, CacheHas, QueueHas, HasJob;
    var s := Run(true, sim, cache, t);
    match c
    case New(job) => NothingRunsTwice(sim, cache, t, c);
    case Hit(job, k) =>
      RunsAreTraceable(true, sim, cache, t);
      MatchesCovers(s.cache[k].job, job);
      TracedTo(cache, s, k);
    case Queued(job, o) =>
      RunsAreOrdered(true, sim, cache, t);
      MatchesCovers(Own(s, o), job);
      QueuedAsked(s, o);
  }

  lemma TracedTo(restart: seq<Record>, s: State, k: nat)
    requires Traceable(restart, s) && k < |s.cache|
    ensures (exists j :: 0 <= j < |restart| && restart[j].job == s.cache[k].job)
         || (exists i :: 0 <= i < |s.requests| && s.requests[i] == s.cache[k].job)
  {
    if HasJob(restart, s.cache[k].job) {
      var j :| 0 <= j < |restart| && restart[j].job == s.cache[k].job;
    }
  }

  lemma QueuedAsked(s: State, o: nat)
    requires Ordered(s) && o in s.queue
    ensures 1 <= o <= |s.requests| && Own(s, o) == s.requests[o - 1]
  {
    assert Places(s, o) >= 1;
  }

  lemma RecordedHere(cache: seq<Record>, job: Job, k: nat)
    requires k < |cache| && Covers(cache[k].job, job)
    ensures Recorded(cache, job)
  {}

  lemma NothingRecorded(cache: seq<Record>, job: Job)
    requires !CacheHas(cache, job)
    ensures !Recorded(cache, job)
  {
    hide Matches, Covers;
    forall k | 0 <= k < |cache| ensures !Covers(cache[k].job, job) { MatchesCovers(cache[k].job, job); }
  }

  /** A job that an earlier request covers is in the cache, or covered by a queued job. */
  lemma StillCovered(s: State, c: Call, id: nat)
    requires Ordered(s) && Remembered(s) && 1 <= id <= |s.requests|
    requires (c.New? || c.EvaluateNow?) && Covers(s.requests[id - 1], c.job)
    requires if c.New? then !QueueHas(s, c.job) else id in s.returned || id in s.history
    ensures Recorded(s.cache, c.job)
  {
    hide Covers, Matches, Conserved, Anchored, CacheIds, AllWellFormed;
    NotWaiting(s, id);
    assert RememberedAt(s, id);
    if id in s.queue {
      MatchesCovers(Own(s, id), c.job);
    } else if id in s.duplicates {
      CoversOn(Own(s, s.duplicates[id]), Own(s, id), c.job);
      MatchesCovers(Own(s, s.duplicates[id]), c.job);
    } else {
      var k :| 0 <= k < |s.cache| && Covers(s.cache[k].job, Own(s, id));
      CoversOn(s.cache[k].job, Own(s, id), c.job);
    }
  }

  lemma NotWaiting(s: State, id: nat)
    requires Ordered(s)
    ensures id in s.returned || id in s.history ==> id !in s.queue && id !in s.duplicates
  {
    assert Places(s, id) <= 1;
  }

  /** Over every run with the cache on, all requests are remembered. */
  lemma {:induction false} RunsRemember(sim: Simulation, cache: seq<Record>, t: seq<Call>)
    requires FromRestart(cache) && Legal(true, sim, cache, t)
    ensures Remembered(Run(true, sim, cache, t)) && KeepsJobs(cache, Run(true, sim, cache, t).cache)
  {
    hide Ordered, Next, Enabled, FromRestart, Legal, Remembered, KeepsJobs;
    if t == [] {
      NothingYet(cache);
    } else {
      var u, c := t[..|t|-1], t[|t|-1];
      LegalPrefix(true, sim, cache, t, |t| - 1);
      LastEnabled(true, sim, cache, t);
      RunsRemember(sim, cache, u);
      RunsAreOrdered(true, sim, cache, u);
      RememberedStep(sim, Run(true, sim, cache, u), c);
      CacheKeepsJobs(true, sim, Run(true, sim, cache, u), c);
      KeepsJobsOn(cache, Run(true, sim, cache, u).cache, Run(true, sim, cache, t).cache);
    }
  }

  lemma NothingYet(cache: seq<Record>)
    ensures Remembered(State([], cache, {}, map[], map[], map[])) && KeepsJobs(cache, cache)
  {
    AppendKeepsJobs(cache, []);
    assert cache + [] == cache;
  }

  lemma KeepsJobsOn(a: seq<Record>, b: seq<Record>, c: seq<Record>)
    requires KeepsJobs(a, b) && KeepsJobs(b, c)
    ensures KeepsJobs(a, c)
  {
    forall k | 0 <= k < |a| ensures HasJob(c, a[k].job) {
      var j :| 0 <= j < |b| && b[j].job == a[k].job;
    }
  }

  /** What the cache holds, without the ids. */
  function Contents(cache: seq<Record>): multiset<(Job, Data)> {
    if cache == [] then multiset{}
    else Contents(cache[..|cache|-1]) + multiset{(cache[|cache|-1].job, cache[|cache|-1].data)}
  }

  lemma {:induction false} ContentsOfSum(a: seq<Record>, b: seq<Record>)
    ensures Contents(a + b) == Contents(a) + Contents(b)
  {
    if b == [] {
      assert a + b == a;
    } else {
      assert (a + b)[..|a + b|-1] == a + b[..|b|-1];
      ContentsOfSum(a, b[..|b|-1]);
    }
  }

  /** Promoting a restart record loses nothing. */
  lemma PromoteKeepsContents(cache: seq<Record>, k: nat, id: nat)
    ensures Contents(Promote(cache, k, id)) == Contents(cache)
  {
    if k < |cache| && cache[k].id <= 0 {
      var r := [cache[k]];
      assert cache == cache[..k] + r + cache[k + 1..];
      ContentsOfSum(cache[..k] + r, cache[k + 1..]);
      ContentsOfSum(cache[..k], r);
      ContentsOfSum(cache[..k], cache[k + 1..]);
      ContentsOfSum(cache[..k] + cache[k + 1..], [cache[k].(id := id)]);
    }
  }

  /** No call removes anything from the cache. */
  lemma CacheOnlyGrows(caching: bool, sim: Simulation, s: State, c: Call)
    ensures Contents(s.cache) <= Contents(Next(caching, sim, s, c).cache)
  {
    hide Contents, Promote, Filed;
    match c
    case EvaluateNow(job) => AppendGrows(s.cache, [Record(|s.requests| + 1, job, Evaluated(sim, job).data)]);
    case Hit(job, k) => PromoteKeepsContents(s.cache, k, |s.requests| + 1);
    case HitNow(job, k) => PromoteKeepsContents(s.cache, k, |s.requests| + 1);
    case Synch(done) => AppendGrows(s.cache, Filed(s, sim, done));
    case New(job) =>
    case Queued(job, o) =>
  }

  lemma AppendGrows(a: seq<Record>, b: seq<Record>)
    ensures Contents(a) <= Contents(a + b)
  {
    ContentsOfSum(a, b);
  }

  /** Whatever is returned from now on, or already was, is what a plain evaluation of the
      request's own variables and active set gives. */
  ghost predicate Refines(sim: Simulation, s: State) {
    && (forall id | id in s.returned :: s.returned[id] == Evaluated(sim, Own(s, id)))
    && (forall id | id in s.history :: s.history[id] == Evaluated(sim, Own(s, id)))
    && Sound(sim, s.cache)
  }

  ghost predicate Sound(sim: Simulation, cache: seq<Record>) {
    forall i | 0 <= i < |cache| :: cache[i].data == Evaluated(sim, cache[i].job).data
  }

  /** Whenever one of these active sets can be taken from a response with another, their
      derivative variables are aligned. */
  ghost predicate Compatible(u: iset<ActiveSet>) {
    forall a, b | a in u && b in u && SetCompare(a, b) :: Aligned(a, b)
  }

  ghost predicate RecordsIn(u: iset<ActiveSet>, cache: seq<Record>) {
    forall i | 0 <= i < |cache| :: cache[i].job.wants in u
  }

  ghost predicate RequestsIn(u: iset<ActiveSet>, requests: seq<Job>) {
    forall i | 0 <= i < |requests| :: requests[i].wants in u
  }

  ghost predicate CallIn(u: iset<ActiveSet>, c: Call) {
    !c.Synch? ==> c.job.wants in u
  }

  ghost predicate CallsIn(u: iset<ActiveSet>, t: seq<Call>) {
    forall i | 0 <= i < |t| :: CallIn(u, t[i])
  }

  /** A copy from a sound, matching, aligned response is a plain evaluation. */
  lemma CopyIsEvaluation(u: iset<ActiveSet>, sim: Simulation, stored: Job, search: Job)
    requires Compatible(u) && stored.wants in u && search.wants in u
    requires Matches(stored, search) && WellFormed(search.wants)
    ensures Copied(search.wants, Evaluated(sim, stored)) == Evaluated(sim, search)
  {
    AlignedUpdate(sim, stored.wants, search.wants, search.x);
  }

  lemma HitIsEvaluation(u: iset<ActiveSet>, sim: Simulation, s: State, job: Job, k: nat)
    requires Compatible(u) && RecordsIn(u, s.cache) && Sound(sim, s.cache) && job.wants in u
    requires k < |s.cache| && Matches(s.cache[k].job, job) && WellFormed(job.wants)
    ensures FromCache(job, s.cache[k]) == Evaluated(sim, job)
    ensures Sound(sim, Promote(s.cache, k, |s.requests| + 1)) && RecordsIn(u, Promote(s.cache, k, |s.requests| + 1))
  {
    CopyIsEvaluation(u, sim, s.cache[k].job, job);
  }

  lemma SynchIsEvaluation(u: iset<ActiveSet>, sim: Simulation, s: State, id: nat)
    requires Compatible(u) && Ordered(s) && RequestsIn(u, s.requests) && Refines(sim, s) && id in Outstanding(s)
    ensures Result(s, sim, id) == Evaluated(sim, Own(s, id))
  {
    assert Places(s, id) >= 1;
    if id !in s.history && id in s.duplicates {
      var o := s.duplicates[id];
      assert Places(s, o) >= 1;
      CopyIsEvaluation(u, sim, Own(s, o), Own(s, id));
    }
  }

  lemma FiledIsSound(u: iset<ActiveSet>, sim: Simulation, s: State, done: seq<nat>)
    requires Conserved(s) && RequestsIn(u, s.requests) && forall i | 0 <= i < |done| :: done[i] in s.queue
    requires Sound(sim, s.cache) && RecordsIn(u, s.cache)
    ensures Sound(sim, s.cache + Filed(s, sim, done)) && RecordsIn(u, s.cache + Filed(s, sim, done))
  {
    forall i | 0 <= i < |done| ensures Own(s, done[i]).wants in u {
      assert Places(s, done[i]) >= 1;
    }
  }

  ghost predicate Faithful(u: iset<ActiveSet>, sim: Simulation, s: State) {
    Ordered(s) && Refines(sim, s) && RecordsIn(u, s.cache) && RequestsIn(u, s.requests)
  }

  lemma OwnStays(s: State, job: Job, id: nat)
    requires Conserved(s) && Places(s, id) >= 1
    ensures Own(s.(requests := s.requests + [job]), id) == Own(s, id)
  {}

  lemma IssueIsFaithful(u: iset<ActiveSet>, sim: Simulation, s: State, s': State, job: Job)
    requires Faithful(u, sim, s) && job.wants in u
    requires s'.requests == s.requests + [job] && Sound(sim, s'.cache) && RecordsIn(u, s'.cache)
    requires forall id | id in s'.returned :: (id in s.returned && s'.returned[id] == s.returned[id])
               || (id == |s.requests| + 1 && s'.returned[id] == Evaluated(sim, job))
    requires forall id | id in s'.history :: (id in s.history && s'.history[id] == s.history[id])
               || (id == |s.requests| + 1 && s'.history[id] == Evaluated(sim, job))
    ensures Refines(sim, s') && RequestsIn(u, s'.requests)
  {
    hide Anchored, CacheIds, AllWellFormed;
    forall id | id in s'.returned ensures s'.returned[id] == Evaluated(sim, Own(s', id)) {
      if id in s.returned { assert Places(s, id) >= 1; OwnStays(s, job, id); }
    }
    forall id | id in s'.history ensures s'.history[id] == Evaluated(sim, Own(s', id)) {
      if id in s.history { assert Places(s, id) >= 1; OwnStays(s, job, id); }
    }
  }

  lemma FaithfulStep(u: iset<ActiveSet>, caching: bool, sim: Simulation, s: State, c: Call)
    requires Compatible(u) && CallIn(u, c) && Faithful(u, sim, s) && Enabled(caching, s, c)
    ensures Faithful(u, sim, Next(caching, sim, s, c))
  {
    hide Ordered, Compatible, CacheHas, QueueHas, Matches, Sound, Evaluated, RecordsIn, FromCache;
    OrderedStep(caching, sim, s, c);
    var s' := Next(caching, sim, s, c);
    match c
    case New(job) => IssueIsFaithful(u, sim, s, s', job);
    case Queued(job, o) => IssueIsFaithful(u, sim, s, s', job);
    case EvaluateNow(job) =>
      AppendIsSound(u, sim, s.cache, Record(|s.requests| + 1, job, Evaluated(sim, job).data));
      IssueIsFaithful(u, sim, s, s', job);
    case Hit(job, k) =>
      HitIsEvaluation(u, sim, s, job, k);
      IssueIsFaithful(u, sim, s, s', job);
    case HitNow(job, k) =>
      HitIsEvaluation(u, sim, s, job, k);
      IssueIsFaithful(u, sim, s, s', job);
    case Synch(done) =>
      SynchIsFaithful(u, caching, sim, s, done);
  }

  lemma AppendIsSound(u: iset<ActiveSet>, sim: Simulation, cache: seq<Record>, r: Record)
    requires Sound(sim, cache) && RecordsIn(u, cache) && r.data == Evaluated(sim, r.job).data && r.job.wants in u
    ensures Sound(sim, cache + [r]) && RecordsIn(u, cache + [r])
  {}

  lemma SynchIsFaithful(u: iset<ActiveSet>, caching: bool, sim: Simulation, s: State, done: seq<nat>)
    requires Compatible(u) && Faithful(u, sim, s) && Enabled(caching, s, Synch(done))
    ensures var s' := Next(caching, sim, s, Synch(done));
            Refines(sim, s') && RecordsIn(u, s'.cache) && RequestsIn(u, s'.requests)
  {
    hide Compatible, Anchored, CacheIds, AllWellFormed, Conserved, Sound, RecordsIn, Evaluated;
    FiledIsSound(u, sim, s, done);
    var s' := Next(caching, sim, s, Synch(done));
    forall id | id in s'.returned ensures s'.returned[id] == Evaluated(sim, Own(s', id)) {
      if id in Outstanding(s) && HandsBack(s, done, id) {
        SynchIsEvaluation(u, sim, s, id);
      }
    }
  }

  /** The cached, deduplicated engine refines a plain evaluator: over every sequence of
      calls with compatible active sets, from any sound restart cache, each id gets back
      the evaluation of its own request. */
  lemma {:induction false} RunsRefine(u: iset<ActiveSet>, caching: bool, sim: Simulation, cache: seq<Record>,
      t: seq<Call>)
    requires Compatible(u) && FromRestart(cache) && Sound(sim, cache) && RecordsIn(u, cache)
    requires Legal(caching, sim, cache, t) && CallsIn(u, t)
    ensures Faithful(u, sim, Run(caching, sim, cache, t))
  {
    hide Faithful, Next, Enabled, Compatible, Sound, RecordsIn, FromRestart;
    if t == [] {
      StartIsFaithful(u, sim, cache);
    } else {
      LegalPrefix(caching, sim, cache, t, |t| - 1);
      RunsRefine(u, caching, sim, cache, t[..|t|-1]);
      assert CallIn(u, t[|t|-1]);
      FaithfulStep(u, caching, sim, Run(caching, sim, cache, t[..|t|-1]), t[|t|-1]);
    }
  }

  lemma StartIsFaithful(u: iset<ActiveSet>, sim: Simulation, cache: seq<Record>)
    requires FromRestart(cache) && Sound(sim, cache) && RecordsIn(u, cache)
    ensures Faithful(u, sim, State([], cache, {}, map[], map[], map[]))
  {}

  /** The condition is exact: if every run over these active sets is faithful, they are
      compatible.  The run that shows it evaluates one active set and asks for another at
      the same point. */
  lemma CompatibleIffRefines(u: iset<ActiveSet>)
    requires forall a | a in u :: WellFormed(a)
    ensures Compatible(u) <==>
            forall sim: Simulation, t: seq<Call> | Legal(true, sim, [], t) && CallsIn(u, t) ::
                Refines(sim, Run(true, sim, [], t))
  {
    if Compatible(u) {
      forall sim: Simulation, t: seq<Call> | Legal(true, sim, [], t) && CallsIn(u, t)
        ensures Refines(sim, Run(true, sim, [], t))
      {
        RunsRefine(u, true, sim, [], t);
      }
    } else {
      var a, b :| a in u && b in u && SetCompare(a, b) && !Aligned(a, b);
      WrongCopy(u, a, b);
    }
  }

  lemma WrongCopy(u: iset<ActiveSet>, a: ActiveSet, b: ActiveSet)
    requires a in u && b in u && WellFormed(a) && WellFormed(b) && SetCompare(a, b) && !Aligned(a, b)
    ensures exists t: seq<Call> ::
              Legal(true, Distinguish, [], t) && CallsIn(u, t) && !Refines(Distinguish, Run(true, Distinguish, [], t))
  {
    hide SetCompare, Aligned, WellFormed, Update, Evaluate, Wanted, CacheHas, Refines, Enabled, Next;
    var first, second := Job([], a), Job([], b);
    var t := [EvaluateNow(first), HitNow(second, 0)];
    assert t[..0] == [] && t[..1] == [EvaluateNow(first)] && t[..1][..0] == [] && t[..|t|-1] == t[..1];
    var s0 := State([], [], {}, map[], map[], map[]);
    assert Run(true, Distinguish, [], []) == s0;
    var s1 := Next(true, Distinguish, s0, t[0]);
    assert Run(true, Distinguish, [], t[..1]) == s1;
    var s2 := Next(true, Distinguish, s1, t[1]);
    assert Run(true, Distinguish, [], t) == s2;
    TwoCalls(a, b);
  }

  lemma TwoCalls(a: ActiveSet, b: ActiveSet)
    requires WellFormed(a) && WellFormed(b) && SetCompare(a, b) && !Aligned(a, b)
    ensures var s0 := State([], [], {}, map[], map[], map[]);
            var s1 := Next(true, Distinguish, s0, EvaluateNow(Job([], a)));
            && Enabled(true, s0, EvaluateNow(Job([], a))) && Enabled(true, s1, HitNow(Job([], b), 0))
            && !Refines(Distinguish, Next(true, Distinguish, s1, HitNow(Job([], b), 0)))
  {
    hide SetCompare, Aligned, WellFormed, Update, Evaluate, Wanted;
    var first, second := Job([], a), Job([], b);
    var s0 := State([], [], {}, map[], map[], map[]);
    var s1 := Next(true, Distinguish, s0, EvaluateNow(first));
    assert s1.cache == [Record(1, first, Evaluated(Distinguish, first).data)];
    var s2 := Next(true, Distinguish, s1, HitNow(second, 0));
    MisalignedUpdate(a, b, []);
    EvaluatedKeys(Distinguish, [], a);
    MatchUpdates(a, b, Evaluate(Distinguish, [], a));
    assert Own(s2, 2) == second;
    assert 2 in s2.returned && s2.returned[2] == FromCache(second, s1.cache[0]);
  }

  lemma EvaluatedKeys(sim: Simulation, x: Point, s: ActiveSet)
    ensures Evaluate(sim, x, s).Keys == Wanted(s)
  {}

  /** A later request does not change what the outstanding ones ask for. */
  lemma OwnOutstanding(s: State, s': State, job: Job)
    requires Conserved(s) && s'.requests == s.requests + [job]
    ensures forall id | id in s.queue || id in s.duplicates :: Own(s', id) == Own(s, id)
    ensures Own(s', |s.requests| + 1) == job && |s.requests| + 1 !in s.queue && |s.requests| + 1 !in s.duplicates
    ensures |s.requests| + 1 !in s.history
  {
    forall id | id in s.queue || id in s.duplicates ensures Own(s', id) == Own(s, id) {
      assert Places(s, id) >= 1;
    }
    assert Places(s, |s.requests| + 1) == 0;
  }

  /** Records hold all that their active sets ask for. */
  ghost predicate Full(cache: seq<Record>) {
    forall i | 0 <= i < |cache| :: cache[i].data.Keys == Wanted(cache[i].job.wants)
  }

  lemma FullStep(caching: bool, sim: Simulation, s: State, c: Call)
    requires Full(s.cache)
    ensures Full(Next(caching, sim, s, c).cache)
  {
    hide Wanted, Outstanding, HandsBack, Result;
  }

  lemma DuplicateMatches(s: State, d: nat)
    requires Ordered(s) && d in s.duplicates
    ensures s.duplicates[d] in s.queue && d !in s.queue && d !in s.history
    ensures SetCompare(Own(s, s.duplicates[d]).wants, Own(s, d).wants) && WellFormed(Own(s, d).wants)
  {
    assert Places(s, d) == Here(1 <= d <= |s.requests|);
  }

  lemma Apart(s: State)
    requires Ordered(s)
    ensures s.queue !! s.duplicates.Keys && s.queue !! s.history.Keys && s.duplicates.Keys !! s.history.Keys
  {
    forall id: nat ensures Places(s, id) <= 1 {}
    assert forall id | id in s.queue :: Places(s, id) <= 1;
    assert forall id | id in s.duplicates :: Places(s, id) <= 1;
  }
}
