/**
  An interface at work: the engine files requests and hands back results, a scheduler
  runs the queued jobs in between.
 */
module Session {
  import opened Common
  import opened Responses
  import EngineSpec
  import opened Engine
  import opened SlotProtocol
  import opened Bookkeeping
  import opened SlotAllocator
  import opened LocalSchedulers
  import MasterDynamic
  import MasterNowait
  import PeerDynamic
  import PeerNowait
  import PeerStatic
  import PeerStaticNowait

  /** The schedulers; the peer static one evaluates its local jobs blocking or not. */
  datatype Scheduler = Master | PeerDynamically | PeerStatically(synchLocal: bool) | Local

  /** What the scheduler finds when it is called: its configuration and, between
      nonblocking calls, its slots in order. */
  ghost predicate Ready(kind: Scheduler, b: EvalBookkeeping)
    reads b`active, b`running, b`buffers, b`limits
  {
    match kind
    case Master =>
      && b.limits.servers == b.numServers && b.limits.load == b.concurrency && 1 <= b.concurrency
      && b.active == {} && Strata(b.running, b.concurrency)
      && (b.buffers == 0 || b.buffers == b.numServers * b.concurrency) && (b.running == map[] ==> b.buffers == 0)
    case PeerDynamically =>
      && PeerNowait.PeerConfig(b) && Strata(b.running, b.concurrency)
      && (b.buffers == 0 || PeerNowait.AllBuffers(b)) && (b.running == map[] ==> b.buffers == 0)
    case PeerStatically(synchLocal) =>
      && 2 <= b.numServers && 1 <= b.concurrency && b.limits.servers == b.numServers - 1
        && b.concurrency <= b.limits.load
      && Strata(b.running, b.concurrency) && (synchLocal ==> b.active == {})
      && (b.buffers == 0 || PeerNowait.AllBuffers(b)) && (b.running == map[] ==> b.buffers == 0)
    case Local => b.running == map[] && b.buffers == 0
  }

  /** The peer static scheduler counts ids from the first one of its last empty start. */
  ghost predicate Counts(kind: Scheduler, ref: nat, queue: seq<nat>, waiting: set<nat>) {
    kind.PeerStatically? && waiting != {} ==> PeerStaticNowait.NotBefore(ref, queue)
  }

  lemma CountsOn(b: EvalBookkeeping, kind: Scheduler, ref: nat, id: nat)
    requires b.Valid() && Counts(kind, ref, b.queue, b.running.Keys + b.active)
    requires forall p | 0 <= p < |b.queue| :: b.queue[p] < id
    ensures Counts(kind, ref, b.queue + [id], b.running.Keys + b.active)
  {
    hide EvalBookkeeping.Valid;
    NothingWaits(b);
    if kind.PeerStatically? && b.running.Keys + b.active != {} {
      assert ref <= b.queue[0] < id;
    }
  }

  lemma {:induction false} WithoutSome(q: seq<nat>, s: set<nat>, ref: nat)
    requires PeerStaticNowait.NotBefore(ref, q)
    ensures PeerStaticNowait.NotBefore(ref, Without(q, s))
  {
    if q != [] { WithoutSome(q[..|q|-1], s, ref); }
  }

  lemma CountsAfter(kind: Scheduler, ref: nat, q: seq<nat>, s: set<nat>, waiting: set<nat>)
    requires Counts(kind, ref, q, waiting)
    ensures Counts(kind, ref, Without(q, s), waiting)
  {
    if kind.PeerStatically? && waiting != {} { WithoutSome(q, s, ref); }
  }

  lemma IdleCounts(b: EvalBookkeeping, kind: Scheduler, ref: nat)
    requires b.Valid() && b.queued == {}
    ensures Counts(kind, ref, b.queue, b.running.Keys + b.active)
  {}

  lemma CountsIdle(kind: Scheduler, ref: nat, queue: seq<nat>, waiting: set<nat>)
    ensures waiting == {} ==> Counts(kind, ref, queue, waiting)
  {}

  /** The peer static scheduler may be called without blocking where its buffer numberings
      agree. */
  predicate MayNotWait(kind: Scheduler, b: EvalBookkeeping) {
    kind.PeerStatically? ==> b.concurrency == 1 || b.numServers == 2
  }

  /** The ids the scheduler has heard of were all issued. */
  ghost predicate Issued(queued: set<nat>, done: set<nat>, n: nat) {
    (forall j | j in queued :: j <= n) && (forall j | j in done :: j <= n)
  }

  lemma NextIsFresh(b: EvalBookkeeping, n: nat)
    requires b.Valid() && Issued(b.queued, b.net.done, n)
    ensures Fresh(b.net, n + 1) && n + 1 !in b.queued && forall p | 0 <= p < |b.queue| :: b.queue[p] < n + 1
  {
    hide Safe, Legal, State, BitsMatch, Ascending, Recorded, Within;
    assert b.running.Keys <= b.queued && b.active <= b.queued;
  }

  /** One call of a nonblocking scheduler. */
  method ScheduleNowait(kind: Scheduler, b: EvalBookkeeping, lastRef: nat, ready: set<nat>) returns (ref: nat)
    requires b.Valid() && b.raw == {} && Ready(kind, b) && b.queue != [] && MayNotWait(kind, b)
    requires Counts(kind, lastRef, b.queue, b.running.Keys + b.active)
    modifies b`trace, b`net, b`running, b`active, b`busy, b`raw, b`buffers
    ensures old(b.trace) <= b.trace
    ensures b.Valid() && Ready(kind, b) && b.raw <= b.queued && Counts(kind, ref, b.queue, b.running.Keys + b.active)
    ensures b.net.done == old(b.net.done) + b.raw
    ensures ready * (old(b.running).Keys + old(b.active)) <= b.raw
    ensures kind != PeerStatically(true) ==> b.raw <= ready
    ensures ref == if kind.PeerStatically? && |old(b.running)| + |old(b.active)| == 0 then b.queue[0] else lastRef
  {
    hide EvalBookkeeping.Valid, Ready, Counts;
    ref := lastRef;
    match kind {
      case Master =>
        ScheduleMaster(b, ready);
        CountsOthers(kind, ref, b.queue, b.running.Keys + b.active);
      case PeerDynamically =>
        SchedulePeers(b, ready);
        CountsOthers(kind, ref, b.queue, b.running.Keys + b.active);
      case PeerStatically(synchLocal) =>
        ref := ScheduleStatic(b, lastRef, synchLocal, ready);
      case Local =>
        ScheduleLocal(b, ready);
        CountsOthers(kind, ref, b.queue, b.running.Keys + b.active);
    }
    RawIsQueued(b);
  }

  lemma CountsOthers(kind: Scheduler, ref: nat, queue: seq<nat>, waiting: set<nat>)
    ensures !kind.PeerStatically? ==> Counts(kind, ref, queue, waiting)
  {}

  method ScheduleMaster(b: EvalBookkeeping, ready: set<nat>)
    requires b.Valid() && b.raw == {} && Ready(Master, b)
    modifies b`trace, b`net, b`running, b`raw, b`buffers
    ensures old(b.trace) <= b.trace
    ensures b.Valid() && Ready(Master, b) && b.net.done == old(b.net.done) + b.raw
    ensures ready * (old(b.running).Keys + old(b.active)) <= b.raw <= ready
  {
    hide EvalBookkeeping.Valid, Strata, Placed, Grows, MasterNowait.Capacity, MasterNowait.Places, Relays;
    ghost var placed := MasterNowait.MasterDynamicNowait(b, ready);
    PlacesExtend(b, old(b.running), old(b.trace), placed);
    GrownDone(old(b.net), b.net);
  }

  lemma PlacesExtend(b: EvalBookkeeping, before: map<nat, Slot>, t: seq<Event>, placed: seq<Event>)
    requires MasterNowait.Places(b, b.queue, before, t, placed) && Relays(placed, b.trace)
    ensures t <= b.trace
  {}

  lemma StartsExtend(b: EvalBookkeeping, before: Net, t: seq<Event>, moments: seq<PeerNowait.Moment>,
      started: seq<Event>)
    requires PeerNowait.StartsJobs(b, b.queue, before, t, moments, started) && Reuses(started, b.trace)
    ensures t <= b.trace
  {}

  method SchedulePeers(b: EvalBookkeeping, ready: set<nat>)
    requires b.Valid() && b.raw == {} && Ready(PeerDynamically, b)
    modifies b`trace, b`net, b`running, b`active, b`busy, b`raw, b`buffers
    ensures old(b.trace) <= b.trace
    ensures b.Valid() && Ready(PeerDynamically, b) && b.net.done == old(b.net.done) + b.raw
    ensures ready * (old(b.running).Keys + old(b.active)) <= b.raw <= ready
  {
    hide EvalBookkeeping.Valid, Strata, Placed, Grows, PeerNowait.PeerConfig, PeerNowait.AllBuffers,
      PeerNowait.StartsJobs, Reuses;
    ghost var moments, started := PeerNowait.PeerDynamicNowait(b, ready);
    StartsExtend(b, old(b.net), old(b.trace), moments, started);
    GrownDone(old(b.net), b.net);
  }

  method ScheduleLocal(b: EvalBookkeeping, ready: set<nat>)
    requires b.Valid() && b.raw == {} && Ready(Local, b)
    modifies b`trace, b`net, b`active, b`busy, b`raw
    ensures old(b.trace) <= b.trace
    ensures b.Valid() && Ready(Local, b) && b.net.done == old(b.net.done) + b.raw
    ensures ready * (old(b.running).Keys + old(b.active)) <= b.raw <= ready
  {
    hide EvalBookkeeping.Valid, Exhausted;
    AsynchronousLocalEvaluationsNowait(b, ready);
  }

  /** The peer static scheduler as one of the nonblocking ones. */
  method ScheduleStatic(b: EvalBookkeeping, lastRef: nat, synchLocal: bool, ready: set<nat>) returns (ref: nat)
    requires b.Valid() && b.raw == {} && Ready(PeerStatically(synchLocal), b) && b.queue != []
    requires MayNotWait(PeerStatically(synchLocal), b)
    requires Counts(PeerStatically(synchLocal), lastRef, b.queue, b.running.Keys + b.active)
    modifies b`trace, b`net, b`running, b`active, b`busy, b`raw, b`buffers
    ensures old(b.trace) <= b.trace
    ensures b.Valid() && Ready(PeerStatically(synchLocal), b)
    ensures Counts(PeerStatically(synchLocal), ref, b.queue, b.running.Keys + b.active)
    ensures b.net.done == old(b.net.done) + b.raw && ready * (old(b.running).Keys + old(b.active)) <= b.raw
    ensures !synchLocal ==> b.raw <= ready
    ensures ref == (if |old(b.running)| + |old(b.active)| == 0 then b.queue[0] else lastRef)
  {
    hide EvalBookkeeping.Valid, Strata, PeerStaticNowait.NotBefore, PeerStaticNowait.StaticCall, PeerNowait.AllBuffers;
    NoneWaiting(b);
    ghost var n, placed, mid, planned := b.net, b.trace, b.trace, {};
    ref, placed, mid, planned := PeerStaticNowait.PeerStaticNowaitSchedule(b, lastRef, synchLocal, ready);
    DoneGrows(b, ref, n, State(placed), State(mid), planned, synchLocal, ready);
  }

  lemma NoneWaiting(b: EvalBookkeeping)
    ensures |b.running| + |b.active| != 0 ==> b.running.Keys + b.active != {}
  {
    assert |b.running| == |b.running.Keys|;
  }

  lemma DoneGrows(b: EvalBookkeeping, ref: nat, n: Net, placed: Net, mid: Net, planned: set<nat>, synchLocal: bool,
      ready: set<nat>)
    requires PeerStaticNowait.StaticCall(b, b.queue, b.queued, ref, n, placed, mid, b.net, planned, synchLocal, ready)
    ensures n.done <= b.net.done
  {}

  ghost predicate AllPrompt(polls: seq<PeerDynamic.Poll>, queued: set<nat>) {
    forall i | 0 <= i < |polls| :: PeerDynamic.Prompt(polls[i], queued)
  }

  /** As many polls as jobs, each of which finds something that is running. */
  ghost predicate PollsSuffice(kind: Scheduler, polls: seq<PeerDynamic.Poll>, heads: seq<seq<Event>>, jobs: nat) {
    kind != PeerDynamically
    || (|polls| >= jobs && |heads| <= |polls| + 1
      && forall i | 0 <= i < |heads| - 1 :: PeerDynamic.Hit(heads, polls, i))
  }

  /** The rounds of a polling schedule lead from one event log to another; nothing comes in
      before the first. */
  ghost predicate RunsThrough(heads: seq<seq<Event>>, polls: seq<PeerDynamic.Poll>, queued: set<nat>, log: seq<Event>,
      log': seq<Event>)
  {
    && PeerDynamic.Rounds(heads, polls, queued)
    && log <= heads[0] && State(heads[0]).done == State(log).done && heads[|heads|-1] == log'
  }

  /** One call of a blocking scheduler with nothing left running. */
  method ScheduleAll(kind: Scheduler, b: EvalBookkeeping, polls: seq<PeerDynamic.Poll>)
    returns (finished: bool, ghost heads: seq<seq<Event>>)
    requires b.Valid() && b.raw == {} && Ready(kind, b) && b.running == map[] && b.active == {}
    modifies b`limits, b`trace, b`net, b`running, b`active, b`busy, b`raw, b`buffers
    ensures old(b.trace) <= b.trace
    ensures kind == PeerDynamically ==> RunsThrough(heads, polls, b.queued, old(b.trace), b.trace)
    ensures PollsSuffice(kind, polls, heads, |b.queue|) ==> finished
    ensures kind != PeerDynamically || (|polls| >= |b.queue| && AllPrompt(polls, b.queued)) ==> finished
    ensures finished ==> b.Valid() && Ready(kind, b) && b.raw == b.queued && b.running.Keys + b.active == {}
    ensures finished ==> b.net.done == old(b.net.done) + b.queued
  {
    hide EvalBookkeeping.Valid, Strata, Legal, State, PeerDynamic.LoopHead, PeerDynamic.Rounds, PeerDynamic.Hit;
    finished, heads := true, [];
    if kind == PeerDynamically {
      StateOfLog(b);
      var pos, recv;
      finished, pos, recv, heads := PeerDynamic.PeerDynamicSchedule(b, polls);
      NoStrata(b.concurrency);
    } else {
      ScheduleWaiting(kind, b);
    }
  }

  lemma StateOfLog(b: EvalBookkeeping)
    requires b.Valid()
    ensures State(b.trace) == b.net
  {}

  /** The blocking schedulers that wait for results instead of polling. */
  method ScheduleWaiting(kind: Scheduler, b: EvalBookkeeping)
    requires b.Valid() && b.raw == {} && Ready(kind, b) && b.running == map[] && b.active == {}
    requires kind != PeerDynamically
    modifies b`limits, b`trace, b`net, b`running, b`active, b`busy, b`raw, b`buffers
    ensures old(b.trace) <= b.trace
    ensures b.Valid() && Ready(kind, b) && b.raw == b.queued && b.running.Keys + b.active == {}
    ensures b.net.done == old(b.net.done) + b.queued
  {
    hide EvalBookkeeping.Valid, Strata, Lists, Ascending, AllFresh;
    match kind {
      case Master =>
        ghost var first := MasterDynamic.MasterDynamicSchedule(b);
      case PeerStatically(synchLocal) =>
        ghost var dealt;
        var numLocal, numSends;
        numLocal, numSends, dealt := PeerStatic.PeerStaticSchedule(b);
      case Local =>
        ScheduleQueue(b);
    }
    NoStrata(b.concurrency);
  }

  /** The whole queue evaluated locally. */
  method ScheduleQueue(b: EvalBookkeeping)
    requires b.Valid() && b.raw == {} && b.running == map[] && b.active == {}
    modifies b`trace, b`net, b`active, b`busy, b`raw
    ensures old(b.trace) <= b.trace
    ensures b.Valid() && b.active == {} && b.raw == b.queued && b.net.done == old(b.net.done) + b.queued
  {
    hide Consistent, Safe, Legal, State, BitsMatch, Lists, Ascending;
    b.NothingDoneQueued();
    b.QueueIsListed();
    b.Facts();
    AsynchronousLocalEvaluations(b, b.queue, b.queued);
    b.NewResults(old(b.net.done));
  }

  lemma NoStrata(c: nat)
    ensures Strata(map[], c)
  {}

  /** An idle engine has returned every id it issued. */
  lemma NothingOutstanding(e: EvalEngine)
    requires e.Valid() && e.queue == map[] && e.history == map[] && e.duplicates == map[]
    ensures forall id: nat :: id in e.view.returned <==> 1 <= id <= e.evalIdCntr
  {
    var s := e.view;
    assert s.queue == {} && s.history.Keys == {} && s.duplicates.Keys == {};
    forall id: nat ensures id in s.returned <==> 1 <= id <= e.evalIdCntr {
      assert EngineSpec.Places(s, id) == Here(1 <= id <= |s.requests|);
    }
  }

  lemma NothingWaits(b: EvalBookkeeping)
    requires b.Valid()
    ensures b.queue == [] ==> b.running.Keys == {} && b.active == {}
  {}

  lemma GrownDone(n: Net, n': Net)
    requires Grows(n, n')
    ensures n.done <= n'.done
  {}

  lemma RawIsQueued(b: EvalBookkeeping)
    requires b.Valid()
    ensures b.raw <= b.queued
  {}

  /** Results come back as the engine would have them: the ids handed out are those that
      count as returned from now on, each with the evaluation of what it asked for. */
  ghost predicate Answers(raw: map<nat, Rep>, before: EngineSpec.State, after: EngineSpec.State, sim: Simulation,
      reps: set<Rep>)
    reads reps
  {
    && raw.Keys == after.returned.Keys - before.returned.Keys && TakesAlong(raw.Keys, before)
    && after.requests == before.requests
    && forall id | id in raw ::
         && 1 <= id <= |after.requests| && raw[id] in reps && raw[id].Value() == after.returned[id]
         && raw[id].wants == after.requests[id - 1].wants
         && RightData(sim, after.requests[id - 1].x, raw[id].wants, raw[id].data)
  }

  /** What is returned for an id is the right data for what it asked. */
  lemma RightAnswer(u: iset<ActiveSet>, sim: Simulation, s: EngineSpec.State, id: nat)
    requires EngineSpec.Faithful(u, sim, s) && id in s.returned
    ensures 1 <= id <= |s.requests| && s.returned[id].set_ == s.requests[id - 1].wants
    ensures RightData(sim, s.requests[id - 1].x, s.requests[id - 1].wants, s.returned[id].data)
  {
    hide RightData, Evaluate;
    assert EngineSpec.Places(s, id) >= 1;
    OnlyRightData(sim, s.requests[id - 1].x, s.requests[id - 1].wants, s.returned[id].data);
  }

  /** With the finished jobs go all history duplicates, and exactly those queue duplicates
      whose original is among them. */
  ghost predicate TakesAlong(ids: set<nat>, before: EngineSpec.State) {
    before.history.Keys <= ids && forall d | d in before.duplicates :: d in ids <==> before.duplicates[d] in ids
  }

  /** The engine can be asked for any of its queued jobs. */
  lemma CanTake(e: EvalEngine, done: seq<nat>, ids: set<nat>)
    requires e.Valid() && Distinct(done) && (forall j :: j in done <==> j in ids) && ids <= e.view.queue
    ensures EngineSpec.Ordered(e.view) && EngineSpec.Enabled(e.caching, e.view, EngineSpec.Synch(done))
    ensures ids == e.view.queue ==> forall id | id in e.queue :: id in done
  {
    hide EngineSpec.Ordered, DuplicatesAs, CacheAs, HistoryAs, EngineSpec.Full, EngineSpec.Own;
  }

  lemma FinishedHandedOut(e: EvalEngine, raw: map<nat, Rep>, s: EngineSpec.State, done: seq<nat>, ids: set<nat>)
    requires e.HandsOut(raw, s, done, e.settled) && (forall j :: j in done <==> j in ids) && ids <= s.queue
    ensures ids <= raw.Keys
  {}

  lemma CountsRequests(e: EvalEngine)
    requires e.Valid()
    ensures e.evalIdCntr == |e.view.requests|
  {}

  /** Handing back drops the finished jobs from the engine's queue. */
  lemma QueueAfter(caching: bool, sim: Simulation, s: EngineSpec.State, done: seq<nat>, ids: set<nat>)
    requires forall j :: j in done <==> j in ids
    ensures EngineSpec.Next(caching, sim, s, EngineSpec.Synch(done)).queue == s.queue - ids
    ensures EngineSpec.Next(caching, sim, s, EngineSpec.Synch(done)).requests == s.requests
  {}

  /** What is handed out is new, and is what a plain evaluation gives. */
  lemma AnswersFollow(u: iset<ActiveSet>, caching: bool, e: EvalEngine, s: EngineSpec.State, done: seq<nat>,
      raw: map<nat, Rep>, reps: set<Rep>)
    requires EngineSpec.Ordered(s) && e.HandsOut(raw, s, done, reps) && forall j | j in done :: j in s.queue
    requires EngineSpec.Faithful(u, e.sim, EngineSpec.Next(caching, e.sim, s, EngineSpec.Synch(done)))
    ensures Answers(raw, s, EngineSpec.Next(caching, e.sim, s, EngineSpec.Synch(done)), e.sim, reps)
  {
    hide EngineSpec.Ordered, EngineSpec.Next, Handed, EngineSpec.Result, TakesAlong, EngineSpec.Faithful, RightData;
    var s' := EngineSpec.Next(caching, e.sim, s, EngineSpec.Synch(done));
    HandedAlong(s, done);
    NewlyHanded(s, done);
    SynchReturns(caching, e.sim, s, done);
    forall id | id in raw
      ensures 1 <= id <= |s'.requests| && raw[id] in reps && raw[id].Value() == s'.returned[id]
      ensures raw[id].wants == s'.requests[id - 1].wants
      ensures RightData(e.sim, s'.requests[id - 1].x, raw[id].wants, raw[id].data)
    {
      RightAnswer(u, e.sim, s', id);
    }
  }

  /** What a synchronization adds to the returned responses. */
  lemma SynchReturns(caching: bool, sim: Simulation, s: EngineSpec.State, done: seq<nat>)
    ensures var s' := EngineSpec.Next(caching, sim, s, EngineSpec.Synch(done));
            && s'.requests == s.requests && s'.returned.Keys == s.returned.Keys + Handed(s, done)
            && forall id | id in Handed(s, done) :: s'.returned[id] == EngineSpec.Result(s, sim, id)
  {
    hide EngineSpec.Result, EngineSpec.Filed;
  }

  /** Nothing that is handed out was returned before. */
  lemma NewlyHanded(s: EngineSpec.State, done: seq<nat>)
    requires EngineSpec.Ordered(s)
    ensures Handed(s, done) !! s.returned.Keys
  {
    hide EngineSpec.Anchored, EngineSpec.CacheIds, EngineSpec.AllWellFormed;
    forall id | id in Handed(s, done) ensures id !in s.returned {
      assert EngineSpec.Places(s, id) <= 1;
    }
  }

  lemma HandedAlong(s: EngineSpec.State, done: seq<nat>)
    requires EngineSpec.Ordered(s) && forall j | j in done :: j in s.queue
    ensures TakesAlong(Handed(s, done), s)
  {
    hide EngineSpec.Conserved, EngineSpec.CacheIds, EngineSpec.AllWellFormed;
    EngineSpec.Apart(s);
  }

  /** A new job is queued under the new id, a duplicate is not. */
  lemma Filing(caching: bool, sim: Simulation, s: EngineSpec.State, c: EngineSpec.Call)
    requires EngineSpec.Enabled(caching, s, c) && (c.New? || c.Hit? || c.Queued?)
    ensures var s', id := EngineSpec.Next(caching, sim, s, c), |s.requests| + 1;
            && s'.queue == s.queue + (if c.New? then {id} else {})
            && s'.requests == s.requests + [c.job] && EngineSpec.Own(s', id) == c.job
  {}

  lemma FilingNow(caching: bool, sim: Simulation, s: EngineSpec.State, c: EngineSpec.Call)
    requires EngineSpec.Enabled(caching, s, c) && (c.EvaluateNow? || c.HitNow?)
    ensures var s', id := EngineSpec.Next(caching, sim, s, c), |s.requests| + 1;
            s'.queue == s.queue && s'.requests == s.requests + [c.job] && EngineSpec.Own(s', id) == c.job
  {}

  lemma SameQueue(queue: map<nat, Pair>, pending: map<Rep, nat>, s: EngineSpec.State)
    requires QueueAs(queue, pending, s)
    ensures queue.Keys == s.queue
  {}

  /** The ids of a set in increasing order. */
  method InOrder(ids: set<nat>) returns (list: seq<nat>)
    ensures Distinct(list) && forall j :: j in list <==> j in ids
  {
    list := [];
    var todo := ids;
    while todo != {}
      invariant todo <= ids && Distinct(list) && forall j :: j in list <==> j in ids - todo
      decreases todo
    {
      var id := Least(todo);
      assert forall i | 0 <= i < |list| :: list[i] in list;
      list, todo := list + [id], todo - {id};
    }
  }

  class Interface {
    const engine: EvalEngine
    const jobs: EvalBookkeeping
    const kind: Scheduler
    ghost const admitted: iset<ActiveSet>        // the active sets requests may use
    ghost const restart: seq<EngineSpec.Record>  // the cache the session began with
    var ref: nat                                 // nowaitEvalIdRef
    ghost var calls: seq<EngineSpec.Call>

    /** A new session: an engine with restart records and an idle scheduler. */
    constructor (kind: Scheduler, engine: EvalEngine, jobs: EvalBookkeeping, ghost admitted: iset<ActiveSet>)
      requires engine.Valid() && engine.view == EngineSpec.State([], engine.view.cache, {}, map[], map[], map[])
      requires jobs.Valid() && jobs.raw == {} && Ready(kind, jobs) && jobs.queued == {} && jobs.net.done == {}
      requires EngineSpec.Compatible(admitted) && EngineSpec.FromRestart(engine.view.cache)
      requires EngineSpec.Sound(engine.sim, engine.view.cache) && EngineSpec.RecordsIn(admitted, engine.view.cache)
      ensures Valid() && this.engine == engine && this.jobs == jobs && this.kind == kind && this.admitted == admitted
    {
      this.kind, this.engine, this.jobs, this.admitted := kind, engine, jobs, admitted;
      ref, restart, calls := 0, engine.view.cache, [];
      IdleCounts(jobs, kind, 0);
    }

    /** The engine is in a state that its calls lead to. */
    ghost predicate Replays()
      reads `calls, engine`view
    {
      && EngineSpec.Legal(engine.caching, engine.sim, restart, calls)
      && engine.view == EngineSpec.Run(engine.caching, engine.sim, restart, calls)
    }

    /** The session began with sound records and asks for compatible active sets. */
    ghost predicate Trusted()
      reads `calls
    {
      && EngineSpec.Compatible(admitted) && EngineSpec.FromRestart(restart)
      && EngineSpec.Sound(engine.sim, restart) && EngineSpec.RecordsIn(admitted, restart)
      && EngineSpec.CallsIn(admitted, calls)
    }

    ghost predicate Valid()
      reads this, engine, engine.settled, jobs
    {
      && engine.Valid() && jobs.Valid() && jobs.raw == {} && Ready(kind, jobs)
      && Counts(kind, ref, jobs.queue, jobs.running.Keys + jobs.active)
      && engine.view.queue == jobs.queued && Issued(jobs.queued, jobs.net.done, engine.evalIdCntr)
      && Replays() && Trusted()
    }

    /** Neither a restart record nor one of these requests asks for all that a job asks for. */
    ghost predicate Uncovered(requests: seq<EngineSpec.Job>, job: EngineSpec.Job) {
      && (forall k | 0 <= k < |restart| :: !EngineSpec.Covers(restart[k].job, job))
      && (forall i | 0 <= i < |requests| :: !EngineSpec.Covers(requests[i], job))
    }

    lemma NewIffUncovered(was: EngineSpec.State, c: EngineSpec.Call)
      requires engine.caching && EngineSpec.FromRestart(restart)
      requires EngineSpec.Legal(engine.caching, engine.sim, restart, calls)
      requires was == EngineSpec.Run(engine.caching, engine.sim, restart, calls)
      requires EngineSpec.Enabled(engine.caching, was, c) && (c.New? || c.Hit? || c.Queued?)
      ensures c.New? <==> Uncovered(was.requests, c.job)
    {
      hide EngineSpec.Legal, EngineSpec.Run, EngineSpec.FromRestart, EngineSpec.Enabled, EngineSpec.Covers;
      EngineSpec.NewIffUncovered(engine.sim, restart, calls, c);
    }

    lemma Replayed(c: EngineSpec.Call, before: seq<EngineSpec.Call>, was: EngineSpec.State)
      requires EngineSpec.Legal(engine.caching, engine.sim, restart, before)
      requires was == EngineSpec.Run(engine.caching, engine.sim, restart, before)
      requires EngineSpec.Enabled(engine.caching, was, c)
      ensures EngineSpec.Legal(engine.caching, engine.sim, restart, before + [c])
      ensures EngineSpec.Run(engine.caching, engine.sim, restart, before + [c])
              == EngineSpec.Next(engine.caching, engine.sim, was, c)
    {
      hide EngineSpec.Enabled, EngineSpec.Next;
      var t := before + [c];
      assert t[..|t|-1] == before;
      forall i | 0 <= i < |t|
        ensures EngineSpec.Enabled(engine.caching, EngineSpec.Run(engine.caching, engine.sim, restart, t[..i]), t[i])
      {
        if i < |before| { assert t[..i] == before[..i]; }
      }
    }

    lemma StillTrusted(c: EngineSpec.Call, before: seq<EngineSpec.Call>)
      requires EngineSpec.CallsIn(admitted, before) && EngineSpec.CallIn(admitted, c)
      ensures EngineSpec.CallsIn(admitted, before + [c])
    {}

    /** An asynchronous request. */
    method Map(x: Point, wants: ActiveSet)
      requires Valid() && WellFormed(wants) && wants in admitted
      modifies this, engine, jobs
      ensures jobs.trace == old(jobs.trace)
      ensures Valid() && engine.evalIdCntr == old(engine.evalIdCntr) + 1
      ensures engine.view.requests == old(engine.view.requests) + [EngineSpec.Job(x, wants)]
      ensures jobs.queued == old(jobs.queued) || jobs.queued == old(jobs.queued) + {engine.evalIdCntr}
      ensures engine.caching ==>
                (engine.evalIdCntr in jobs.queued <==> Uncovered(old(engine.view.requests), EngineSpec.Job(x, wants)))
      ensures !engine.caching ==> engine.evalIdCntr in jobs.queued
      ensures fresh(engine.settled - old(engine.settled))
    {
      hide EngineSpec.Ordered, QueueAs, DuplicatesAs, CacheAs, HistoryAs, EngineSpec.Full, Consistent, Safe, Legal,
        State, EngineSpec.Legal, EngineSpec.Run, EngineSpec.Enabled, BitsMatch, Ready, Counts, EngineSpec.CallsIn,
        EngineSpec.Compatible, EngineSpec.Sound, EngineSpec.RecordsIn, EngineSpec.Next, Strata, Fresh, EngineSpec.Own,
        Uncovered, CacheCovers, QueueCovers, HitLeaves, EngineSpec.FromRestart;
      ghost var was := engine.view;
      NextIsFresh(jobs, engine.evalIdCntr);
      ghost var call := engine.MapAsynch(x, wants);
      if engine.caching { NewIffUncovered(was, call); }
      Replayed(call, calls, was);
      StillTrusted(call, calls);
      calls := calls + [call];
      Filing(engine.caching, engine.sim, was, call);
      SameQueue(engine.queue, engine.pending, engine.view);
      EnqueueNew();
    }

    /** The scheduler hears of the request if it became a new job. */
    method EnqueueNew()
      requires engine.Valid() && jobs.Valid() && jobs.raw == {} && Ready(kind, jobs) && engine.evalIdCntr > 0
      requires Counts(kind, ref, jobs.queue, jobs.running.Keys + jobs.active)
      requires Issued(jobs.queued, jobs.net.done, engine.evalIdCntr - 1) && engine.queue.Keys == engine.view.queue
      requires Fresh(jobs.net, engine.evalIdCntr) && engine.evalIdCntr !in jobs.queued
      requires forall p | 0 <= p < |jobs.queue| :: jobs.queue[p] < engine.evalIdCntr
      requires engine.view.queue == jobs.queued || engine.view.queue == jobs.queued + {engine.evalIdCntr}
      requires Replays() && Trusted()
      modifies jobs
      ensures Valid() && jobs.trace == old(jobs.trace)
      ensures jobs.queued == old(jobs.queued) + (if engine.evalIdCntr in engine.queue then {engine.evalIdCntr} else {})
    {
      hide EngineSpec.Ordered, QueueAs, DuplicatesAs, CacheAs, HistoryAs, EngineSpec.Full, EvalBookkeeping.Valid,
        EngineSpec.Legal, EngineSpec.Run, Ready, Counts, EngineSpec.CallsIn, EngineSpec.Compatible, EngineSpec.Sound,
        EngineSpec.RecordsIn, Fresh, EngineSpec.FromRestart, EvalEngine.Valid;
      var id := engine.evalIdCntr;
      CountsOn(jobs, kind, ref, id);
      if id in engine.queue {
        jobs.Enqueue(id);
      }
    }

    /** A synchronous request gets a plain evaluation, whether or not it came from the
        cache. */
    method MapNow(x: Point, wants: ActiveSet) returns (response: Response)
      requires Valid() && WellFormed(wants) && wants in admitted
      modifies this, engine
      ensures Valid() && engine.evalIdCntr == old(engine.evalIdCntr) + 1
      ensures response.set_ == wants && RightData(engine.sim, x, wants, response.data)
      ensures engine.view.requests == old(engine.view.requests) + [EngineSpec.Job(x, wants)]
      ensures fresh(engine.settled - old(engine.settled))
    {
      hide EngineSpec.Ordered, QueueAs, DuplicatesAs, CacheAs, HistoryAs, EngineSpec.Full, Consistent, Safe, Legal,
        State, EngineSpec.Legal, EngineSpec.Run, EngineSpec.Enabled, BitsMatch, Ready, Counts, EngineSpec.CallsIn,
        EngineSpec.Compatible, EngineSpec.Sound, EngineSpec.RecordsIn, EngineSpec.Next, Strata, EngineSpec.Own,
        EngineSpec.Faithful, EngineSpec.Evaluated, RightData, CacheCovers, HitLeaves;
      ghost var was := engine.view;
      ghost var call;
      response, call := engine.MapSynch(x, wants);
      Replayed(call, calls, was);
      StillTrusted(call, calls);
      calls := calls + [call];
      FilingNow(engine.caching, engine.sim, was, call);
      EngineSpec.RunsRefine(admitted, engine.caching, engine.sim, restart, calls);
      RightAnswer(admitted, engine.sim, engine.view, engine.evalIdCntr);
    }

    /** Take finished jobs through the engine. */
    method TakeThrough(done: seq<nat>, ghost ids: set<nat>, blocking: bool) returns (raw: map<nat, Rep>)
      requires engine.Valid() && Replays() && Trusted()
      requires Distinct(done) && (forall j :: j in done <==> j in ids) && ids <= engine.view.queue
      requires blocking ==> ids == engine.view.queue
      modifies `calls, engine, engine.pending.Keys
      ensures engine.Valid() && Replays() && Trusted() && engine.evalIdCntr == old(engine.evalIdCntr)
      ensures Answers(raw, old(engine.view), engine.view, engine.sim, engine.settled)
      ensures ids <= raw.Keys && engine.view.queue == old(engine.view.queue) - ids
      ensures blocking ==> engine.queue == map[] && engine.history == map[] && engine.duplicates == map[]
    {
      hide EngineSpec.Ordered, QueueAs, DuplicatesAs, CacheAs, HistoryAs, EngineSpec.Full, EngineSpec.Legal,
        EngineSpec.Run, EngineSpec.CallsIn, EngineSpec.Compatible, EngineSpec.Sound, EngineSpec.RecordsIn,
        EngineSpec.Next, EngineSpec.Own, Answers, EngineSpec.Faithful, EvalEngine.HandsOut, EvalEngine.Valid,
        EngineSpec.Enabled;
      ghost var was := engine.view;
      ghost var call := EngineSpec.Synch(done);
      CanTake(engine, done, ids);
      CountsRequests(engine);
      if blocking {
        raw := engine.Synchronize(done);
      } else {
        raw := engine.SynchronizeNowait(done);
      }
      Replayed(call, calls, was);
      StillTrusted(call, calls);
      calls := calls + [call];
      EngineSpec.RunsRefine(admitted, engine.caching, engine.sim, restart, calls);
      AnswersFollow(admitted, engine.caching, engine, was, done, raw, engine.settled);
      QueueAfter(engine.caching, engine.sim, was, done, ids);
      CountsRequests(engine);
      FinishedHandedOut(engine, raw, was, done, ids);
    }

    /** Take the scheduler's results through the engine and drop their jobs. */
    method HandBack(blocking: bool) returns (raw: map<nat, Rep>)
      requires engine.Valid() && jobs.Valid() && Ready(kind, jobs) && Replays() && Trusted()
      requires Counts(kind, ref, jobs.queue, jobs.running.Keys + jobs.active)
      requires engine.view.queue == jobs.queued && Issued(jobs.queued, jobs.net.done, engine.evalIdCntr)
      requires jobs.raw <= jobs.queued && (blocking ==> jobs.raw == jobs.queued)
      modifies `calls, engine, engine.pending.Keys, jobs`queue, jobs`queued, jobs`raw
      ensures Valid() && engine.evalIdCntr == old(engine.evalIdCntr)
      ensures Answers(raw, old(engine.view), engine.view, engine.sim, engine.settled)
      ensures old(jobs.raw) <= raw.Keys && jobs.queued == old(jobs.queued) - old(jobs.raw)
      ensures blocking ==> engine.queue == map[] && engine.history == map[] && engine.duplicates == map[]
    {
      hide EngineSpec.Ordered, QueueAs, DuplicatesAs, CacheAs, HistoryAs, EngineSpec.Full, Consistent, Safe, Legal,
        State, EngineSpec.Legal, EngineSpec.Run, BitsMatch, Ready, Counts, EngineSpec.CallsIn, EngineSpec.Compatible,
        EngineSpec.Sound, EngineSpec.RecordsIn, Strata, Answers, Distinct;
      var done := InOrder(jobs.raw);
      raw := TakeThrough(done, jobs.raw, blocking);
      CountsAfter(kind, ref, jobs.queue, jobs.raw, jobs.running.Keys + jobs.active);
      jobs.Retire();
    }

    /** Nonblocking synchronization: whatever was running and is ready is handed back, once,
        and is the evaluation of its own request. */
    method SynchronizeNowait(ready: set<nat>) returns (raw: map<nat, Rep>)
      requires Valid() && MayNotWait(kind, jobs)
      modifies this, engine, engine.pending.Keys, jobs
      ensures old(jobs.trace) <= jobs.trace
      ensures Valid() && engine.evalIdCntr == old(engine.evalIdCntr)
      ensures Answers(raw, old(engine.view), engine.view, engine.sim, engine.settled)
      ensures ready * (old(jobs.running).Keys + old(jobs.active)) <= raw.Keys
    {
      hide EngineSpec.Ordered, QueueAs, DuplicatesAs, CacheAs, HistoryAs, EngineSpec.Full, Consistent, Safe, Legal,
        State, EngineSpec.Legal, EngineSpec.Run, BitsMatch, Ready, Counts, EngineSpec.CallsIn, EngineSpec.Compatible,
        EngineSpec.Sound, EngineSpec.RecordsIn, EngineSpec.Next, Strata, EngineSpec.Own, Answers;
      NothingWaits(jobs);
      if jobs.queue != [] {
        ref := ScheduleNowait(kind, jobs, ref, ready);
      }
      raw := HandBack(false);
    }

    /** Blocking synchronization with nothing left running: everything issued is returned.
        The peer dynamic schedule polls; it finishes if the polls bring results, and nothing
        is claimed if they run out. */
    method Synchronize(polls: seq<PeerDynamic.Poll>)
      returns (finished: bool, raw: map<nat, Rep>, ghost heads: seq<seq<Event>>)
      requires Valid() && jobs.running == map[] && jobs.active == {}
      modifies this, engine, engine.pending.Keys, jobs
      ensures old(jobs.trace) <= jobs.trace
      ensures kind == PeerDynamically ==> RunsThrough(heads, polls, old(jobs.queued), old(jobs.trace), jobs.trace)
      ensures PollsSuffice(kind, polls, heads, |old(jobs.queue)|) ==> finished
      ensures kind != PeerDynamically || (|polls| >= |old(jobs.queue)| && AllPrompt(polls, old(jobs.queued)))
              ==> finished
      ensures finished ==> Valid() && Answers(raw, old(engine.view), engine.view, engine.sim, engine.settled)
      ensures finished ==> engine.queue == map[] && engine.history == map[] && engine.duplicates == map[]
      ensures finished ==> forall id: nat :: id in engine.view.returned <==> 1 <= id <= engine.evalIdCntr
    {
      hide EngineSpec.Ordered, QueueAs, DuplicatesAs, CacheAs, HistoryAs, EngineSpec.Full, Consistent, Safe, Legal,
        State, EngineSpec.Legal, EngineSpec.Run, BitsMatch, Ready, Counts, EngineSpec.CallsIn, EngineSpec.Compatible,
        EngineSpec.Sound, EngineSpec.RecordsIn, EngineSpec.Next, Strata, EngineSpec.Own, Answers;
      finished, heads := ScheduleAll(kind, jobs, polls);
      raw := map[];
      if finished {
        CountsIdle(kind, ref, jobs.queue, jobs.running.Keys + jobs.active);
        raw := HandBack(true);
        NothingOutstanding(engine);
      }
    }
  }
}
