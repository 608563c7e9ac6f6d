/**
  The nonblocking peer dynamic scheduler: jobs go to the remote peers 2..N and to
  the scheduling processor itself, which is peer 1.
 */
module PeerNowait {
  import opened Common
  import opened SlotProtocol
  import opened Bookkeeping
  import opened SlotAllocator
  import opened NowaitPlacement
  import opened LocalSchedulers
  import opened PeerDeal

  /** The scheduler runs with at least one remote peer and without static assignment
      of local jobs. */
  ghost predicate PeerConfig(b: EvalBookkeeping)
    reads b`limits
  {
    && 2 <= b.numServers && 1 <= b.concurrency && !b.staticLocal
    && b.limits.servers == b.numServers - 1 && b.limits.load == b.concurrency
  }

  /** One buffer for every place on the remote peers. */
  ghost predicate AllBuffers(b: EvalBookkeeping)
    reads b`buffers
  {
    b.buffers == (b.numServers - 1) * b.concurrency
  }

  /** The server the load-balancing rule picks has room: the choice between the local
      queue and the least loaded peer never fails while there is room anywhere. */
  lemma ChoiceFits(lim: Limits, n: Net, m: nat, planned: nat)
    requires Safe(lim, n) && m < lim.servers
    requires forall s | 1 <= s <= lim.servers :: Load(n.remote, m + 1) <= Load(n.remote, s)
    requires planned < lim.load || |n.remote| < lim.servers * lim.load
    ensures planned < Load(n.remote, m + 1) ==> planned < lim.load
    ensures planned >= Load(n.remote, m + 1) ==> |n.remote| < lim.servers * lim.load && Load(n.remote, m + 1) < lim.load
  {
    assert Upto(n.remote, lim.servers) == n.remote.Keys;
    if |n.remote| >= lim.servers * lim.load {
      AllFull(n.remote, lim.servers, lim.load, m + 1);
    } else {
      LeastLoadedHasRoom(n.remote, lim.servers, lim.load, m + 1);
    }
  }

  /** The local queue being assembled: jobs already active and jobs planned for
      launch, in queue order. */
  ghost predicate LocalPlan(queue: seq<nat>, queued: set<nat>, n: Net, local: seq<nat>, planned: set<nat>, pos: nat) {
    && Ascending(local) && pos <= |queue|
    && (forall q | 0 <= q < |local| :: local[q] in queued && (local[q] in n.local || local[q] in planned))
    && (forall q | 0 <= q < |local| && pos < |queue| :: local[q] < queue[pos])
    && (forall j | j in planned :: j in local && Fresh(n, j))
  }

  /** What is before the assign iterator is running, active or planned. */
  ghost predicate Covered(queue: seq<nat>, n: Net, planned: set<nat>, pos: nat) {
    forall p | 0 <= p < pos <= |queue| :: !Fresh(n, queue[p]) || queue[p] in planned
  }

  lemma PlanSkip(queue: seq<nat>, queued: set<nat>, n: Net, local: seq<nat>, planned: set<nat>, pos: nat)
    requires LocalPlan(queue, queued, n, local, planned, pos) && pos < |queue| && Ascending(queue)
    ensures LocalPlan(queue, queued, n, local, planned, pos + 1)
    ensures Covered(queue, n, planned, pos) && !Fresh(n, queue[pos]) ==> Covered(queue, n, planned, pos + 1)
  {}

  lemma PlanAdd(queue: seq<nat>, queued: set<nat>, n: Net, local: seq<nat>, planned: set<nat>, pos: nat, more: set<nat>)
    requires LocalPlan(queue, queued, n, local, planned, pos)
    requires pos < |queue| && Ascending(queue) && queue[pos] in queued
    requires if queue[pos] in n.local then more == planned else more == planned + {queue[pos]} && Fresh(n, queue[pos])
    ensures LocalPlan(queue, queued, n, local + [queue[pos]], more, pos + 1)
    ensures Covered(queue, n, planned, pos) ==> Covered(queue, n, more, pos + 1)
  {
    var l := local + [queue[pos]];
    assert l[|local|] == queue[pos];
    forall j | j in more ensures j in l {
      if j in planned { assert j in local; }
    }
  }

  lemma PlanSend(queue: seq<nat>, queued: set<nat>, n: Net, n': Net, local: seq<nat>, planned: set<nat>, pos: nat)
    requires LocalPlan(queue, queued, n, local, planned, pos)
    requires pos < |queue| && Ascending(queue) && queue[pos] !in planned
    requires n'.local == n.local && n'.done == n.done && n'.remote.Keys == n.remote.Keys + {queue[pos]}
    ensures LocalPlan(queue, queued, n', local, planned, pos + 1)
    ensures Covered(queue, n, planned, pos) ==> Covered(queue, n', planned, pos + 1)
  {}

  lemma NotPlanned(queue: seq<nat>, queued: set<nat>, n: Net, local: seq<nat>, planned: set<nat>, pos: nat)
    requires LocalPlan(queue, queued, n, local, planned, pos) && pos < |queue|
    ensures queue[pos] !in planned
  {}

  /** What the walk over the queue has done by some moment: the event log, and the jobs
      planned for local launch. */
  datatype Moment = Moment(log: seq<Event>, planned: set<nat>)

  /** What the walk does with one job.  A new job stays local only if fewer jobs are active or
      planned than any peer has; otherwise it is sent to the first peer with the least to do,
      which has no more than are active or planned.  Other jobs are passed over. */
  ghost predicate Chooses(job: nat, active: nat, peers: nat, now: Moment, then_: Moment) {
    var remote, local := State(now.log).remote, active + |now.planned|;
    if !Fresh(State(now.log), job) then then_ == now
    else if job in then_.planned then
      && then_ == now.(planned := now.planned + {job})
      && forall s | 1 <= s <= peers :: local < Load(remote, s)
    else
      && |then_.log| == |now.log| + 1 && then_ == now.(log := now.log + [then_.log[|now.log|]])
      && var e := then_.log[|now.log|];
         && e.Send? && e.job == job && FirstLeast(remote, e.slot.server, peers)
         && Load(remote, e.slot.server) <= local
  }

  /** The walk, from a log with nothing planned. */
  ghost predicate Walk(queue: seq<nat>, active: nat, peers: nat, t: seq<Event>, moments: seq<Moment>) {
    && 0 < |moments| <= |queue| + 1 && moments[0] == Moment(t, {})
    && forall p | 0 <= p < |moments| - 1 :: Chooses(queue[p], active, peers, moments[p], moments[p + 1])
  }

  lemma WalkStarts(queue: seq<nat>, active: nat, peers: nat, t: seq<Event>)
    ensures Walk(queue, active, peers, t, [Moment(t, {})])
  {}

  lemma WalkNext(queue: seq<nat>, active: nat, peers: nat, t: seq<Event>, moments: seq<Moment>, next: Moment)
    requires Walk(queue, active, peers, t, moments) && |moments| <= |queue|
    requires Chooses(queue[|moments|-1], active, peers, moments[|moments|-1], next)
    ensures Walk(queue, active, peers, t, moments + [next])
  {
    hide Chooses;
  }

  /** Walk the queue and place new jobs, remotely at once and locally in a plan. */
  method FillGaps(b: EvalBookkeeping)
    returns (pos: nat, local: seq<nat>, ghost planned: set<nat>, ghost moments: seq<Moment>)
    requires b.Valid() && PeerConfig(b) && Strata(b.running, b.concurrency) && b.raw == {}
    requires AllBuffers(b)
    modifies b`trace, b`net, b`running
    ensures old(b.trace) <= b.trace
    ensures b.Valid() && Strata(b.running, b.concurrency)
    ensures b.net.done == old(b.net.done) && Grows(old(b.net), b.net)
    ensures LocalPlan(b.queue, b.queued, b.net, local, planned, pos) && Covered(b.queue, b.net, planned, pos)
    ensures |b.active| + |planned| <= b.concurrency
    ensures pos < |b.queue| ==> |b.active| + |planned| == b.concurrency && |b.running| >= b.buffers
    ensures Walk(b.queue, |b.active|, b.numServers - 1, old(b.trace), moments)
    ensures |moments| == pos + 1 && moments[pos] == Moment(b.trace, planned)
  {
    hide EvalBookkeeping.Valid, Consistent, Safe, Strata, JobsMatch, LocalPlan, Covered, Grows, Injective, Lists,
      Ascending, AllBuffers, PeerConfig, Walk, Chooses;
    RemotePeers(b);
    moments := [Moment(b.trace, {})];
    WalkStarts(b.queue, |b.active|, b.numServers - 1, b.trace);
    b.QueueIsListed();
    var k := b.numServers - 1;
    var jobs := CollectServerJobs(b.running, k);
    var numLocal := |b.active|;
    pos, local, planned := 0, [], {};
    StartPlan(b.queue, b.queued, b.net);
    GrowsSelf(b.net);
    while pos < |b.queue| && (numLocal < b.concurrency || |b.running| < b.buffers)
      invariant old(b.trace) <= b.trace
      invariant b.Valid() && Strata(b.running, b.concurrency) && pos <= |b.queue|
      invariant |jobs| == k && JobsMatch(jobs, b.running)
      invariant b.net.done == old(b.net.done) && Grows(old(b.net), b.net)
      invariant LocalPlan(b.queue, b.queued, b.net, local, planned, pos) && Covered(b.queue, b.net, planned, pos)
      invariant numLocal == |b.active| + |planned| <= b.concurrency
      invariant Walk(b.queue, |b.active|, k, old(b.trace), moments)
      invariant |moments| == pos + 1 && moments[pos] == Moment(b.trace, planned)
      decreases |b.queue| - pos
    {
      ghost var n := b.net;
      local, planned, numLocal, jobs := PlaceOne(b, pos, local, planned, numLocal, jobs);
      WalkNext(b.queue, |b.active|, k, old(b.trace), moments, Moment(b.trace, planned));
      moments := moments + [Moment(b.trace, planned)];
      pos := pos + 1;
      GrowsOn(old(b.net), n, b.net);
    }
  }

  /** The counts behind the search for free places: k peers, and nothing local beyond
      the concurrency. */
  lemma RemotePeers(b: EvalBookkeeping)
    requires b.Valid() && PeerConfig(b)
    ensures 2 <= b.numServers && b.limits.servers == b.numServers - 1
    ensures (forall j | j in b.running :: 1 <= b.running[j].server <= b.numServers - 1) && |b.active| <= b.concurrency
  {
    hide Consistent, Legal, State, BitsMatch;
    b.FactsSafe();
    b.Facts();
  }

  lemma StartPlan(queue: seq<nat>, queued: set<nat>, n: Net)
    ensures LocalPlan(queue, queued, n, [], {}, 0) && Covered(queue, n, {}, 0)
  {}

  /** A job that is neither running nor active goes to the least loaded peer, or to the
      local plan when that is strictly less loaded. */
  method PlaceNew(b: EvalBookkeeping, pos: nat, local: seq<nat>, ghost planned: set<nat>, numLocal: nat,
      jobs: seq<set<nat>>)
    returns (local': seq<nat>, ghost planned': set<nat>, numLocal': nat, jobs': seq<set<nat>>)
    requires b.Valid() && PeerConfig(b) && Strata(b.running, b.concurrency) && b.raw == {}
    requires AllBuffers(b) && Ascending(b.queue)
    requires pos < |b.queue| && |jobs| == b.numServers - 1 && JobsMatch(jobs, b.running)
    requires LocalPlan(b.queue, b.queued, b.net, local, planned, pos) && Covered(b.queue, b.net, planned, pos)
    requires numLocal == |b.active| + |planned| <= b.concurrency
    requires numLocal < b.concurrency || |b.running| < b.buffers
    requires Fresh(b.net, b.queue[pos]) && b.queue[pos] in b.queued && b.queue[pos] !in planned
    modifies b`trace, b`net, b`running
    ensures old(b.trace) <= b.trace
    ensures b.Valid() && Strata(b.running, b.concurrency)
    ensures |jobs'| == |jobs| && JobsMatch(jobs', b.running)
    ensures b.net.done == old(b.net.done) && Grows(old(b.net), b.net)
    ensures LocalPlan(b.queue, b.queued, b.net, local', planned', pos + 1) && Covered(b.queue, b.net, planned', pos + 1)
    ensures numLocal' == |b.active| + |planned'| <= b.concurrency
    ensures Chooses(b.queue[pos], |b.active|, b.numServers - 1, Moment(old(b.trace), planned),
            Moment(b.trace, planned'))
  {
    hide *;
    ActiveCount(b);
    GrowsSelf(b.net);
    var id := b.queue[pos];
    local', planned', numLocal', jobs' := local, planned, numLocal, jobs;
    var m := LeastLoaded(jobs);
    LeastChoice(b, jobs, m, numLocal);
    ghost var log := b.trace;
    if numLocal < |jobs[m]| {
      planned' := planned + {id};
      FreshIsNowhere(b.net, id);
      PlanAdd(b.queue, b.queued, b.net, local, planned, pos, planned');
      StaysLocal(id, |b.active|, |jobs|, log, planned, m + 1);
      local', numLocal' := local + [id], numLocal + 1;
    } else {
      jobs' := SendOut(b, pos, m, local, planned, jobs);
      GoesOut(id, |b.active|, |jobs|, log, planned, b.running[id]);
    }
  }

  lemma ActiveCount(b: EvalBookkeeping)
    requires b.Valid() && PeerConfig(b)
    ensures b.net.local == b.active && b.net == State(b.trace) && 2 <= b.numServers
  {}

  /** What is known of the server picked: it has the least to do, and room if the job does
      not stay local. */
  lemma LeastChoice(b: EvalBookkeeping, jobs: seq<set<nat>>, m: nat, numLocal: nat)
    requires b.Valid() && PeerConfig(b) && AllBuffers(b) && |jobs| == b.numServers - 1 && JobsMatch(jobs, b.running)
    requires m < |jobs| && forall s | 0 <= s < |jobs| :: |jobs[m]| <= |jobs[s]| && (s < m ==> |jobs[m]| < |jobs[s]|)
    requires numLocal < b.concurrency || |b.running| < b.buffers
    ensures FirstLeast(State(b.trace).remote, m + 1, |jobs|)
    ensures Load(State(b.trace).remote, m + 1) == Load(b.running, m + 1) == |jobs[m]|
    ensures numLocal < |jobs[m]| ==> numLocal < b.concurrency
    ensures numLocal >= |jobs[m]| ==> Load(b.running, m + 1) < b.concurrency
  {
    hide EvalBookkeeping.Valid, State, JobsMatch, Injective, Load, Safe;
    NewFacts(b, |jobs|);
    LeastIsFirst(jobs, b.running, m);
    ChoiceFits(b.limits, b.net, m, numLocal);
  }

  /** Send a new job to a peer that has room. */
  method SendOut(b: EvalBookkeeping, pos: nat, m: nat, ghost local: seq<nat>, ghost planned: set<nat>,
      jobs: seq<set<nat>>)
    returns (jobs': seq<set<nat>>)
    requires b.Valid() && PeerConfig(b) && Strata(b.running, b.concurrency) && AllBuffers(b) && Ascending(b.queue)
    requires pos < |b.queue| && |jobs| == b.numServers - 1 && JobsMatch(jobs, b.running)
    requires m < |jobs| && Load(b.running, m + 1) < b.concurrency
    requires LocalPlan(b.queue, b.queued, b.net, local, planned, pos) && Covered(b.queue, b.net, planned, pos)
    requires Fresh(b.net, b.queue[pos]) && b.queue[pos] in b.queued && b.queue[pos] !in planned
    modifies b`trace, b`net, b`running
    ensures b.Valid() && Strata(b.running, b.concurrency) && |jobs'| == |jobs| && JobsMatch(jobs', b.running)
    ensures b.net.done == old(b.net.done) && Grows(old(b.net), b.net)
    ensures LocalPlan(b.queue, b.queued, b.net, local, planned, pos + 1) && Covered(b.queue, b.net, planned, pos + 1)
    ensures b.queue[pos] in b.running && b.running[b.queue[pos]].server == m + 1
    ensures b.trace == old(b.trace) + [Send(b.queue[pos], b.running[b.queue[pos]])]
  {
    hide EvalBookkeeping.Valid, State, Strata, JobsMatch, LocalPlan, Covered, Ascending, Grows, Load, Fresh,
      IsFirstFree, Safe, PeerConfig, AllBuffers;
    NewFacts(b, |jobs|);
    ghost var n := b.net;
    jobs' := PlaceOnServer(b, b.queue[pos], m, jobs);
    b.WaitingJobs();
    b.RunningIsRemote();
    SendGrows(n, b.net);
    PlanSend(b.queue, b.queued, n, b.net, local, planned, pos);
  }

  lemma NewFacts(b: EvalBookkeeping, peers: nat)
    requires b.Valid() && PeerConfig(b) && AllBuffers(b) && peers == b.numServers - 1
    ensures 0 < peers == b.limits.servers && b.limits.load == b.concurrency && Fits(0, peers, b.concurrency, b.buffers)
    ensures Safe(b.limits, b.net) && b.net.remote == b.running && b.net.local == b.active && b.net == State(b.trace)
    ensures Injective(b.running) && b.buffers == b.limits.servers * b.limits.load
  {}

  lemma StaysLocal(job: nat, active: nat, peers: nat, t: seq<Event>, planned: set<nat>, s: nat)
    requires FirstLeast(State(t).remote, s, peers) && active + |planned| < Load(State(t).remote, s)
    requires Fresh(State(t), job) && job !in planned
    ensures Chooses(job, active, peers, Moment(t, planned), Moment(t, planned + {job}))
  {
    hide Load, State, Fresh;
  }

  lemma GoesOut(job: nat, active: nat, peers: nat, t: seq<Event>, planned: set<nat>, slot: Slot)
    requires FirstLeast(State(t).remote, slot.server, peers) && Load(State(t).remote, slot.server) <= active + |planned|
    requires Fresh(State(t), job) && job !in planned
    ensures Chooses(job, active, peers, Moment(t, planned), Moment(t + [Send(job, slot)], planned))
  {
    hide Load, State, Fresh, FirstLeast;
  }

  lemma PassedBy(job: nat, active: nat, peers: nat, t: seq<Event>, planned: set<nat>)
    requires !Fresh(State(t), job)
    ensures Chooses(job, active, peers, Moment(t, planned), Moment(t, planned))
  {}

  lemma FreshIsNowhere(n: Net, j: nat)
    requires Fresh(n, j)
    ensures j !in n.local && j !in n.remote
  {}

  /** One round of the gap-filling loop. */
  method PlaceOne(b: EvalBookkeeping, pos: nat, local: seq<nat>, ghost planned: set<nat>, numLocal: nat,
      jobs: seq<set<nat>>)
    returns (local': seq<nat>, ghost planned': set<nat>, numLocal': nat, jobs': seq<set<nat>>)
    requires b.Valid() && PeerConfig(b) && Strata(b.running, b.concurrency) && b.raw == {}
    requires AllBuffers(b) && Ascending(b.queue)
    requires pos < |b.queue| && |jobs| == b.numServers - 1 && JobsMatch(jobs, b.running)
    requires LocalPlan(b.queue, b.queued, b.net, local, planned, pos) && Covered(b.queue, b.net, planned, pos)
    requires numLocal == |b.active| + |planned| <= b.concurrency
    requires numLocal < b.concurrency || |b.running| < b.buffers
    modifies b`trace, b`net, b`running
    ensures old(b.trace) <= b.trace
    ensures b.Valid() && Strata(b.running, b.concurrency)
    ensures |jobs'| == |jobs| && JobsMatch(jobs', b.running)
    ensures b.net.done == old(b.net.done) && Grows(old(b.net), b.net)
    ensures LocalPlan(b.queue, b.queued, b.net, local', planned', pos + 1) && Covered(b.queue, b.net, planned', pos + 1)
    ensures numLocal' == |b.active| + |planned'| <= b.concurrency
    ensures Chooses(b.queue[pos], |b.active|, b.numServers - 1, Moment(old(b.trace), planned),
            Moment(b.trace, planned'))
  {
    hide *;
    ActiveCount(b);
    b.RunningIsRemote();
    b.QueuedAt(pos);
    GrowsSelf(b.net);
    var id := b.queue[pos];
    if !Fresh(b.net, id) { PassedBy(id, |b.active|, b.numServers - 1, b.trace, planned); }
    NotPlanned(b.queue, b.queued, b.net, local, planned, pos);
    if id !in b.running && id !in b.active {
      local', planned', numLocal', jobs' := PlaceNew(b, pos, local, planned, numLocal, jobs);
    } else if id in b.active {
      PlanAdd(b.queue, b.queued, b.net, local, planned, pos, planned);
      local', planned', numLocal', jobs' := local + [id], planned, numLocal, jobs;
    } else {
      PlanSkip(b.queue, b.queued, b.net, local, planned, pos);
      local', planned', numLocal', jobs' := local, planned, numLocal, jobs;
    }
  }

  lemma SendGrows(n: Net, n': Net)
    requires n.local <= n'.local && n'.done == n.done && n.remote.Keys <= n'.remote.Keys
    ensures Grows(n, n')
  {}

  /** The job counts of the first pass: either every job is assigned or every place. */
  method FirstPassCounts(jobs: nat, servers: nat, c: nat, capacity: nat) returns (local: nat, remote: nat)
    requires 2 <= servers && 1 <= c && capacity == (servers - 1) * c
    ensures local <= c && remote <= capacity && local + remote <= jobs
    ensures (local == c && remote == capacity) || local + remote == jobs
    ensures local == Min(c, jobs / servers) && jobs / servers <= jobs && remote == Min(capacity, jobs - jobs / servers)
  {
    var q := jobs / servers;
    local := Min(c, q);
    DivDown(jobs, servers);
    remote := Min(capacity, jobs - q);
    CountsFit(jobs, servers, c, capacity, q);
  }

  lemma CountsFit(jobs: nat, servers: nat, c: nat, capacity: nat, q: nat)
    requires 2 <= servers && capacity == (servers - 1) * c && q == jobs / servers && q <= jobs
    ensures Min(c, q) + Min(capacity, jobs - q) <= jobs
    ensures (Min(c, q) == c && Min(capacity, jobs - q) == capacity) || Min(c, q) + Min(capacity, jobs - q) == jobs
  {
    ClippedCounts(jobs, servers, c);
    Whole(servers, c);
  }

  lemma Whole(servers: nat, c: nat)
    requires servers > 0
    ensures servers * c == c + (servers - 1) * c
  {}

  lemma FitsAll(b: EvalBookkeeping, count: nat)
    requires PeerConfig(b) && AllBuffers(b) && count <= b.buffers
    ensures b.buffers == (b.numServers - 1) * b.concurrency && b.concurrency != 0
    ensures Fits(count, b.numServers - 1, b.concurrency, b.buffers)
  {}

  /** The first pass: the head of the queue stays local, the jobs behind it are dealt out to
      the peers in queue order, and no peer gets two more than another. */
  ghost predicate FirstDealt(b: EvalBookkeeping, queue: seq<nat>, after: Net) {
    && 2 <= b.numServers
    && var share := |queue| / b.numServers;
       var kept := if b.concurrency <= share then b.concurrency else share;
       var peers, rest := b.numServers - 1, |queue| - share;
       var sent := if peers * b.concurrency <= rest then peers * b.concurrency else rest;
       && after.local == FirstOf(queue, kept) && |after.remote| == sent && Even(after.remote, peers)
       && DealtOut(queue, after.remote, kept, sent, peers, b.concurrency)
  }

  /** What the first step of a call does, from one log to another. */
  ghost predicate StartsJobs(b: EvalBookkeeping, queue: seq<nat>, before: Net, t: seq<Event>, moments: seq<Moment>,
      started: seq<Event>)
  {
    && t <= started && 1 <= b.numServers
    && if before.remote == map[] && before.local == {} then FirstDealt(b, queue, State(started))
       else
         && Walk(queue, |before.local|, b.numServers - 1, t, moments) && Locally(moments[|moments|-1].log, started)
         && State(started).local == before.local + moments[|moments|-1].planned
  }

  /** Step 1 with nothing running: the first jobs stay local, the next ones go out
      round robin. */
  method FirstPass(b: EvalBookkeeping) returns (pos: nat)
    requires b.Valid() && PeerConfig(b) && b.raw == {} && b.running == map[] && b.active == {} && AllBuffers(b)
    modifies b`trace, b`net, b`running, b`active, b`busy
    ensures old(b.trace) <= b.trace && FirstDealt(b, b.queue, b.net)
    ensures b.Valid() && Strata(b.running, b.concurrency) && pos <= |b.queue|
    ensures b.net.done == old(b.net.done) && Grows(old(b.net), b.net) && Placed(b.queue, b.net, 0, pos)
    ensures pos < |b.queue| ==> |b.running| >= b.buffers && |b.active| >= b.concurrency
  {
    hide EvalBookkeeping.Valid, Strata, AllBuffers, Fits, Balances, Even, DealtOut, FirstOf, FirstDealt, Fresh;
    FitsAll(b, 0);
    b.Facts();
    b.AllQueuedFresh();
    ghost var log := b.trace;
    var numLocal, numRemote := FirstPassCounts(|b.queue|, b.numServers, b.concurrency, b.buffers);
    FitsAll(b, numRemote);
    RoundRobin(b, numLocal, numRemote, b.numServers - 1);
    BalancedExtends(log, b.trace, b.numServers - 1);
    b.Facts();
    LaunchFirst(b, numLocal, numRemote);
    b.Facts();
    pos := numLocal + numRemote;
    WasDealt(b, numLocal, numRemote);
  }

  lemma BalancedExtends(t: seq<Event>, t': seq<Event>, peers: nat)
    requires Balances(t, t', peers)
    ensures t <= t'
  {}

  lemma WasDealt(b: EvalBookkeeping, kept: nat, sent: nat)
    requires PeerConfig(b) && AllBuffers(b) && |b.queue| / b.numServers <= |b.queue|
    requires kept == Min(b.concurrency, |b.queue| / b.numServers)
    requires sent == Min(b.buffers, |b.queue| - |b.queue| / b.numServers)
    requires b.net.local == FirstOf(b.queue, kept) && |b.net.remote| == sent && Even(b.net.remote, b.numServers - 1)
    requires DealtOut(b.queue, b.net.remote, kept, sent, b.numServers - 1, b.concurrency)
    ensures FirstDealt(b, b.queue, b.net)
  {
    hide Even, DealtOut, FirstOf;
  }

  /** Launch the head of the queue locally after the jobs behind it were sent. */
  method LaunchFirst(b: EvalBookkeeping, numLocal: nat, ghost numRemote: nat)
    requires b.Valid() && PeerConfig(b) && b.active == {} && numLocal <= b.concurrency
    requires numLocal + numRemote <= |b.queue| && forall p | 0 <= p < numLocal :: Fresh(b.net, b.queue[p])
    requires forall p | numLocal <= p < numLocal + numRemote :: b.queue[p] in b.running
    modifies b`trace, b`net, b`active, b`busy
    ensures old(b.trace) <= b.trace
    ensures b.Valid() && b.net.done == old(b.net.done) && b.net.remote == old(b.net.remote)
    ensures b.active == FirstOf(b.queue, numLocal) && |b.active| == numLocal
    ensures Placed(b.queue, b.net, 0, numLocal + numRemote)
  {
    hide EvalBookkeeping.Valid, Lists, Ascending, Placed, Served, FirstOf, EvalBookkeeping.OneEach, Consecutive;
    b.Facts();
    b.QueueIsListed();
    FrontAscends(b.queue, numLocal);
    var local := b.queue[..numLocal];
    ghost var jobs := IdsOf(local);
    LocalJobsFresh(b, local, jobs);
    ghost var n := b.net;
    var launched := AssignAsynchLocalQueue(b, local, jobs);
    b.Facts();
    FirstPassPlaced(b, local, numRemote, launched);
    HeadLaunched(b.queue, numLocal, jobs, n, b.net);
  }

  lemma FrontAscends(queue: seq<nat>, n: nat)
    requires Ascending(queue) && n <= |queue|
    ensures Ascending(queue[..n])
  {}

  /** The jobs that were launched are the head of the queue. */
  lemma HeadLaunched(queue: seq<nat>, count: nat, jobs: set<nat>, n: Net, n': Net)
    requires count <= |queue| && (forall j | j in jobs :: j in queue[..count]) && n'.local <= jobs
    requires n'.done == n.done && n'.remote == n.remote
    requires forall p | 0 <= p < count :: Fresh(n, queue[p]) && !Fresh(n', queue[p])
    ensures n'.local == FirstOf(queue, count)
  {
    forall j | j in n'.local ensures j in FirstOf(queue, count) {
      var p :| 0 <= p < count && queue[..count][p] == j;
      assert queue[p] == j;
    }
    assert forall p | 0 <= p < count :: queue[p] in n'.local;
  }

  lemma FirstPassPlaced(b: EvalBookkeeping, local: seq<nat>, numRemote: nat, launched: nat)
    requires |local| + numRemote <= |b.queue| && launched == |local| && local == b.queue[..|local|]
    requires Started(local, launched, b.net)
    requires forall p | |local| <= p < |local| + numRemote :: b.queue[p] in b.net.remote
    ensures Placed(b.queue, b.net, 0, |local| + numRemote)
  {
    forall p | 0 <= p < |local| + numRemote ensures !Fresh(b.net, b.queue[p]) {
      if p < |local| { assert local[p] == b.queue[p]; }
    }
  }

  lemma LocalJobsFresh(b: EvalBookkeeping, local: seq<nat>, jobs: set<nat>)
    requires b.Valid() && Lists(local, jobs) && (forall j | j in jobs :: j in local)
    requires |local| <= |b.queue| && forall i | 0 <= i < |local| :: local[i] == b.queue[i] && Fresh(b.net, b.queue[i])
    ensures jobs <= b.queued && AllFresh(jobs, b.net)
  {
    hide Safe, Legal, State, BitsMatch;
    forall j | j in jobs ensures j in b.queued && Fresh(b.net, j) {
      var i :| 0 <= i < |local| && local[i] == j;
      b.QueuedAt(i);
    }
  }

  /** Every job of the local plan is launched: the plan fits the concurrency. */
  lemma PlanLaunched(queue: seq<nat>, queued: set<nat>, n: Net, n': Net, local: seq<nat>, planned: set<nat>, pos: nat,
      done: nat, c: nat)
    requires LocalPlan(queue, queued, n, local, planned, pos) && Covered(queue, n, planned, pos) && Grows(n, n')
    requires n'.done == n.done && n'.remote == n.remote && n.local <= n'.local
    requires (forall j | j in n'.local && j !in n.local :: j in local) && done <= |local|
    requires forall p | 0 <= p < done :: !Fresh(n', local[p])
    requires |n.local| + |planned| <= c && (done < |local| ==> |n'.local| == c)
    ensures n'.local == n.local + planned && Placed(queue, n', 0, pos) && |n'.local| == |n.local| + |planned|
  {
    assert n.local !! planned;
    assert |n.local + planned| == |n.local| + |planned|;
    forall j | j in n'.local && j !in n.local ensures j in planned {
      var q :| 0 <= q < |local| && local[q] == j;
    }
    if done < |local| {
      SameSize(n'.local, n.local + planned);
    } else {
      forall j | j in planned ensures j in n'.local {
        var q :| 0 <= q < |local| && local[q] == j;
        assert !Fresh(n', local[q]);
      }
      assert n'.local == n.local + planned;
    }
  }

  /** Step 1: launch new jobs up to the capacity. */
  method LaunchNew(b: EvalBookkeeping) returns (pos: nat, ghost moments: seq<Moment>)
    requires b.Valid() && PeerConfig(b) && Strata(b.running, b.concurrency) && b.raw == {} && AllBuffers(b)
    modifies b`trace, b`net, b`running, b`active, b`busy
    ensures StartsJobs(b, b.queue, old(b.net), old(b.trace), moments, b.trace)
    ensures b.Valid() && Strata(b.running, b.concurrency) && pos <= |b.queue|
    ensures b.net.done == old(b.net.done) && Grows(old(b.net), b.net) && Placed(b.queue, b.net, 0, pos)
    ensures (|b.running| >= b.buffers && |b.active| >= b.concurrency) || Placed(b.queue, b.net, pos, |b.queue|)
  {
    hide EvalBookkeeping.Valid, Strata, AllBuffers, Grows, Placed, FirstDealt, StartsJobs, State, PeerConfig;
    RemoteBound(b);
    b.WaitingJobs();
    b.Facts();
    var numRunning := |b.running| + |b.active|;
    GrowsSelf(b.net);
    pos := 0;
    NonePlaced(b.queue, b.net, 0);
    moments := [Moment(b.trace, {})];
    ghost var n, log := b.net, b.trace;
    if numRunning == 0 {
      NoneRunning(b);
      pos := FirstPass(b);
      b.WaitingJobs();
      StartsFirst(b, n, log, moments);
      NonePlaced(b.queue, b.net, |b.queue|);
    } else if |b.queue| - numRunning != 0 && numRunning < b.buffers + b.concurrency {
      pos, moments := FillAndLaunch(b);
      NonePlaced(b.queue, b.net, |b.queue|);
    } else {
      NothingToLaunch(b);
      b.SomeServer();
      StartsNothing(b, b.queue, n, log);
    }
  }

  lemma StartsFirst(b: EvalBookkeeping, n: Net, t: seq<Event>, moments: seq<Moment>)
    requires n.remote == map[] && n.local == {} && t <= b.trace && FirstDealt(b, b.queue, State(b.trace))
    ensures StartsJobs(b, b.queue, n, t, moments, b.trace)
  {
    hide State, Even, DealtOut;
  }

  lemma StartsNothing(b: EvalBookkeeping, queue: seq<nat>, n: Net, t: seq<Event>)
    requires 1 <= b.numServers && n == State(t) && |n.remote| + |n.local| != 0
    ensures StartsJobs(b, queue, n, t, [Moment(t, {})], t)
  {
    hide State, Chooses;
    LocallyOn(t, t, Launch(0));
  }

  lemma NoneRunning(b: EvalBookkeeping)
    requires |b.running| + |b.active| == 0
    ensures b.running == map[] && b.active == {}
  {
    assert |b.running.Keys| == 0;
  }

  /** All jobs are placed, or all places are taken. */
  lemma NothingToLaunch(b: EvalBookkeeping)
    requires b.Valid() && PeerConfig(b) && b.raw == {} && |b.running| <= b.buffers
    requires |b.queue| == |b.running| + |b.active| || |b.running| + |b.active| >= b.buffers + b.concurrency
    ensures (|b.running| >= b.buffers && |b.active| >= b.concurrency) || Placed(b.queue, b.net, 0, |b.queue|)
  {
    hide Consistent, Safe, Legal, State, BitsMatch;
    b.Facts();
    if |b.queue| == |b.running| + |b.active| { b.AllAssigned(); }
  }

  lemma RemoteBound(b: EvalBookkeeping)
    requires b.Valid() && PeerConfig(b) && AllBuffers(b)
    ensures |b.running| <= b.buffers
  {
    CapacityBound(b.limits, b.net);
  }

  /** Step 1 with some jobs running. */
  method FillAndLaunch(b: EvalBookkeeping) returns (pos: nat, ghost moments: seq<Moment>)
    requires b.Valid() && PeerConfig(b) && Strata(b.running, b.concurrency) && b.raw == {} && AllBuffers(b)
    requires |b.running| + |b.active| != 0
    modifies b`trace, b`net, b`running, b`active, b`busy
    ensures StartsJobs(b, b.queue, old(b.net), old(b.trace), moments, b.trace)
    ensures b.Valid() && Strata(b.running, b.concurrency) && pos <= |b.queue|
    ensures b.net.done == old(b.net.done) && Grows(old(b.net), b.net) && Placed(b.queue, b.net, 0, pos)
    ensures pos < |b.queue| ==> |b.running| >= b.buffers && |b.active| >= b.concurrency
  {
    hide EvalBookkeeping.Valid, Strata, Ascending, AllBuffers, LocalPlan, Covered, Grows, Placed, Walk, StartsJobs,
      Served, EvalBookkeeping.OneEach, EvalBookkeeping.LeftBehind, Locally, State;
    var local;
    ghost var planned;
    b.Facts();
    ghost var n0, t0, active := b.net, b.trace, b.active;
    pos, local, planned, moments := FillGaps(b);
    b.Facts();
    ghost var n, log := b.net, b.trace;
    PlanFacts(b.queue, b.queued, n, local, planned, pos);
    var launched := AssignAsynchLocalQueueNowait(b, local);
    LocallyExtends(log, b.trace);
    b.Facts();
    b.WaitingJobs();
    SendGrows(n, b.net);
    GrowsOn(old(b.net), n, b.net);
    PlannedBehind(b, local, launched);
    PlanLaunched(b.queue, b.queued, n, b.net, local, planned, pos, launched, b.concurrency);
    StartsWalk(b, b.queue, n0, t0, moments, log, planned);
  }

  lemma PlannedBehind(b: EvalBookkeeping, local: seq<nat>, launched: nat)
    requires PeerConfig(b) && launched <= |local| && forall p | 0 <= p < launched :: b.LeftBehind(local[p], b.net)
    ensures forall p | 0 <= p < launched :: !Fresh(b.net, local[p])
  {}

  lemma StartsWalk(b: EvalBookkeeping, queue: seq<nat>, n: Net, t: seq<Event>, moments: seq<Moment>, log: seq<Event>,
      planned: set<nat>)
    requires PeerConfig(b) && n.remote.Keys + n.local != {} && t <= log <= b.trace && Locally(log, b.trace)
    requires Walk(queue, |n.local|, b.numServers - 1, t, moments) && moments[|moments|-1] == Moment(log, planned)
    requires State(b.trace).local == n.local + planned
    ensures StartsJobs(b, queue, n, t, moments, b.trace)
  {
    hide State, Chooses;
  }

  lemma PlanFacts(queue: seq<nat>, queued: set<nat>, n: Net, local: seq<nat>, planned: set<nat>, pos: nat)
    requires LocalPlan(queue, queued, n, local, planned, pos)
    ensures Ascending(local) && pos <= |queue|
    ensures forall q | 0 <= q < |local| :: local[q] in queued && (local[q] in n.local || Fresh(n, local[q]))
  {}

  /** peer_dynamic_schedule_evaluations_nowait.  Over every sequence of nonblocking
      calls no job is both local and remote, the local and remote capacities and the
      strata are respected, and a job is left waiting only when every place on every
      peer is taken.  `ready` are the jobs whose results are in. */
  method PeerDynamicNowait(b: EvalBookkeeping, ready: set<nat>)
    returns (ghost moments: seq<Moment>, ghost started: seq<Event>)
    requires b.Valid() && PeerConfig(b) && Strata(b.running, b.concurrency) && b.raw == {}
    requires b.buffers == 0 || AllBuffers(b)
    modifies b`trace, b`net, b`running, b`active, b`busy, b`raw, b`buffers
    ensures StartsJobs(b, b.queue, old(b.net), old(b.trace), moments, started) && Reuses(started, b.trace)
    ensures b.Valid() && Strata(b.running, b.concurrency)
    ensures if b.running == map[] then b.buffers == 0 else AllBuffers(b)
    ensures Grows(old(b.net), b.net) && b.raw == b.net.done - old(b.net.done)
    ensures Reports(b.raw, ready, old(b.running).Keys + old(b.active))
    ensures b.running.Keys !! b.active
    ensures |b.active| <= b.concurrency && |b.running| <= (b.numServers - 1) * b.concurrency
    ensures (|b.active| == b.concurrency && |b.running| == (b.numServers - 1) * b.concurrency)
         || Placed(b.queue, b.net, 0, |b.queue|)
  {
    hide EvalBookkeeping.Valid, Strata, Grows, Placed, AllBuffers, Reports, PeerConfig, StartsJobs, Reuses;
    if b.buffers == 0 { MakeBuffers(b); }
    moments, started := LaunchAndPoll(b, ready);
    FitsAll(b, 0);
    b.Facts();
    if b.running == map[] { b.Release(); }
  }

  /** Both steps, with the buffers in place. */
  method LaunchAndPoll(b: EvalBookkeeping, ready: set<nat>)
    returns (ghost moments: seq<Moment>, ghost started: seq<Event>)
    requires b.Valid() && PeerConfig(b) && Strata(b.running, b.concurrency) && b.raw == {} && AllBuffers(b)
    modifies b`trace, b`net, b`running, b`active, b`busy, b`raw
    ensures StartsJobs(b, b.queue, old(b.net), old(b.trace), moments, started) && Reuses(started, b.trace)
    ensures b.Valid() && Strata(b.running, b.concurrency)
    ensures Grows(old(b.net), b.net) && b.raw == b.net.done - old(b.net.done)
    ensures Reports(b.raw, ready, old(b.running).Keys + old(b.active))
    ensures |b.running| <= b.buffers
    ensures (|b.active| >= b.concurrency && |b.running| == b.buffers) || Placed(b.queue, b.net, 0, |b.queue|)
  {
    hide EvalBookkeeping.Valid, Strata, Grows, Placed, AllBuffers, Reports, Took, PeerConfig, StartsJobs, Reuses;
    b.NothingDoneQueued();
    b.WaitingJobs();
    var pos;
    pos, moments := LaunchNew(b);
    started := b.trace;
    b.WaitingJobs();
    b.QueuedSets();
    ghost var n0, waiting := b.net, b.running.Keys + b.active;
    pos := Poll(b, pos, ready);
    GrowsOn(old(b.net), n0, b.net);
    TookQueued(n0.done, b.net.done, ready, waiting, b.queued);
    b.NewResults(old(b.net.done));
    ReadyReported(old(b.net), n0, b.net, b.raw, ready, waiting, old(b.running).Keys + old(b.active));
    RemoteBound(b);
  }

  method MakeBuffers(b: EvalBookkeeping)
    requires b.Valid() && PeerConfig(b) && b.buffers == 0
    modifies b`buffers
    ensures b.Valid() && AllBuffers(b)
  {
    b.Allocate((b.numServers - 1) * b.concurrency);
  }

  /** Step 2: test the remote jobs and then the local ones, backfilling from one shared
      iterator. */
  method Poll(b: EvalBookkeeping, start: nat, ready: set<nat>) returns (pos: nat)
    requires b.Valid() && PeerConfig(b) && Strata(b.running, b.concurrency) && AllBuffers(b)
    requires start <= |b.queue| && Placed(b.queue, b.net, 0, start)
    requires (|b.running| >= b.buffers && |b.active| >= b.concurrency) || Placed(b.queue, b.net, start, |b.queue|)
    modifies b`trace, b`net, b`running, b`active, b`busy, b`raw
    ensures b.Valid() && Strata(b.running, b.concurrency) && pos <= |b.queue|
    ensures Grows(old(b.net), b.net) && Reuses(old(b.trace), b.trace)
    ensures Took(old(b.net.done), b.net.done, ready, old(b.running).Keys + old(b.active))
    ensures (|b.running| >= b.buffers && |b.active| >= b.concurrency) || Placed(b.queue, b.net, 0, |b.queue|)
  {
    hide *;
    ghost var n0, remote, local := b.net, b.running.Keys, b.active;
    ghost var full := |b.running| >= b.buffers && |b.active| >= b.concurrency;
    pos := PollRemote(b, start, ready);
    ghost var n1, mid, log := b.net, pos, b.trace;
    PollRemoteEnds(b.queue, n0, n1, start, mid);
    var completed;
    pos, completed := PollLocal(b, pos, ready);
    RelayThenLocal(old(b.trace), log, b.trace);
    TookBoth(n0.done, n1.done, b.net.done, remote, local, ready);
    GrowsOn(n0, n1, b.net);
    if pos < |b.queue| && full {
      assert |b.running| >= b.buffers;
      assert |b.active| >= b.concurrency;
    } else {
      PollEnds(b.queue, n0, b.net, start, pos);
    }
  }

  method PollLocal(b: EvalBookkeeping, start: nat, ready: set<nat>) returns (pos: nat, completed: nat)
    requires b.Valid() && PeerConfig(b) && start <= |b.queue| && Placed(b.queue, b.net, 0, start)
    modifies b`trace, b`net, b`active, b`busy, b`raw
    ensures b.Valid() && start <= pos <= |b.queue| && Placed(b.queue, b.net, 0, pos) && Locally(old(b.trace), b.trace)
    ensures Grows(old(b.net), b.net) && Took(old(b.net.done), b.net.done, ready, old(b.active))
    ensures old(b.active) <= b.queued
    ensures completed == |b.net.done| - |old(b.net.done)|
    ensures pos < |b.queue| ==> |b.active| == b.concurrency || b.active == old(b.active)
  {
    hide Consistent, Safe, Legal, State, BitsMatch, Grows, Placed;
    ghost var n := b.net;
    b.QueuedSets();
    b.ActiveIsLocal();
    pos, completed := b.TestLocalBackfill(start, ready);
    b.ActiveIsLocal();
    StaysPlaced(b.queue, n, b.net, 0, start);
    AllBehind(b, start, pos, completed);
    PlacedFurther(b.queue, b.net, start, pos, completed);
  }

  lemma PlacedFurther(queue: seq<nat>, n: Net, start: nat, pos: nat, completed: nat)
    requires start <= pos <= |queue| && Placed(queue, n, 0, start)
    requires if completed > 0 then Placed(queue, n, start, pos) else pos == start
    ensures Placed(queue, n, 0, pos)
  {}

  lemma PollRemoteEnds(queue: seq<nat>, n0: Net, n1: Net, start: nat, mid: nat)
    requires Grows(n0, n1) && start <= mid <= |queue|
    requires Placed(queue, n0, 0, start) && Placed(queue, n1, start, mid)
    ensures Placed(queue, n1, 0, mid)
  {
    StaysPlaced(queue, n0, n1, 0, start);
    PlacedOn(queue, n1, 0, start, mid);
  }

  lemma PollEnds(queue: seq<nat>, n: Net, n': Net, start: nat, pos: nat)
    requires Grows(n, n') && start <= pos <= |queue| && Placed(queue, n, 0, start) && Placed(queue, n', 0, pos)
    ensures pos == |queue| || Placed(queue, n, start, |queue|) ==> Placed(queue, n', 0, |queue|)
  {
    if Placed(queue, n, start, |queue|) {
      StaysPlaced(queue, n, n', 0, start);
      StaysPlaced(queue, n, n', start, |queue|);
    }
  }

  lemma AllBehind(b: EvalBookkeeping, lo: nat, hi: nat, completed: nat)
    requires !b.StaticLimited() && hi <= |b.queue|
    requires completed > 0 ==> forall p | lo <= p < hi :: b.LeftBehind(b.queue[p], b.net)
    ensures completed > 0 ==> Placed(b.queue, b.net, lo, hi)
  {}
}
