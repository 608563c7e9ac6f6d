/**
  The nonblocking master-slave scheduler.
 */
module MasterNowait {
  import opened Common
  import opened SlotProtocol
  import opened Bookkeeping
  import opened SlotAllocator
  import opened NowaitPlacement

  function Capacity(b: EvalBookkeeping): nat {
    b.numServers * b.concurrency
  }

  lemma AllPlaces(b: EvalBookkeeping)
    ensures Capacity(b) == b.numServers * b.concurrency
  {}

  /** Step 1 when some jobs are running: fill the gaps up to the capacity. */
  method FillGaps(b: EvalBookkeeping) returns (pos: nat)
    requires b.Valid() && Strata(b.running, b.concurrency)
    requires b.limits.servers == b.numServers && b.limits.load == b.concurrency
    requires Capacity(b) <= b.buffers
    requires b.active == {} && b.raw == {}
    modifies b`trace, b`net, b`running
    ensures Balances(old(b.trace), b.trace, b.numServers)
    ensures b.Valid() && Strata(b.running, b.concurrency) && pos <= |b.queue|
    ensures b.net.done == old(b.net.done) && b.net.local == old(b.net.local)
    ensures old(b.running).Keys <= b.running.Keys
    ensures forall p | 0 <= p < pos :: b.queue[p] in b.running
    ensures pos < |b.queue| ==> |b.running| >= Capacity(b)
  {
    hide *;
    b.FactsSafe();
    BalancesSelf(b.trace, b.numServers);
    var jobs := CollectServerJobs(b.running, b.numServers);
    pos := 0;
    while pos < |b.queue| && |b.running| < Capacity(b)
      invariant Balances(old(b.trace), b.trace, b.numServers)
      invariant b.Valid() && Strata(b.running, b.concurrency) && pos <= |b.queue|
      invariant |jobs| == b.numServers && JobsMatch(jobs, b.running)
      invariant b.net.done == old(b.net.done) && b.net.local == old(b.net.local)
      invariant forall j | j in old(b.running) :: j in b.running
      invariant forall p | 0 <= p < pos :: b.queue[p] in b.running
    {
      if b.queue[pos] !in b.running {
        jobs := PlaceNext(b, pos, jobs, old(b.trace));
      }
      pos := pos + 1;
    }
  }

  /** Send a new job to the first server that has the least to do. */
  method PlaceNext(b: EvalBookkeeping, pos: nat, jobs: seq<set<nat>>, ghost t: seq<Event>)
    returns (jobs': seq<set<nat>>)
    requires b.Valid() && Strata(b.running, b.concurrency) && pos < |b.queue| && b.queue[pos] !in b.running
    requires b.limits.servers == b.numServers && b.limits.load == b.concurrency
    requires Capacity(b) <= b.buffers && |b.running| < Capacity(b) && b.active == {} && b.raw == {}
    requires |jobs| == b.numServers && JobsMatch(jobs, b.running) && Balances(t, b.trace, b.numServers)
    modifies b`trace, b`net, b`running
    ensures Balances(t, b.trace, b.numServers)
    ensures b.Valid() && Strata(b.running, b.concurrency) && |jobs'| == |jobs| && JobsMatch(jobs', b.running)
    ensures b.net.done == old(b.net.done) && b.net.local == old(b.net.local)
    ensures b.queue[pos] in b.running && forall j | j in old(b.running) :: j in b.running
  {
    hide EvalBookkeeping.Valid, State, Strata, JobsMatch, Injective, Balances, FirstLeast, IsFirstFree, Load;
    b.FactsSafe();
    b.WaitingJobs();
    b.RunningIsRemote();
    b.SomeServer();
    b.QueuedAt(pos);
    var m := LeastLoaded(jobs);
    LeastLoadedServer(jobs, b.running, m, b.concurrency);
    LeastIsFirst(jobs, b.running, m);
    ghost var log := b.trace;
    jobs' := PlaceOnServer(b, b.queue[pos], m, jobs);
    BalancesOn(t, log, Send(b.queue[pos], b.running[b.queue[pos]]), b.numServers);
  }

  /** Every new job goes to the first server with the least to do; with nothing running the
      jobs are dealt out in queue order, and no server gets two more than another. */
  ghost predicate Places(b: EvalBookkeeping, queue: seq<nat>, before: map<nat, Slot>, t: seq<Event>, placed: seq<Event>)
  {
    && Balances(t, placed, b.numServers)
    && (before == map[] ==>
          && 0 < b.numServers && Even(State(placed).remote, b.numServers)
          && DealtOut(queue, State(placed).remote, 0, Min(b.numServers * b.concurrency, |queue|), b.numServers,
            b.concurrency))
  }

  /** Step 1: launch new jobs up to the capacity. */
  method LaunchNew(b: EvalBookkeeping) returns (pos: nat)
    requires b.Valid() && Strata(b.running, b.concurrency)
    requires b.limits.servers == b.numServers && b.limits.load == b.concurrency
    requires b.buffers == Capacity(b)
    requires b.active == {} && b.raw == {}
    modifies b`trace, b`net, b`running
    ensures Places(b, b.queue, old(b.running), old(b.trace), b.trace)
    ensures b.Valid() && Strata(b.running, b.concurrency) && pos <= |b.queue|
    ensures b.net.done == old(b.net.done) && Grows(old(b.net), b.net)
    ensures Placed(b.queue, b.net, 0, pos)
    ensures |b.running| >= Capacity(b) || Placed(b.queue, b.net, pos, |b.queue|)
  {
    hide EvalBookkeeping.Valid, Strata, Placed, Grows, Fresh, Balances, Even, DealtOut, State;
    BalancesSelf(b.trace, b.numServers);
    var capacity := Capacity(b);
    pos := 0;
    ghost var n := b.net;
    b.RunningIsRemote();
    NonePlaced(b.queue, n, 0);
    GrowsSelf(n);
    if b.running == map[] {
      b.AllQueuedFresh();
      pos := if capacity <= |b.queue| then capacity else |b.queue|;
      b.SomeServer();
      RoundRobin(b, 0, pos, b.numServers);
      b.RunningIsRemote();
      RunningPlaced(b.queue, n, b.net, pos);
    } else if |b.queue| - |b.running| != 0 && |b.running| < capacity {
      pos := FillGaps(b);
      b.RunningIsRemote();
      RunningPlaced(b.queue, n, b.net, pos);
    } else if |b.running| == |b.queue| {
      b.AllRunning();
      RunningPlaced(b.queue, n, b.net, |b.queue|);
    }
    b.WaitingJobs();
    if pos == |b.queue| { NonePlaced(b.queue, b.net, pos); }
  }

  lemma RunningPlaced(queue: seq<nat>, n: Net, n': Net, pos: nat)
    requires n'.done == n.done && n'.local == n.local && n.remote.Keys <= n'.remote.Keys && pos <= |queue|
    requires forall p | 0 <= p < pos :: queue[p] in n'.remote
    ensures Grows(n, n') && Placed(queue, n', 0, pos)
  {}

  /** master_dynamic_schedule_evaluations_nowait.  Valid() and the strata are kept by
      this call and by queueing and retiring jobs in between, so they hold over every
      sequence of nonblocking calls; a job is left waiting only when all slots are in
      use.  `ready` are the jobs whose results have arrived. */
  method MasterDynamicNowait(b: EvalBookkeeping, ready: set<nat>) returns (ghost placed: seq<Event>)
    requires b.Valid() && Strata(b.running, b.concurrency)
    requires b.limits.servers == b.numServers && b.limits.load == b.concurrency && 1 <= b.concurrency
    requires b.active == {} && b.raw == {}
    requires b.buffers == 0 || b.buffers == b.numServers * b.concurrency
    modifies b`trace, b`net, b`running, b`raw, b`buffers
    ensures Places(b, b.queue, old(b.running), old(b.trace), placed) && Relays(placed, b.trace)
    ensures b.Valid() && Strata(b.running, b.concurrency)
    ensures b.buffers == (if b.running == map[] then 0 else b.numServers * b.concurrency)
    ensures Grows(old(b.net), b.net) && b.raw == b.net.done - old(b.net.done)
    ensures Reports(b.raw, ready, old(b.running).Keys)
    ensures |b.running| <= b.numServers * b.concurrency
    ensures |b.running| == b.numServers * b.concurrency || Placed(b.queue, b.net, 0, |b.queue|)
  {
    hide EvalBookkeeping.Valid, Strata, Grows, Placed, Reports, Capacity, Places, Relays;
    AllPlaces(b);
    if b.buffers == 0 { b.Allocate(Capacity(b)); }
    placed := LaunchAndPoll(b, ready);
    if b.running == map[] { b.Release(); }
  }

  /** Both steps, with the buffers in place. */
  method LaunchAndPoll(b: EvalBookkeeping, ready: set<nat>) returns (ghost placed: seq<Event>)
    requires b.Valid() && Strata(b.running, b.concurrency)
    requires b.limits.servers == b.numServers && b.limits.load == b.concurrency && b.buffers == Capacity(b)
    requires b.active == {} && b.raw == {}
    modifies b`trace, b`net, b`running, b`raw
    ensures Places(b, b.queue, old(b.running), old(b.trace), placed) && Relays(placed, b.trace)
    ensures b.Valid() && Strata(b.running, b.concurrency)
    ensures Grows(old(b.net), b.net) && b.raw == b.net.done - old(b.net.done)
    ensures Reports(b.raw, ready, old(b.running).Keys)
    ensures |b.running| <= Capacity(b) && (|b.running| == Capacity(b) || Placed(b.queue, b.net, 0, |b.queue|))
  {
    hide *;
    b.NothingDoneQueued();
    b.WaitingJobs();
    var pos := LaunchNew(b);
    ghost var mid, size, n, waiting := pos, |b.running|, b.net, b.running.Keys;
    b.WaitingJobs();
    placed := b.trace;
    pos := PollRemote(b, pos, ready);
    Settle(b, size, n, mid, pos);
    GrowsOn(old(b.net), n, b.net);
    TookQueued(n.done, b.net.done, ready, waiting, b.queued);
    b.NewResults(old(b.net.done));
    ReadyReported(old(b.net), n, b.net, b.raw, ready, waiting, old(b.running).Keys);
  }

  /** What a poll for results keeps of the state before it. */
  lemma Settle(b: EvalBookkeeping, size: nat, n: Net, mid: nat, pos: nat)
    requires b.Valid() && b.limits.servers == b.numServers && b.limits.load == b.concurrency
    requires Grows(n, b.net) && mid <= pos <= |b.queue| && (pos < |b.queue| ==> |b.running| == size)
    requires Placed(b.queue, n, 0, mid) && Placed(b.queue, b.net, mid, pos)
    requires size >= Capacity(b) || Placed(b.queue, n, mid, |b.queue|)
    ensures |b.running| <= Capacity(b)
    ensures |b.running| == Capacity(b) || Placed(b.queue, b.net, 0, |b.queue|)
  {
    hide Consistent, Safe, Legal, State, BitsMatch, Within, Grows, Placed;
    b.Facts();
    CapacityBound(b.limits, b.net);
    StaysPlaced(b.queue, n, b.net, 0, mid);
    PlacedOn(b.queue, b.net, 0, mid, pos);
    if Placed(b.queue, n, mid, |b.queue|) {
      StaysPlaced(b.queue, n, b.net, mid, |b.queue|);
      PlacedOn(b.queue, b.net, 0, mid, |b.queue|);
    }
  }
}
