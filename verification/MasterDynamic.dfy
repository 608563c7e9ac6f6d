/**
  The blocking master-slave scheduler.
 */
module MasterDynamic {
  import opened Common
  import opened SlotProtocol
  import opened Bookkeeping
  import opened HomeSlots

  /** recvRequests: the job each buffer awaits, 0 for an inactive request.  A buffer
      always talks to the same server. */
  ghost predicate Posted(requests: seq<nat>, remote: map<nat, Slot>, k: nat) {
    && 0 < k && AtHome(remote, k)
    && (forall i | 0 <= i < |requests| && requests[i] != 0 :: requests[i] in remote && remote[requests[i]].buffer == i)
    && (forall j | j in remote :: j != 0 && remote[j].buffer < |requests| && requests[remote[j].buffer] == j)
  }

  /** The queue is dealt out in order, up to the send counter. */
  ghost predicate SentUpTo(queue: seq<nat>, n: Net, sent: nat) {
    && sent <= |queue|
    && (forall p | 0 <= p < sent :: !Fresh(n, queue[p]))
    && (forall p | sent <= p < |queue| :: Fresh(n, queue[p]))
  }

  ghost predicate BuffersFit(lim: Limits, buffers: nat) {
    buffers <= lim.servers * lim.load
  }

  ghost predicate Scheduling(b: EvalBookkeeping, before: set<nat>, requests: seq<nat>, sent: nat, recv: nat)
    reads b
  {
    && b.Valid() && b.limits.servers == b.numServers && BuffersFit(b.limits, b.buffers)
    && |requests| == b.buffers && Posted(requests, b.running, b.numServers)
    && SentUpTo(b.queue, b.net, sent)
    && recv == |b.raw| && |b.running| + recv == sent && b.net.done == before + b.raw
  }

  lemma PostSend(lim: Limits, n: Net, requests: seq<nat>, queue: seq<nat>, sent: nat, index: nat)
    requires Safe(lim, n) && Posted(requests, n.remote, lim.servers) && BuffersFit(lim, |requests|)
    requires Ascending(queue) && SentUpTo(queue, n, sent) && sent < |queue| && index < |requests|
    requires requests[index] == 0
    ensures Enabled(lim, n, Send(queue[sent], HomeSlot(index, lim.servers)))
    ensures Posted(requests[index := queue[sent]], n.remote[queue[sent] := HomeSlot(index, lim.servers)], lim.servers)
    ensures SentUpTo(queue, Next(n, Send(queue[sent], HomeSlot(index, lim.servers))), sent + 1)
  {
    FreeHomeMeansRoom(lim, n, queue[sent], index, |requests|, lim.load);
  }

  lemma TakePosted(requests: seq<nat>, remote: map<nat, Slot>, k: nat, index: nat)
    requires Posted(requests, remote, k) && index < |requests| && requests[index] != 0
    ensures requests[index] in remote && remote[requests[index]] == HomeSlot(index, k)
    ensures Posted(requests[index := 0], remote - {requests[index]}, k)
  {}

  lemma StaySent(queue: seq<nat>, n: Net, sent: nat, job: nat)
    requires SentUpTo(queue, n, sent) && job in n.remote
    ensures SentUpTo(queue, Next(n, Recv(job, n.remote[job])), sent)
  {}

  /** The first jobs of the queue went out through the buffers of their positions, to the
      servers in turn. */
  ghost predicate SentInTurn(queue: seq<nat>, remote: map<nat, Slot>, count: nat, k: nat) {
    && 0 < k && count <= |queue|
    && forall p | 0 <= p < count :: queue[p] in remote && remote[queue[p]] == Slot(p % k + 1, p)
  }

  lemma SentInTurnNext(queue: seq<nat>, remote: map<nat, Slot>, count: nat, k: nat)
    requires SentInTurn(queue, remote, count, k) && count < |queue| && queue[count] !in remote
    ensures SentInTurn(queue, remote[queue[count] := Slot(count % k + 1, count)], count + 1, k)
  {}

  /** Send the next job of the queue through an inactive request. */
  method SendNext(b: EvalBookkeeping, ghost before: set<nat>, requests: seq<nat>, index: nat, sent: nat,
      ghost recv: nat)
    returns (requests': seq<nat>)
    requires Scheduling(b, before, requests, sent, recv)
    requires sent < |b.queue| && index < |requests| && requests[index] == 0
    modifies b`trace, b`net, b`running
    ensures 0 < b.numServers && b.trace == old(b.trace) + [Send(b.queue[sent], Slot(index % b.numServers + 1, index))]
    ensures b.queue[sent] !in old(b.running)
    ensures b.running == old(b.running)[b.queue[sent] := Slot(index % b.numServers + 1, index)]
    ensures Scheduling(b, before, requests', sent + 1, recv) && Ascending(b.queue)
    ensures requests' == requests[index := b.queue[sent]]
  {
    hide Consistent, Safe, Legal, State, BitsMatch, Posted, SentUpTo, BuffersFit, Ascending, Enabled, AtHome;
    var server := index % b.numServers + 1;
    b.Facts();
    b.QueuedAt(sent);
    b.QueueIsListed();
    PostSend(b.limits, b.net, requests, b.queue, sent, index);
    b.AssignRemote(b.queue[sent], index, server);
    requests' := requests[index := b.queue[sent]];
  }

  /** Receive the result a request has completed with. */
  method TakeResult(b: EvalBookkeeping, ghost before: set<nat>, requests: seq<nat>, index: nat, ghost sent: nat,
      ghost recv: nat)
    returns (requests': seq<nat>)
    requires Scheduling(b, before, requests, sent, recv) && index < |requests| && requests[index] != 0
    modifies b`trace, b`net, b`running, b`raw
    ensures 0 < b.numServers
    ensures b.trace == old(b.trace) + [Recv(requests[index], Slot(index % b.numServers + 1, index))]
    ensures Scheduling(b, before, requests', sent, recv + 1)
    ensures requests' == requests[index := 0]
  {
    hide Consistent, Safe, Legal, State, BitsMatch, Posted, SentUpTo, BuffersFit, Enabled, AtHome;
    var server := index % b.numServers + 1;
    var id := requests[index];
    b.Facts();
    TakePosted(requests, b.running, b.numServers, index);
    StaySent(b.queue, b.net, sent, id);
    b.ReceiveRemote(id, index, server);
    requests' := requests[index := 0];
  }

  predicate DistinctActive(indices: seq<nat>, requests: seq<nat>) {
    && (forall i | 0 <= i < |indices| :: indices[i] < |requests| && requests[indices[i]] != 0)
    && (forall i, j | 0 <= i < j < |indices| :: indices[i] != indices[j])
  }

  /** There is always an active request to wait on while a result is missing. */
  lemma SomeRequestActive(requests: seq<nat>, remote: map<nat, Slot>, k: nat) returns (i: nat)
    requires Posted(requests, remote, k) && |remote| > 0
    ensures i < |requests| && requests[i] != 0
  {
    assert |remote.Keys| > 0;
    var j :| j in remote;
    i := remote[j].buffer;
  }

  /** waitsome: any nonempty choice of active requests, in any order. */
  method WaitSome(requests: seq<nat>, ghost some: nat) returns (indices: seq<nat>)
    requires some < |requests| && requests[some] != 0
    ensures indices != [] && DistinctActive(indices, requests)
  {
    indices := *;
    if indices == [] || !DistinctActive(indices, requests) {
      var i := 0;
      while requests[i] == 0
        invariant i <= some
        decreases some - i
      {
        i := i + 1;
      }
      indices := [i];
    }
  }

  /** First pass: one job for each of the first buffers. */
  method FirstSends(b: EvalBookkeeping, ghost before: set<nat>, numSends: nat) returns (requests: seq<nat>)
    requires Scheduling(b, before, seq(numSends, i => 0), 0, 0) && numSends <= |b.queue|
    modifies b`trace, b`net, b`running
    ensures SendsRise(old(b.trace), b.trace, b.queue, numSends)
    ensures SentInTurn(b.queue, b.running, numSends, b.numServers)
    ensures Scheduling(b, before, requests, numSends, 0)
    ensures forall i | 0 <= i < numSends :: requests[i] == b.queue[i]
  {
    hide Scheduling, SendsRise, SentInTurn, Ascending;
    requests := seq(numSends, i => 0);
    var i := 0;
    RiseStarts(b.trace, b.queue, 0);
    NothingSent(b, before, requests);
    while i < numSends
      invariant SendsRise(old(b.trace), b.trace, b.queue, i) && SentInTurn(b.queue, b.running, i, b.numServers)
      invariant i <= numSends == |requests| && Scheduling(b, before, requests, i, 0)
      invariant forall p | 0 <= p < i :: requests[p] == b.queue[p]
      invariant forall p | i <= p < numSends :: requests[p] == 0
    {
      ghost var log, running := b.trace, b.running;
      requests := SendNext(b, before, requests, i, i, 0);
      RiseSend(old(b.trace), log, b.queue, i, Slot(i % b.numServers + 1, i));
      SentInTurnNext(b.queue, running, i, b.numServers);
      i := i + 1;
    }
  }

  lemma NothingSent(b: EvalBookkeeping, before: set<nat>, requests: seq<nat>)
    requires Scheduling(b, before, requests, 0, 0)
    ensures SentInTurn(b.queue, b.running, 0, b.numServers)
  {}

  /** One round of waitsome: for whatever requests have completed, in whatever order,
      receive each result and reuse its buffer for the next job. */
  method Round(b: EvalBookkeeping, ghost before: set<nat>, requests: seq<nat>, indices: seq<nat>, sent: nat,
      ghost numSends: nat, ghost recv: nat, ghost t: seq<Event>, ghost first: seq<Event>)
    returns (requests': seq<nat>, sent': nat)
    requires Scheduling(b, before, requests, sent, recv) && DistinctActive(indices, requests)
    requires sent == Min(|b.queue|, numSends + recv)
    requires SendsRise(t, b.trace, b.queue, sent) && Relays(first, b.trace)
    modifies b`trace, b`net, b`running, b`raw
    ensures SendsRise(t, b.trace, b.queue, sent') && Relays(first, b.trace)
    ensures Scheduling(b, before, requests', sent', recv + |indices|)
    ensures sent' == Min(|b.queue|, numSends + recv + |indices|)
  {
    hide Scheduling, SendsRise, Relays, Ascending;
    requests', sent' := requests, sent;
    var i := 0;
    while i < |indices|
      invariant SendsRise(t, b.trace, b.queue, sent') && Relays(first, b.trace)
      invariant i <= |indices| && |requests'| == |requests| && Scheduling(b, before, requests', sent', recv + i)
      invariant sent' == Min(|b.queue|, numSends + recv + i)
      invariant forall p | i <= p < |indices| :: requests'[indices[p]] == requests[indices[p]]
    {
      var index := indices[i];
      ghost var log, id := b.trace, requests'[index];
      requests' := TakeResult(b, before, requests', index, sent', recv + i);
      ghost var mid, slot := b.trace, Slot(index % b.numServers + 1, index);
      RiseOther(t, log, b.queue, sent', Recv(id, slot));
      if sent' < |b.queue| {
        requests' := SendNext(b, before, requests', index, sent', recv + i + 1);
        RiseSend(t, mid, b.queue, sent', slot);
        RelayTwo(log, mid, b.trace, id, b.queue[sent'], slot);
        sent' := sent' + 1;
      } else {
        RelayOne(log, id, slot);
      }
      RelaysOn(first, log, b.trace);
      i := i + 1;
    }
  }

  lemma StillOutstanding(b: EvalBookkeeping, before: set<nat>, requests: seq<nat>, sent: nat, recv: nat, numSends: nat)
    requires Scheduling(b, before, requests, sent, recv) && recv < |b.queue| && 0 < numSends
    requires sent == Min(|b.queue|, numSends + recv)
    ensures Posted(requests, b.running, b.numServers) && |b.running| > 0
  {}

  lemma AllReceived(b: EvalBookkeeping, before: set<nat>, requests: seq<nat>, sent: nat, recv: nat)
    requires Scheduling(b, before, requests, sent, recv) && recv >= |b.queue|
    ensures recv == |b.queue| && b.running == map[] && b.raw == b.queued && b.net.done == before + b.queued
  {
    hide Safe, Legal, State, BitsMatch;
    SameSize(b.raw, b.queued);
    assert |b.running.Keys| == |b.running| == 0;
  }

  /** Second pass: wait for some results at a time until all are in. */
  method SecondPass(b: EvalBookkeeping, ghost before: set<nat>, requests: seq<nat>, numSends: nat,
      ghost t: seq<Event>)
    requires Scheduling(b, before, requests, numSends, 0) && 0 < numSends <= |b.queue|
    requires SendsRise(t, b.trace, b.queue, numSends)
    modifies b`trace, b`net, b`running, b`raw
    ensures SendsRise(t, b.trace, b.queue, |b.queue|) && Relays(old(b.trace), b.trace)
    ensures b.Valid() && b.running == map[] && b.raw == b.queued && b.net.done == before + b.queued
  {
    hide Scheduling, Posted, DistinctActive, SendsRise, Relays;
    RelayNone(b.trace);
    var reqs, sent, recv := requests, numSends, 0;
    while recv < |b.queue|
      invariant SendsRise(t, b.trace, b.queue, sent) && Relays(old(b.trace), b.trace)
      invariant Scheduling(b, before, reqs, sent, recv)
      invariant sent == Min(|b.queue|, numSends + recv)
      decreases |b.queue| - recv
    {
      StillOutstanding(b, before, reqs, sent, recv, numSends);
      ghost var some := SomeRequestActive(reqs, b.running, b.numServers);
      var indices := WaitSome(reqs, some);
      reqs, sent := Round(b, before, reqs, indices, sent, numSends, recv, t, old(b.trace));
      recv := recv + |indices|;
    }
    AllReceived(b, before, reqs, sent, recv);
    ValidNow(b, before, reqs, sent, recv);
  }

  lemma ValidNow(b: EvalBookkeeping, before: set<nat>, requests: seq<nat>, sent: nat, recv: nat)
    requires Scheduling(b, before, requests, sent, recv)
    ensures b.Valid()
  {}

  /** All jobs went out in the first pass: wait for all, then receive in queue order. */
  method ReceiveAll(b: EvalBookkeeping, ghost before: set<nat>, requests: seq<nat>, ghost t: seq<Event>)
    requires Scheduling(b, before, requests, |b.queue|, 0) && |requests| == |b.queue|
    requires forall i | 0 <= i < |b.queue| :: requests[i] == b.queue[i] != 0
    requires SendsRise(t, b.trace, b.queue, |b.queue|)
    modifies b`trace, b`net, b`running, b`raw
    ensures SendsRise(t, b.trace, b.queue, |b.queue|) && Relays(old(b.trace), b.trace)
    ensures b.Valid() && b.running == map[] && b.raw == b.queued && b.net.done == before + b.queued
  {
    hide Scheduling, SendsRise, Relays;
    RelayNone(b.trace);
    var reqs, i := requests, 0;
    while i < |b.queue|
      invariant SendsRise(t, b.trace, b.queue, |b.queue|) && Relays(old(b.trace), b.trace)
      invariant i <= |b.queue| == |reqs| && Scheduling(b, before, reqs, |b.queue|, i)
      invariant forall p | i <= p < |b.queue| :: reqs[p] == b.queue[p] != 0
    {
      ghost var log := b.trace;
      reqs := TakeResult(b, before, reqs, i, |b.queue|, i);
      ghost var slot := Slot(i % b.numServers + 1, i);
      RiseOther(t, log, b.queue, |b.queue|, Recv(b.queue[i], slot));
      RelayOne(log, b.queue[i], slot);
      RelaysOn(old(b.trace), log, b.trace);
      i := i + 1;
    }
    AllReceived(b, before, reqs, |b.queue|, i);
    ValidNow(b, before, reqs, |b.queue|, i);
  }

  /** master_dynamic_schedule_evaluations: for every pattern of completions each job is
      sent once and received once. */
  method MasterDynamicSchedule(b: EvalBookkeeping) returns (ghost first: seq<Event>)
    requires b.Valid() && b.running == map[] && b.active == {} && b.raw == {} && b.buffers == 0
    requires b.limits.servers == b.numServers && b.limits.load == (if b.concurrency > 1 then b.concurrency else 1)
    modifies b`trace, b`net, b`running, b`raw, b`buffers
    ensures SendsRise(old(b.trace), b.trace, b.queue, |b.queue|) && old(b.trace) <= first && Relays(first, b.trace)
    ensures SentInTurn(b.queue, State(first).remote, Min(b.limits.servers * b.limits.load, |b.queue|), b.numServers)
    ensures b.Valid() && b.running == map[] && b.raw == b.queued && b.net.done == old(b.net.done) + b.queued
    ensures b.buffers == 0
  {
    hide Scheduling, EvalBookkeeping.Valid, SendsRise, SentInTurn, Relays, State;
    ghost var before := b.net.done;
    var numSends := FirstCount(b);
    b.Allocate(numSends);
    StartScheduling(b, before, numSends);
    QueueIsPositive(b);
    var requests := FirstSends(b, before, numSends);
    first := b.trace;
    Extends(old(b.trace), first, b.queue, numSends);
    ValidNow(b, before, requests, numSends, 0);
    b.WaitingJobs();
    b.RunningIsRemote();
    if numSends < |b.queue| {
      SecondPass(b, before, requests, numSends, old(b.trace));
    } else {
      KeepsLength(b, before, requests, numSends);
      ReceiveAll(b, before, requests, old(b.trace));
    }
    b.Release();
  }

  lemma Extends(t: seq<Event>, t': seq<Event>, queue: seq<nat>, pos: nat)
    requires SendsRise(t, t', queue, pos)
    ensures t <= t'
  {}

  /** How many jobs go out before any result is awaited. */
  method FirstCount(b: EvalBookkeeping) returns (numSends: nat)
    requires b.Valid() && b.limits.servers == b.numServers
    requires b.limits.load == (if b.concurrency > 1 then b.concurrency else 1)
    ensures numSends == Min(b.limits.servers * b.limits.load, |b.queue|) && (numSends == 0 ==> b.queue == [])
  {
    hide EvalBookkeeping.Valid;
    b.SomeServer();
    var capacity := b.numServers;
    if b.concurrency > 1 { capacity := capacity * b.concurrency; }
    numSends := Min(capacity, |b.queue|);
  }

  lemma StartScheduling(b: EvalBookkeeping, before: set<nat>, numSends: nat)
    requires b.Valid() && b.running == map[] && b.active == {} && b.raw == {} && b.buffers == numSends
    requires b.net.done == before
    requires b.limits.servers == b.numServers && numSends <= b.limits.servers * b.limits.load
    ensures Scheduling(b, before, seq(numSends, i => 0), 0, 0)
  {
    b.AllQueuedFresh();
  }

  lemma QueueIsPositive(b: EvalBookkeeping)
    requires b.Valid()
    ensures forall p | 0 <= p < |b.queue| :: b.queue[p] != 0
  {}

  lemma KeepsLength(b: EvalBookkeeping, before: set<nat>, requests: seq<nat>, sent: nat)
    requires Scheduling(b, before, requests, sent, 0)
    ensures |requests| == b.buffers
  {}
}
