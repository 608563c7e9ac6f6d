/**
  The blocking peer static scheduler: deal all jobs round robin, evaluate the local
  share, then collect the remote results in the order they were sent.
 */
module PeerStatic {
  import opened Common
  import opened SlotProtocol
  import opened Bookkeeping
  import opened HomeSlots
  import opened LocalSchedulers
  import opened PeerDeal

  /** The largest share of any peer. */
  function LargestShare(jobs: nat, peers: nat): nat
    requires peers > 0
  {
    (jobs + peers - 1) / peers
  }

  lemma SharesFit(jobs: nat, peers: nat)
    requires peers >= 2
    ensures Sends(jobs, peers) <= (peers - 1) * LargestShare(jobs, peers)
  {
    var q, r := jobs / peers, jobs % peers;
    assert jobs == peers * q + r;
    assert jobs - q == (peers - 1) * q + r;
    if r == 0 {
      DivUnique(jobs + peers - 1, peers, q, peers - 1);
    } else {
      assert jobs + peers - 1 == peers * (q + 1) + (r - 1);
      DivUnique(jobs + peers - 1, peers, q + 1, r - 1);
      assert (peers - 1) * (q + 1) == (peers - 1) * q + (peers - 1);
    }
  }

  /** The jobs sent away and not yet collected, each with the buffer it was sent through. */
  ghost predicate ToCollect(queue: seq<nat>, n: Net, i: nat, peers: nat)
    requires peers > 0
  {
    && (forall p | 0 <= p < i <= |queue| :: queue[p] in n.done)
    && (forall p | i <= p < |queue| ::
          if (p + 1) % peers == 0 then queue[p] in n.done
          else queue[p] in n.remote && n.remote[queue[p]] == Slot((p + 1) % peers, Sends(p, peers)))
  }

  lemma StartCollect(queue: seq<nat>, before: Net, n: Net, local: seq<nat>, peers: nat)
    requires 0 < peers && (forall p | 0 <= p < |queue| :: DealtTo(queue[p], p, before.remote, local, peers))
    requires n.remote == before.remote && forall j | j in local :: j in n.done
    ensures ToCollect(queue, n, 0, peers)
  {}

  lemma CollectOne(queue: seq<nat>, n: Net, i: nat, peers: nat)
    requires 0 < peers && ToCollect(queue, n, i, peers) && i < |queue| && Ascending(queue)
    ensures (i + 1) % peers == 0 ==> ToCollect(queue, n, i + 1, peers)
    ensures (i + 1) % peers != 0 ==>
              && queue[i] in n.remote && n.remote[queue[i]] == Slot((i + 1) % peers, Sends(i, peers))
              && ToCollect(queue, Next(n, Recv(queue[i], n.remote[queue[i]])), i + 1, peers)
  {}

  /** The retrieval loop pairs each buffer with the job and server of the send loop. */
  method Collect(b: EvalBookkeeping)
    requires b.Valid() && 2 <= b.numServers && ToCollect(b.queue, b.net, 0, b.numServers)
    modifies b`trace, b`net, b`running, b`raw
    ensures NoSends(old(b.trace), b.trace)
    ensures b.Valid() && forall p | 0 <= p < |b.queue| :: b.queue[p] in b.net.done
    ensures old(b.net.done) <= b.net.done <= old(b.net.done) + b.queued
  {
    hide Consistent, Safe, Legal, State, BitsMatch, ToCollect, Sends, Grows, Ascending, Lists, NoSends;
    NoSendsOn(b.trace, b.trace, b.trace, Launch(0));
    var i, buff := 0, 0;
    SendsNothing(b.numServers);
    while i < |b.queue|
      invariant NoSends(old(b.trace), b.trace)
      invariant b.Valid() && i <= |b.queue| && ToCollect(b.queue, b.net, i, b.numServers)
      invariant buff == Sends(i, b.numServers) && old(b.net.done) <= b.net.done <= old(b.net.done) + b.queued
    {
      var server := (i + 1) % b.numServers;
      b.Facts();
      b.QueueIsListed();
      CollectOne(b.queue, b.net, i, b.numServers);
      SendNumbering(i, b.numServers);
      if server != 0 {
        b.QueuedAt(i);
        NoSendsOn(old(b.trace), b.trace, b.trace, Recv(b.queue[i], Slot(server, buff)));
        b.ReceiveRemote(b.queue[i], buff, server);
        buff := buff + 1;
      }
      i := i + 1;
    }
    Collected(b.queue, b.net, i, b.numServers);
  }

  lemma SendsNothing(peers: nat)
    requires peers > 0
    ensures Sends(0, peers) == 0
  {}

  lemma Collected(queue: seq<nat>, n: Net, i: nat, peers: nat)
    requires 0 < peers && ToCollect(queue, n, i, peers) && i == |queue|
    ensures forall p | 0 <= p < |queue| :: queue[p] in n.done
  {}

  lemma EveryJobDone(b: EvalBookkeeping)
    requires b.Valid() && forall p | 0 <= p < |b.queue| :: b.queue[p] in b.net.done
    ensures b.queued <= b.net.done && b.raw == b.queued && b.running == map[]
  {
    hide Legal, State, BitsMatch;
    forall j | j in b.queued ensures j in b.net.done {
      if forall p | 0 <= p < |b.queue| :: b.queue[p] != j {
        NotListed(b.queue, b.queued, j);
      }
    }
    assert b.running.Keys == {};
  }

  /** Evaluate the local share, one job at a time or asynchronously. */
  method EvaluateShare(b: EvalBookkeeping, local: seq<nat>, ghost jobs: set<nat>)
    requires b.Valid() && b.active == {}
    requires Ascending(local) && Lists(local, jobs) && jobs <= b.queued && AllFresh(jobs, b.net)
    modifies b`trace, b`net, b`active, b`busy, b`raw
    ensures Locally(old(b.trace), b.trace)
    ensures b.Valid() && b.active == {}
    ensures b.net.done == old(b.net.done) + jobs && b.net.remote == old(b.net.remote)
  {
    if b.concurrency > 1 {
      AsynchronousLocalEvaluations(b, local, jobs);
    } else {
      ghost var log := b.trace;
      SynchronousLocalEvaluations(b, local, jobs);
      SequenceIsLocal(log, b.trace, local, |local|);
    }
  }

  function Max(a: nat, b: nat): (m: nat)
    ensures m >= a && m >= b && (m == a || m == b)
  {
    if a <= b then b else a
  }

  /** peer_static_schedule_evaluations: exactly floor(J/N) jobs stay local, the others are
      sent, and every result is collected from the buffer its job was sent through. */
  method PeerStaticSchedule(b: EvalBookkeeping) returns (numLocal: nat, numSends: nat, ghost dealt: seq<Event>)
    requires b.Valid() && b.running == map[] && b.active == {} && b.raw == {} && b.buffers == 0
    requires 2 <= b.numServers && b.limits.servers == b.numServers - 1
    modifies b`limits, b`trace, b`net, b`running, b`active, b`busy, b`raw, b`buffers
    ensures old(b.trace) <= dealt && NoSends(dealt, b.trace)
    ensures DealtOver(b.queue, State(dealt).remote, |b.queue|, b.numServers)
    ensures b.Valid() && b.running == map[] && b.active == {} && b.raw == b.queued && b.buffers == 0
    ensures b.net.done == old(b.net.done) + b.queued
    ensures b.limits == old(b.limits).(load := b.limits.load) && b.limits.load >= old(b.limits).load
    ensures numLocal == |b.queue| / b.numServers && numSends == |b.queue| - numLocal
  {
    hide Consistent, Safe, Legal, State, BitsMatch, BuffersFor, Sends, Dealing, AtHome, DealtTo, ToCollect, Lists,
      Ascending, LargestShare, AllFresh, NoSends, Locally, DealtOver;
    b.AllQueuedFresh();
    numSends := Sends(|b.queue|, b.numServers);
    b.RaiseLoad(Max(b.limits.load, LargestShare(|b.queue|, b.numServers)));
    BuffersForAll(b.limits, |b.queue|, b.numServers);
    b.Allocate(numSends);
    var local := Deal(b, |b.queue|);
    ghost var jobs := LocalShare(b, local, |b.queue|);
    numLocal := |local|;
    ghost var n := b.net;
    dealt := b.trace;
    b.Facts();
    b.WaitingJobs();
    DealtOverall(b.queue, n, local, jobs, |b.queue|, b.numServers);
    EvaluateShare(b, local, jobs);
    ghost var log := b.trace;
    ListedIn(local, jobs);
    b.Facts();
    StartCollect(b.queue, n, b.net, local, b.numServers);
    Collect(b);
    NoSendsOn(dealt, log, b.trace, Launch(0));
    b.Facts();
    EveryJobDone(b);
    CountSends(|b.queue|, b.numServers);
    b.Release();
  }

  lemma CountSends(jobs: nat, peers: nat)
    requires peers > 0
    ensures Sends(jobs, peers) == jobs - jobs / peers
  {}

  lemma BuffersForAll(lim: Limits, jobs: nat, peers: nat)
    requires 2 <= peers && lim.servers == peers - 1 && lim.load >= LargestShare(jobs, peers)
    ensures BuffersFor(lim, Sends(jobs, peers), Sends(jobs, peers))
  {
    SharesFit(jobs, peers);
    MulMonotone(LargestShare(jobs, peers), lim.load, peers - 1);
    assert (peers - 1) * lim.load == lim.load * (peers - 1);
  }
}
