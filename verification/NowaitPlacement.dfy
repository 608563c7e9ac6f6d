/**
  How the nonblocking message-passing schedulers place jobs on servers: round robin
  when nothing is running, least loaded server first when gaps are filled.
 */
module NowaitPlacement {
  import opened Common
  import opened SlotProtocol
  import opened Bookkeeping
  import opened SlotAllocator

  /** The first of the servers that have the least to do. */
  ghost predicate FirstLeast(remote: map<nat, Slot>, s: nat, servers: nat) {
    && 1 <= s <= servers
    && forall r | 1 <= r <= servers ::
         Load(remote, s) <= Load(remote, r) && (r < s ==> Load(remote, s) < Load(remote, r))
  }

  /** From one run to a longer one every job is sent to the first server that has the least to
      do at that moment. */
  ghost predicate Balances(t: seq<Event>, t': seq<Event>, servers: nat) {
    && t <= t'
    && forall i | |t| <= i < |t'| && t'[i].Send? :: FirstLeast(State(t'[..i]).remote, t'[i].slot.server, servers)
  }

  lemma BalancesSelf(t: seq<Event>, servers: nat)
    ensures Balances(t, t, servers)
  {}

  lemma BalancesOn(t: seq<Event>, t': seq<Event>, e: Event, servers: nat)
    requires Balances(t, t', servers) && (e.Send? ==> FirstLeast(State(t').remote, e.slot.server, servers))
    ensures Balances(t, t' + [e], servers)
  {
    hide FirstLeast, State;
    var u := t' + [e];
    forall i | |t| <= i < |u| && u[i].Send? ensures FirstLeast(State(u[..i]).remote, u[i].slot.server, servers) {
      if i < |t'| { assert u[..i] == t'[..i]; } else { assert u[..i] == t'; }
    }
  }

  /** No server has two jobs more than another. */
  ghost predicate Even(remote: map<nat, Slot>, servers: nat) {
    forall s, r | 1 <= s <= servers && 1 <= r <= servers :: Load(remote, s) <= Load(remote, r) + 1
  }

  /** The loads after dealing i jobs round robin. */
  ghost predicate RoundLoads(remote: map<nat, Slot>, i: nat, k: nat)
    requires k > 0
  {
    forall s | 1 <= s <= k :: Load(remote, s) == (i + k - s) / k
  }

  lemma RoundLoadsStart(k: nat)
    requires k > 0
    ensures RoundLoads(map[], 0, k)
  {
    forall s | 1 <= s <= k ensures Load(map[], s) == (0 + k - s) / k { assert AtServer(map[], s) == {}; }
  }

  lemma RoundLoadsNext(remote: map<nat, Slot>, i: nat, k: nat, job: nat, slot: Slot)
    requires k > 0 && RoundLoads(remote, i, k) && job !in remote && slot.server == i % k + 1
    ensures FirstLeast(remote, slot.server, k) && RoundLoads(remote[job := slot], i + 1, k)
  {
    hide Load;
    DivStep(i, k);
    var after := remote[job := slot];
    forall s | 1 <= s <= k ensures Load(remote, s) == i / k + (if s <= i % k then 1 else 0) {
      RoundShare(i, k, s);
    }
    forall s | 1 <= s <= k ensures Load(after, s) == (i + 1 + k - s) / k {
      LoadAfterInsert(remote, job, slot, s);
      RoundShare(i + 1, k, s);
    }
  }

  lemma RoundShare(i: nat, k: nat, s: nat)
    requires 1 <= s <= k
    ensures (i + k - s) / k == i / k + (if s <= i % k then 1 else 0)
  {
    var q, r := i / k, i % k;
    assert i == k * q + r;
    if s <= r {
      assert k * (q + 1) == k * q + k;
      DivUnique(i + k - s, k, q + 1, r - s);
    } else {
      DivUnique(i + k - s, k, q, r + k - s);
    }
  }

  lemma RoundEven(remote: map<nat, Slot>, i: nat, k: nat)
    requires k > 0 && RoundLoads(remote, i, k)
    ensures Even(remote, k)
  {
    hide Load;
    forall s, r | 1 <= s <= k && 1 <= r <= k ensures Load(remote, s) <= Load(remote, r) + 1 {
      RoundShare(i, k, s);
      RoundShare(i, k, r);
    }
  }

  /** Where the first pass sent each job. */
  ghost predicate DealtOut(queue: seq<nat>, running: map<nat, Slot>, start: nat, i: nat, k: nat, c: nat)
    requires k > 0
  {
    && start + i <= |queue|
    && forall p | start <= p < start + i ::
         queue[p] in running && running[queue[p]] == Slot((p - start) % k + 1, ((p - start) % k) * c + (p - start) / k)
  }

  lemma DealtOutNext(queue: seq<nat>, running: map<nat, Slot>, start: nat, i: nat, k: nat, c: nat)
    requires k > 0 && DealtOut(queue, running, start, i, k, c) && start + i < |queue| && queue[start + i] !in running
    ensures DealtOut(queue, running[queue[start + i] := Slot(i % k + 1, (i % k) * c + i / k)], start, i + 1, k, c)
  {
    var slot := Slot(i % k + 1, (i % k) * c + i / k);
    var after := running[queue[start + i] := slot];
    assert after[queue[start + i]] == slot;
    forall p | start <= p < start + i ensures queue[p] in after && after[queue[p]] == running[queue[p]] {}
    var q := start + i;
    assert (q - start) == i;
  }

  /** The first-pass slot of the i-th job over k servers with c buffers each. */
  function RoundRobinSlot(i: nat, k: nat, c: nat): Slot
    requires k > 0
  {
    Slot(i % k + 1, (i % k) * c + i / k)
  }

  lemma DivBound(i: nat, k: nat, c: nat)
    requires 0 < k && i < k * c
    ensures i / k < c
  {
    var q := i / k;
    assert i == k * q + i % k;
    MulMonotone(c, q, k);
    assert k * c == c * k && k * q == q * k;
  }

  lemma RoundRobinInStratum(i: nat, k: nat, c: nat)
    requires 0 < k && i < k * c
    ensures InStratum(RoundRobinSlot(i, k, c), c)
    ensures RoundRobinSlot(i, k, c).buffer < k * c
  {
    DivBound(i, k, c);
    StratumBounds(i % k, i / k, k, c);
  }

  lemma StratumBounds(s: nat, q: nat, k: nat, c: nat)
    requires s < k && q < c
    ensures s * c + q < (s + 1) * c <= k * c
  {
    assert (s + 1) * c == s * c + c;
    MulMonotone(s + 1, k, c);
  }

  lemma RoundRobinInjective(i: nat, j: nat, k: nat, c: nat)
    requires 0 < k && i < k * c && j < k * c
    requires RoundRobinSlot(i, k, c).buffer == RoundRobinSlot(j, k, c).buffer
    ensures i == j
  {
    RoundRobinInStratum(i, k, c);
    RoundRobinInStratum(j, k, c);
    hide InStratum;
    StrataAreDisjoint(RoundRobinSlot(i, k, c), RoundRobinSlot(j, k, c), c);
    SameSplit(i, j, k);
  }

  lemma SameSplit(i: nat, j: nat, k: nat)
    requires 0 < k && i % k == j % k && i / k == j / k
    ensures i == j
  {}

  ghost predicate Allotted(running: map<nat, Slot>, index: map<nat, nat>, i: nat, k: nat, c: nat)
    requires k > 0
  {
    && running.Keys == index.Keys
    && forall j | j in running :: index[j] < i && running[j] == RoundRobinSlot(index[j], k, c)
  }

  lemma NextAllotted(running: map<nat, Slot>, index: map<nat, nat>, i: nat, k: nat, c: nat)
    requires 0 < k && i < k * c && Allotted(running, index, i, k, c)
    ensures BufferFree(running, RoundRobinSlot(i, k, c).buffer) && Strata(running, c)
  {
    forall j | j in running ensures InStratum(running[j], c) {
      RoundRobinInStratum(index[j], k, c);
    }
    forall j | j in running ensures running[j].buffer != RoundRobinSlot(i, k, c).buffer {
      if running[j].buffer == RoundRobinSlot(i, k, c).buffer {
        RoundRobinInjective(index[j], i, k, c);
      }
    }
  }

  /** The jobs fit the places of k servers, and there is a buffer for every place. */
  ghost predicate Fits(count: nat, k: nat, c: nat, buffers: nat) {
    count <= k * c <= buffers
  }

  /** First pass with nothing running: deal out `count` jobs from a queue position. */
  method RoundRobin(b: EvalBookkeeping, start: nat, count: nat, k: nat)
    requires b.Valid() && b.running == map[]
    requires 0 < k <= b.limits.servers && b.concurrency <= b.limits.load
    requires Fits(count, k, b.concurrency, b.buffers) && start + count <= |b.queue|
    requires forall p | 0 <= p < |b.queue| :: Fresh(b.net, b.queue[p])
    modifies b`trace, b`net, b`running
    ensures old(b.trace) <= b.trace
    ensures b.Valid() && Strata(b.running, b.concurrency) && |b.running| == count
    ensures b.net.done == old(b.net.done) && b.net.local == old(b.net.local)
    ensures forall p | start <= p < start + count :: b.queue[p] in b.running
    ensures forall p | 0 <= p < start || start + count <= p < |b.queue| :: Fresh(b.net, b.queue[p])
    ensures Balances(old(b.trace), b.trace, k) && Even(b.running, k)
    ensures DealtOut(b.queue, b.running, start, count, k, b.concurrency)
  {
    hide EvalBookkeeping.Valid, Allotted, Stretch, Strata, Fits, Balances, Even, RoundLoads, DealtOut, State;
    b.RunningIsRemote();
    BalancesSelf(b.trace, k);
    RoundLoadsStart(k);
    NoneDealtOut(b.queue, b.running, start, k, b.concurrency);
    StartStretch(b.queue, b.net, start);
    ghost var index: map<nat, nat> := map[];
    var i := 0;
    StartAllotted(b.running, k, b.concurrency);
    while i < count
      invariant old(b.trace) <= b.trace
      invariant b.Valid() && i <= count && |b.running| == i
      invariant Allotted(b.running, index, i, k, b.concurrency)
      invariant b.net.done == old(b.net.done) && b.net.local == old(b.net.local)
      invariant Stretch(b.queue, b.net, start, i)
      invariant Balances(old(b.trace), b.trace, k) && RoundLoads(b.running, i, k)
      invariant DealtOut(b.queue, b.running, start, i, k, b.concurrency)
    {
      ghost var log := b.trace;
      FitsAt(count, i, k, b.concurrency, b.buffers);
      index := SendNext(b, start, i, k, index);
      BalancesOn(old(b.trace), log, Send(b.queue[start + i], b.running[b.queue[start + i]]), k);
      i := i + 1;
    }
    RoundEven(b.running, count, k);
    EndAllotted(b.running, index, count, k, b.concurrency, b.buffers);
    StretchSays(b.queue, b.net, start, count);
    b.RunningIsRemote();
  }

  lemma NoneDealtOut(queue: seq<nat>, running: map<nat, Slot>, start: nat, k: nat, c: nat)
    requires k > 0 && start <= |queue|
    ensures DealtOut(queue, running, start, 0, k, c)
  {}

  lemma FitsAt(count: nat, i: nat, k: nat, c: nat, buffers: nat)
    requires Fits(count, k, c, buffers) && i < count
    ensures Fits(i + 1, k, c, buffers)
  {}

  /** Send the next job of the stretch. */
  method SendNext(b: EvalBookkeeping, start: nat, i: nat, k: nat, ghost index: map<nat, nat>)
    returns (ghost index': map<nat, nat>)
    requires b.Valid() && 0 < k <= b.limits.servers && b.concurrency <= b.limits.load
    requires Fits(i + 1, k, b.concurrency, b.buffers)
    requires Stretch(b.queue, b.net, start, i) && start + i < |b.queue|
    requires Allotted(b.running, index, i, k, b.concurrency)
    requires RoundLoads(b.running, i, k) && DealtOut(b.queue, b.running, start, i, k, b.concurrency)
    modifies b`trace, b`net, b`running
    ensures b.queue[start + i] in b.running
    ensures b.trace == old(b.trace) + [Send(b.queue[start + i], b.running[b.queue[start + i]])]
    ensures FirstLeast(State(old(b.trace)).remote, b.running[b.queue[start + i]].server, k)
    ensures RoundLoads(b.running, i + 1, k) && DealtOut(b.queue, b.running, start, i + 1, k, b.concurrency)
    ensures b.Valid() && |b.running| == |old(b.running)| + 1
    ensures b.net.done == old(b.net.done) && b.net.local == old(b.net.local)
    ensures Stretch(b.queue, b.net, start, i + 1) && Allotted(b.running, index', i + 1, k, b.concurrency)
  {
    hide EvalBookkeeping.Valid, State, Allotted, Stretch, Ascending, Lists, Enabled, Fresh, Fits, RoundRobinSlot,
      RoundLoads, DealtOut, FirstLeast;
    b.WaitingJobs();
    b.RunningIsRemote();
    b.QueueIsListed();
    SlotParts(i, k, b.concurrency);
    var serverIndex := i % k;
    var serverId := serverIndex + 1;
    var buffer := serverIndex * b.concurrency + i / k;
    var job := b.queue[start + i];
    StretchNext(b.queue, b.queued, b.net, start, i, Slot(serverId, buffer));
    NextFits(b, index, i, k, job);
    FreshNotRunning(b.net, job);
    RoundLoadsNext(b.running, i, k, job, Slot(serverId, buffer));
    DealtOutNext(b.queue, b.running, start, i, k, b.concurrency);
    b.AssignRemote(job, buffer, serverId);
    index' := index[job := i];
  }

  lemma FreshNotRunning(n: Net, j: nat)
    ensures Fresh(n, j) ==> j !in n.remote
  {}

  /** A stretch of the queue runs remotely, the rest has not been handed out. */
  ghost predicate Stretch(queue: seq<nat>, n: Net, start: nat, i: nat) {
    && start + i <= |queue| && (forall p | start <= p < start + i :: queue[p] in n.remote)
    && (forall p | 0 <= p < start || start + i <= p < |queue| :: Fresh(n, queue[p]))
  }

  lemma StartStretch(queue: seq<nat>, n: Net, start: nat)
    requires start <= |queue| && forall p | 0 <= p < |queue| :: Fresh(n, queue[p])
    ensures Stretch(queue, n, start, 0)
  {}

  lemma StretchNext(queue: seq<nat>, queued: set<nat>, n: Net, start: nat, i: nat, slot: Slot)
    requires Stretch(queue, n, start, i) && start + i < |queue| && Ascending(queue) && Lists(queue, queued)
    ensures queue[start + i] in queued && Fresh(n, queue[start + i])
    ensures Stretch(queue, Next(n, Send(queue[start + i], slot)), start, i + 1)
  {}

  lemma StretchSays(queue: seq<nat>, n: Net, start: nat, i: nat)
    requires Stretch(queue, n, start, i)
    ensures forall p | start <= p < start + i :: queue[p] in n.remote
    ensures forall p | 0 <= p < start || start + i <= p < |queue| :: Fresh(n, queue[p])
  {}

  /** The next job can be sent to its place. */
  lemma NextFits(b: EvalBookkeeping, index: map<nat, nat>, i: nat, k: nat, job: nat)
    requires b.Valid() && 0 < k <= b.limits.servers && b.concurrency <= b.limits.load
    requires Fits(i + 1, k, b.concurrency, b.buffers)
    requires Allotted(b.running, index, i, k, b.concurrency) && Fresh(b.net, job)
    ensures var slot := RoundRobinSlot(i, k, b.concurrency);
            && slot.buffer < b.buffers && Enabled(b.limits, b.net, Send(job, slot))
            && Allotted(b.running[job := slot], index[job := i], i + 1, k, b.concurrency)
  {
    hide Consistent, Legal, State, BitsMatch, Allotted, RoundRobinSlot, Enabled, InStratum, Strata, Safe;
    b.RunningIsRemote();
    var c := b.concurrency;
    NextAllotted(b.running, index, i, k, c);
    RoundRobinInStratum(i, k, c);
    RoundRobinServer(i, k, c);
    FreeBufferMeansRoom(b.limits, b.net, job, RoundRobinSlot(i, k, c), c);
    ExtendAllotted(b.running, index, i, k, c, job);
  }

  lemma SlotParts(i: nat, k: nat, c: nat)
    requires 0 < k
    ensures RoundRobinSlot(i, k, c) == Slot(i % k + 1, i % k * c + i / k)
  {}

  lemma RoundRobinServer(i: nat, k: nat, c: nat)
    requires 0 < k
    ensures 1 <= RoundRobinSlot(i, k, c).server <= k
  {}

  lemma StartAllotted(running: map<nat, Slot>, k: nat, c: nat)
    requires k > 0 && running == map[]
    ensures Allotted(running, map[], 0, k, c)
  {}

  lemma ExtendAllotted(running: map<nat, Slot>, index: map<nat, nat>, i: nat, k: nat, c: nat, job: nat)
    requires k > 0 && Allotted(running, index, i, k, c)
    ensures Allotted(running[job := RoundRobinSlot(i, k, c)], index[job := i], i + 1, k, c)
  {}

  lemma EndAllotted(running: map<nat, Slot>, index: map<nat, nat>, i: nat, k: nat, c: nat, buffers: nat)
    requires k > 0 && Fits(i, k, c, buffers) && Allotted(running, index, i, k, c)
    ensures Strata(running, c)
  {
    forall j | j in running ensures InStratum(running[j], c) {
      RoundRobinInStratum(index[j], k, c);
    }
  }

  /** server_jobs: for each server the set of buffers its jobs occupy. */
  ghost predicate JobsMatch(jobs: seq<set<nat>>, running: map<nat, Slot>) {
    forall s | 0 <= s < |jobs| :: jobs[s] == ServerBuffers(running, s + 1)
  }

  /** Build server_jobs by a pass over the running map. */
  method CollectServerJobs(running: map<nat, Slot>, k: nat) returns (jobs: seq<set<nat>>)
    requires forall j | j in running :: 1 <= running[j].server <= k
    ensures |jobs| == k && JobsMatch(jobs, running)
  {
    jobs := seq(k, i => {});
    var todo := running.Keys;
    ghost var seen: map<nat, Slot> := map[];
    forall s | 0 <= s < k ensures jobs[s] == ServerBuffers(seen, s + 1) {
      assert ServerBuffers(seen, s + 1) == {};
    }
    while todo != {}
      invariant |jobs| == k && todo <= running.Keys && seen.Keys == running.Keys - todo
      invariant forall j | j in seen :: seen[j] == running[j]
      invariant JobsMatch(jobs, seen)
      decreases todo
    {
      var j := Least(todo);
      var slot := running[j];
      InsertMatch(jobs, seen, j, slot);
      jobs := jobs[slot.server - 1 := jobs[slot.server - 1] + {slot.buffer}];
      seen := seen[j := slot];
      todo := todo - {j};
    }
    assert seen == running;
  }

  lemma InsertMatch(jobs: seq<set<nat>>, running: map<nat, Slot>, j: nat, slot: Slot)
    requires JobsMatch(jobs, running) && j !in running && 1 <= slot.server <= |jobs|
    ensures JobsMatch(jobs[slot.server - 1 := jobs[slot.server - 1] + {slot.buffer}], running[j := slot])
  {
    forall s | 0 <= s < |jobs| {
      ServerBuffersInsert(running, j, slot, s + 1);
    }
  }

  /** Send a job to the server with index m through that server's first free buffer.
      The abort for want of a buffer cannot be reached when the server has room. */
  method PlaceOnServer(b: EvalBookkeeping, job: nat, m: nat, jobs: seq<set<nat>>) returns (jobs': seq<set<nat>>)
    requires b.Valid() && job in b.queued && Fresh(b.net, job)
    requires m < |jobs| <= b.limits.servers && b.concurrency <= b.limits.load
    requires JobsMatch(jobs, b.running) && Strata(b.running, b.concurrency)
    requires Load(b.running, m + 1) < b.concurrency
    requires Fits(0, |jobs|, b.concurrency, b.buffers)
    modifies b`trace, b`net, b`running
    ensures b.Valid() && Strata(b.running, b.concurrency)
    ensures |jobs'| == |jobs| && JobsMatch(jobs', b.running)
    ensures b.net.done == old(b.net.done) && b.net.local == old(b.net.local)
    ensures b.running.Keys == old(b.running).Keys + {job} && |b.running| == |old(b.running)| + 1
    ensures forall j | j in old(b.running) :: b.running[j] == old(b.running)[j]
    ensures b.running[job].server == m + 1 && b.trace == old(b.trace) + [Send(job, b.running[job])]
    ensures IsFirstFree(ServerBuffers(old(b.running), m + 1), m * b.concurrency, m * b.concurrency + b.concurrency,
                        b.running[job].buffer)
  {
    hide EvalBookkeeping.Valid, Consistent, JobsMatch, Strata, Enabled, Safe;
    PlaceFacts(b);
    var buffer, avail := FirstFree(jobs[m], m * b.concurrency, m * b.concurrency + b.concurrency);
    HasFreeBuffer(b.limits, b.net, jobs, m, b.concurrency);
    assert avail;
    BuffersOf(jobs, b.running, m);
    PlacementFollows(b.limits, b.net, jobs, m, job, buffer, b.concurrency);
    b.AssignRemote(job, buffer, m + 1);
    jobs' := jobs[m := jobs[m] + {buffer}];
    b.RunningIsRemote();
  }

  lemma PlaceFacts(b: EvalBookkeeping)
    requires b.Valid()
    ensures Safe(b.limits, b.net) && b.net.remote == b.running
  {}

  lemma BuffersOf(jobs: seq<set<nat>>, running: map<nat, Slot>, m: nat)
    requires JobsMatch(jobs, running) && m < |jobs|
    ensures jobs[m] == ServerBuffers(running, m + 1)
  {}

  /** Sending to the server whose job list is the first of the shortest ones. */
  lemma LeastIsFirst(jobs: seq<set<nat>>, running: map<nat, Slot>, m: nat)
    requires JobsMatch(jobs, running) && Injective(running) && m < |jobs|
    requires forall s | 0 <= s < |jobs| :: |jobs[m]| <= |jobs[s]| && (s < m ==> |jobs[m]| < |jobs[s]|)
    ensures FirstLeast(running, m + 1, |jobs|) && Load(running, m + 1) == |jobs[m]|
  {
    BuffersCount(running, m + 1);
    forall s | 1 <= s <= |jobs|
      ensures Load(running, m + 1) <= Load(running, s) && (s < m + 1 ==> Load(running, m + 1) < Load(running, s))
    {
      BuffersCount(running, s);
      assert jobs[s-1] == ServerBuffers(running, s);
    }
  }

  lemma HasFreeBuffer(lim: Limits, n: Net, jobs: seq<set<nat>>, m: nat, c: nat)
    requires Safe(lim, n) && JobsMatch(jobs, n.remote) && m < |jobs| && Load(n.remote, m + 1) < c
    ensures !(forall b | m * c <= b < m * c + c :: b in jobs[m])
  {
    BuffersCount(n.remote, m + 1);
    if forall b | m * c <= b < m * c + c :: b in jobs[m] {
      Covers(jobs[m], m * c, m * c + c);
    }
  }

  lemma PlacementFollows(lim: Limits, n: Net, jobs: seq<set<nat>>, m: nat, job: nat, buffer: nat, c: nat)
    requires Safe(lim, n) && Strata(n.remote, c) && JobsMatch(jobs, n.remote) && Fresh(n, job)
    requires m < |jobs| <= lim.servers && c <= lim.load
    requires m * c <= buffer < m * c + c && buffer !in jobs[m]
    ensures Enabled(lim, n, Send(job, Slot(m + 1, buffer))) && buffer < |jobs| * c
    ensures Strata(n.remote[job := Slot(m + 1, buffer)], c)
    ensures JobsMatch(jobs[m := jobs[m] + {buffer}], n.remote[job := Slot(m + 1, buffer)])
  {
    var slot := Slot(m + 1, buffer);
    assert (m + 1) * c == m * c + c;
    FreeForAll(n.remote, slot, c);
    FreeBufferMeansRoom(lim, n, job, slot, c);
    MulMonotone(m + 1, |jobs|, c);
    InsertMatch(jobs, n.remote, job, slot);
  }

  /** A buffer its own server does not use is used by no server. */
  lemma FreeForAll(running: map<nat, Slot>, slot: Slot, c: nat)
    requires Strata(running, c) && InStratum(slot, c) && slot.buffer !in ServerBuffers(running, slot.server)
    ensures BufferFree(running, slot.buffer)
  {
    forall j | j in running ensures running[j].buffer != slot.buffer {
      if running[j].server == slot.server {
        assert running[j].buffer in ServerBuffers(running, slot.server);
      } else if running[j].buffer == slot.buffer {
        StrataAreDisjoint(running[j], slot, c);
      }
    }
  }

  lemma LeastLoadedServer(jobs: seq<set<nat>>, running: map<nat, Slot>, m: nat, c: nat)
    requires JobsMatch(jobs, running) && Injective(running) && m < |jobs|
    requires forall s | 0 <= s < |jobs| :: |jobs[m]| <= |jobs[s]|
    requires forall j | j in running :: 1 <= running[j].server <= |jobs|
    ensures Load(running, m + 1) == |jobs[m]|
    ensures |running| < |jobs| * c ==> Load(running, m + 1) < c
  {
    BuffersCount(running, m + 1);
    forall s | 1 <= s <= |jobs| ensures Load(running, m + 1) <= Load(running, s) {
      BuffersCount(running, s);
      assert jobs[s-1] == ServerBuffers(running, s);
    }
    if |running| < |jobs| * c {
      LeastLoadedHasRoom(running, |jobs|, c, m + 1);
    }
  }

  lemma StrataKept(now: map<nat, Slot>, before: map<nat, Slot>, done: set<nat>, c: nat)
    requires Inherits(now, before, done) && Strata(before, c)
    ensures Strata(now, c)
  {
    StrataInherited(now, before, c);
  }

  /** Test the remote jobs and backfill them. */
  method PollRemote(b: EvalBookkeeping, start: nat, ready: set<nat>) returns (pos: nat)
    requires b.Valid() && Strata(b.running, b.concurrency) && start <= |b.queue|
    modifies b`trace, b`net, b`running, b`raw
    ensures b.Valid() && Strata(b.running, b.concurrency) && start <= pos <= |b.queue| && Relays(old(b.trace), b.trace)
    ensures Placed(b.queue, b.net, start, pos) && Grows(old(b.net), b.net)
    ensures Took(old(b.net.done), b.net.done, ready, old(b.running).Keys) && old(b.running).Keys <= b.queued
    ensures pos < |b.queue| ==> |b.running| == |old(b.running)|
  {
    hide Consistent, Safe, Legal, State, BitsMatch, Strata, Grows, Inherits, Placed;
    b.QueuedSets();
    ghost var slots := b.running;
    var receives;
    pos, receives := b.TestReceivesBackfill(start, ready);
    StrataKept(b.running, slots, b.net.done, b.concurrency);
  }
}
