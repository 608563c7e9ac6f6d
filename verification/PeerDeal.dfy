/**
  The round-robin deal of the peer schedulers.  Counting jobs from 1, job i goes to
  peer i % N; remainder 0 is the scheduling processor, so that it gets its first job
  last.  Sends are numbered consecutively.
 */
module PeerDeal {
  import opened Common
  import opened SlotProtocol
  import opened Bookkeeping
  import opened HomeSlots
  import opened LocalSchedulers

  /** How many of the first i jobs are sent away. */
  function Sends(i: nat, n: nat): nat
    requires n > 0
  {
    assert i / n <= i by { DivDown(i, n); }
    i - i / n
  }

  /** The number of a send determines its server: sends wrap around the remote peers. */
  lemma SendNumbering(i: nat, n: nat)
    requires n >= 2
    ensures (i + 1) % n != 0 ==> (i + 1) % n == Sends(i, n) % (n - 1) + 1 && Sends(i + 1, n) == Sends(i, n) + 1
    ensures (i + 1) % n == 0 ==> Sends(i + 1, n) == Sends(i, n)
  {
    DivStep(i, n);
    if (i + 1) % n != 0 { SendRemainder(i, n); }
  }

  lemma SendRemainder(i: nat, n: nat)
    requires n >= 2 && i % n < n - 1
    ensures i >= i / n && (i - i / n) % (n - 1) == i % n
  {
    var q, r := i / n, i % n;
    assert i == n * q + r;
    Regroup(i, n, q, r);
    DivDown(i, n);
    DivUnique(i - q, n - 1, q, r);
  }

  lemma Regroup(i: nat, n: nat, q: nat, r: nat)
    requires n > 0 && i == n * q + r
    ensures i - q == (n - 1) * q + r
  {}

  lemma {:induction false} SendsMonotone(i: nat, j: nat, n: nat)
    requires n >= 2 && i <= j
    ensures Sends(i, n) <= Sends(j, n)
    decreases j - i
  {
    if i < j {
      SendNumbering(i, n);
      SendsMonotone(i + 1, j, n);
    }
  }

  lemma FullDeal(n: nat, c: nat)
    requires n >= 2
    ensures (n * c) / n == c && Sends(n * c, n) == (n - 1) * c
  {
    DivUnique(n * c, n, c, 0);
    assert n * c - c == (n - 1) * c;
  }

  /** Each remote peer holds its share of the first i jobs. */
  ghost predicate Shares(remote: map<nat, Slot>, i: nat, n: nat)
    requires n > 0
  {
    forall s | 1 <= s < n :: Load(remote, s) == (i + n - s) / n
  }

  lemma ShareStep(i: nat, n: nat, s: nat)
    requires n >= 2 && 1 <= s < n
    ensures (i + 1 + n - s) / n == (i + n - s) / n + (if (i + 1) % n == s then 1 else 0)
  {
    DivStep(i + n - s, n);
    var q, r := (i + 1) / n, (i + 1) % n;
    assert i + 1 == n * q + r;
    if r >= s {
      assert i + 1 + n - s == n * (q + 1) + (r - s);
      DivUnique(i + 1 + n - s, n, q + 1, r - s);
    } else {
      DivUnique(i + 1 + n - s, n, q, r + n - s);
    }
  }

  /** Peer loads differ by at most one, and the local share is the smallest. */
  lemma SharesBalanced(i: nat, n: nat, s: nat)
    requires n >= 2 && 1 <= s < n
    ensures i / n <= (i + n - s) / n <= i / n + 1
  {
    var q, r := i / n, i % n;
    assert i == n * q + r;
    if r >= s {
      assert i + n - s == n * (q + 1) + (r - s);
      DivUnique(i + n - s, n, q + 1, r - s);
    } else {
      DivUnique(i + n - s, n, q, r + n - s);
    }
  }

  /** The state after dealing i jobs. */
  ghost predicate DealtRemote(n: Net, i: nat, peers: nat) {
    && 2 <= peers && AtHome(n.remote, peers - 1) && Within(n.remote, Sends(i, peers))
    && |n.remote| == Sends(i, peers) && Shares(n.remote, i, peers)
  }

  /** Where the job at a queue position went, through which buffer. */
  ghost predicate DealtTo(job: nat, p: nat, remote: map<nat, Slot>, local: seq<nat>, peers: nat)
    requires peers > 0
  {
    if (p + 1) % peers == 0 then job in local
    else job in remote && remote[job] == Slot((p + 1) % peers, Sends(p, peers))
  }

  /** Where the first jobs of the queue went: every N-th stays with the scheduling processor,
      the others go to the remote peers in turn, through consecutive buffers. */
  ghost predicate DealtOver(queue: seq<nat>, remote: map<nat, Slot>, count: nat, peers: nat) {
    && 0 < peers && count <= |queue|
    && forall p | 0 <= p < count ::
         if (p + 1) % peers == 0 then queue[p] !in remote
         else queue[p] in remote && remote[queue[p]].server == (p + 1) % peers
              && remote[queue[p]].buffer as int == p - p / peers
  }

  lemma DealtOverall(queue: seq<nat>, n: Net, local: seq<nat>, jobs: set<nat>, count: nat, peers: nat)
    requires 0 < peers && count <= |queue| && Lists(local, jobs) && AllFresh(jobs, n)
    requires forall p | 0 <= p < count :: DealtTo(queue[p], p, n.remote, local, peers)
    ensures DealtOver(queue, n.remote, count, peers)
  {}

  /** The queue kept for the scheduling processor. */
  ghost predicate DealtLocal(queue: seq<nat>, queued: set<nat>, n: Net, local: seq<nat>, i: nat, peers: nat) {
    && 0 < peers && i <= |queue| && |local| == i / peers && Ascending(local)
    && (forall q | 0 <= q < |local| :: local[q] in queued && Fresh(n, local[q]))
    && (forall q, p | 0 <= q < |local| && i <= p < |queue| :: local[q] < queue[p])
    && (forall p | 0 <= p < i :: DealtTo(queue[p], p, n.remote, local, peers))
    && (forall p | i <= p < |queue| :: Fresh(n, queue[p]))
  }

  lemma StartDeal(queue: seq<nat>, queued: set<nat>, n: Net, peers: nat)
    requires 2 <= peers && n.remote == map[] && forall p | 0 <= p < |queue| :: Fresh(n, queue[p])
    ensures DealtRemote(n, 0, peers) && DealtLocal(queue, queued, n, [], 0, peers)
  {
    hide Load;
    forall s | 1 <= s < peers ensures Load(n.remote, s) == (0 + peers - s) / peers { NoShare(s, peers); }
    DivUnique(0, peers, 0, 0);
  }

  lemma NoShare(s: nat, peers: nat)
    requires 1 <= s < peers
    ensures Load(map[], s) == (0 + peers - s) / peers
  {
    assert AtServer(map[], s) == {};
    DivUnique(peers - s, peers, 0, peers - s);
  }

  lemma DealSend(lim: Limits, queue: seq<nat>, queued: set<nat>, n: Net, local: seq<nat>, i: nat, peers: nat,
      buffers: nat)
    requires Safe(lim, n) && lim.servers == peers - 1 && DealtRemote(n, i, peers) && Ascending(queue)
    requires DealtLocal(queue, queued, n, local, i, peers) && i < |queue| && (i + 1) % peers != 0
    requires Sends(i, peers) < buffers <= lim.servers * lim.load
    ensures var e := Send(queue[i], Slot((i + 1) % peers, Sends(i, peers)));
            Enabled(lim, n, e) && DealtRemote(Next(n, e), i + 1, peers)
  {
    hide AtHome, Ascending, Load, Safe, Enabled, DealtTo;
    SendNumbering(i, peers);
    var b := Sends(i, peers);
    FreeHomeMeansRoom(lim, n, queue[i], b, buffers, lim.load);
    var slot := HomeSlot(b, peers - 1);
    MapSizes(n.remote, queue[i], slot);
    var after := n.remote[queue[i] := slot];
    forall s | 1 <= s < peers ensures Load(after, s) == (i + 1 + peers - s) / peers {
      ShareStep(i, peers, s);
      LoadAfterInsert(n.remote, queue[i], slot, s);
    }
  }

  lemma DealSendKeeps(queue: seq<nat>, queued: set<nat>, n: Net, local: seq<nat>, i: nat, peers: nat, slot: Slot)
    requires DealtLocal(queue, queued, n, local, i, peers) && Ascending(queue) && i < |queue|
    requires (i + 1) % peers != 0 && slot == Slot((i + 1) % peers, Sends(i, peers))
    ensures DealtLocal(queue, queued, Next(n, Send(queue[i], slot)), local, i + 1, peers)
  {
    DivStep(i, peers);
  }

  lemma DealKeep(queue: seq<nat>, queued: set<nat>, n: Net, local: seq<nat>, i: nat, peers: nat)
    requires DealtRemote(n, i, peers) && DealtLocal(queue, queued, n, local, i, peers)
    requires Ascending(queue) && i < |queue| && queue[i] in queued && (i + 1) % peers == 0
    ensures DealtRemote(n, i + 1, peers) && DealtLocal(queue, queued, n, local + [queue[i]], i + 1, peers)
  {
    hide DealtRemote, DealtLocal, Ascending;
    KeepRemote(n, i, peers);
    KeepLocal(queue, queued, n, local, i, peers);
  }

  lemma KeepRemote(n: Net, i: nat, peers: nat)
    requires DealtRemote(n, i, peers) && (i + 1) % peers == 0
    ensures DealtRemote(n, i + 1, peers)
  {
    hide AtHome, Within, Load, Sends;
    SendNumbering(i, peers);
    forall s | 1 <= s < peers ensures Load(n.remote, s) == (i + 1 + peers - s) / peers {
      ShareStep(i, peers, s);
    }
  }

  lemma KeepLocal(queue: seq<nat>, queued: set<nat>, n: Net, local: seq<nat>, i: nat, peers: nat)
    requires DealtLocal(queue, queued, n, local, i, peers)
    requires Ascending(queue) && i < |queue| && queue[i] in queued && (i + 1) % peers == 0
    ensures DealtLocal(queue, queued, n, local + [queue[i]], i + 1, peers)
  {
    hide Sends;
    DivStep(i, peers);
    var l := local + [queue[i]];
    assert l[|local|] == queue[i];
    forall p | 0 <= p < i + 1 ensures DealtTo(queue[p], p, n.remote, l, peers) {
      if p < i { assert DealtTo(queue[p], p, n.remote, local, peers); }
    }
  }

  ghost predicate BuffersFor(lim: Limits, buffers: nat, sends: nat) {
    sends <= buffers <= lim.servers * lim.load
  }

  ghost predicate Dealing(b: EvalBookkeeping, local: seq<nat>, i: nat)
    reads b
  {
    && DealtRemote(b.net, i, b.numServers)
    && DealtLocal(b.queue, b.queued, b.net, local, i, b.numServers)
  }

  lemma RoomFor(lim: Limits, buffers: nat, i: nat, count: nat, peers: nat)
    requires 2 <= peers && i < count && BuffersFor(lim, buffers, Sends(count, peers))
    ensures (i + 1) % peers != 0 ==> Sends(i, peers) < buffers <= lim.servers * lim.load
  {
    SendNumbering(i, peers);
    SendsMonotone(i + 1, count, peers);
  }

  /** Deal one job. */
  method DealOne(b: EvalBookkeeping, local: seq<nat>, buff: nat, i: nat, ghost count: nat)
    returns (local': seq<nat>, buff': nat)
    requires b.Valid() && 2 <= b.numServers && b.limits.servers == b.numServers - 1
    requires Dealing(b, local, i) && buff == Sends(i, b.numServers) && i < count <= |b.queue|
    requires BuffersFor(b.limits, b.buffers, Sends(count, b.numServers))
    modifies b`trace, b`net, b`running
    ensures old(b.trace) <= b.trace
    ensures b.Valid() && Dealing(b, local', i + 1) && buff' == Sends(i + 1, b.numServers)
    ensures b.net.done == old(b.net.done) && b.net.local == old(b.net.local)
  {
    hide Consistent, Safe, Legal, State, BitsMatch, DealtRemote, DealtLocal, Ascending, Lists, Sends, BuffersFor,
      Enabled;
    b.QueuedAt(i);
    b.QueueIsListed();
    var server := (i + 1) % b.numServers;
    SendNumbering(i, b.numServers);
    if server != 0 {
      RoomFor(b.limits, b.buffers, i, count, b.numServers);
      DealSend(b.limits, b.queue, b.queued, b.net, local, i, b.numServers, b.buffers);
      DealSendKeeps(b.queue, b.queued, b.net, local, i, b.numServers, Slot(server, buff));
      b.AssignRemote(b.queue[i], buff, server);
      local', buff' := local, buff + 1;
    } else {
      DealKeep(b.queue, b.queued, b.net, local, i, b.numServers);
      local', buff' := local + [b.queue[i]], buff;
    }
  }

  /** Deal the first `count` jobs of the queue. */
  method Deal(b: EvalBookkeeping, count: nat) returns (local: seq<nat>)
    requires b.Valid() && 2 <= b.numServers && b.limits.servers == b.numServers - 1 && count <= |b.queue|
    requires b.running == map[] && forall p | 0 <= p < |b.queue| :: Fresh(b.net, b.queue[p])
    requires BuffersFor(b.limits, b.buffers, Sends(count, b.numServers))
    modifies b`trace, b`net, b`running
    ensures old(b.trace) <= b.trace
    ensures b.Valid() && Dealing(b, local, count)
    ensures b.net.done == old(b.net.done) && b.net.local == old(b.net.local)
  {
    hide Consistent, Safe, Legal, State, BitsMatch, Dealing, Sends, BuffersFor;
    b.Facts();
    local := [];
    var buff, i := 0, 0;
    StartDealing(b);
    while i < count
      invariant old(b.trace) <= b.trace
      invariant b.Valid() && i <= count && Dealing(b, local, i) && buff == Sends(i, b.numServers)
      invariant b.net.done == old(b.net.done) && b.net.local == old(b.net.local)
    {
      local, buff := DealOne(b, local, buff, i, count);
      i := i + 1;
    }
  }

  lemma StartDealing(b: EvalBookkeeping)
    requires b.Valid() && 2 <= b.numServers && b.running == map[]
    requires forall p | 0 <= p < |b.queue| :: Fresh(b.net, b.queue[p])
    ensures Dealing(b, [], 0) && Sends(0, b.numServers) == 0
  {
    b.Facts();
    StartDeal(b.queue, b.queued, b.net, b.numServers);
  }

  /** The local share, as a queue of its own. */
  lemma LocalShare(b: EvalBookkeeping, local: seq<nat>, i: nat) returns (jobs: set<nat>)
    requires b.Valid() && Dealing(b, local, i)
    ensures Ascending(local) && Lists(local, jobs) && jobs <= b.queued && AllFresh(jobs, b.net)
    ensures |local| == i / b.numServers && i <= |b.queue|
    ensures |b.running| == Sends(i, b.numServers) && AtHome(b.running, b.numServers - 1)
    ensures forall p | 0 <= p < i :: DealtTo(b.queue[p], p, b.running, local, b.numServers)
    ensures forall p | i <= p < |b.queue| :: Fresh(b.net, b.queue[p]) && b.queue[p] !in jobs
  {
    jobs := IdsOf(local);
    forall j | j in jobs ensures j in b.queued && Fresh(b.net, j) {
      var q :| 0 <= q < |local| && local[q] == j;
    }
  }

  /** The counts the first pass announces, clipped to the capacities, are those its
      loop deals out. */
  lemma ClippedCounts(jobs: nat, n: nat, c: nat)
    requires n >= 2
    ensures var local := Min(c, jobs / n);
            var remote := Min((n - 1) * c, jobs - jobs / n);
            && local + remote == Min(n * c, jobs)
            && (local + remote) / n == local && Sends(local + remote, n) == remote
  {
    FullDeal(n, c);
    if n * c <= jobs {
      SendsMonotone(n * c, jobs, n);
      QuotientMonotone(n * c, jobs, n);
    } else {
      SendsMonotone(jobs, n * c, n);
      QuotientMonotone(jobs, n * c, n);
    }
    assert n * c == c + (n - 1) * c;
  }

  lemma QuotientMonotone(i: nat, j: nat, n: nat)
    requires i <= j && n > 0
    ensures i / n <= j / n
  {
    var d := i / n - j / n;
    assert n * d == i - i % n - (j - j % n);
    Multiples(n, d);
  }

  /** Once the local share has been started every job dealt is placed. */
  lemma PlacedByDeal(queue: seq<nat>, n: Net, local: seq<nat>, count: nat, peers: nat)
    requires 0 < peers && count <= |queue| && Started(local, |local|, n)
    requires forall p | 0 <= p < count :: DealtTo(queue[p], p, n.remote, local, peers)
    ensures Placed(queue, n, 0, count)
  {}
}
