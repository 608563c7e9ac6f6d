/**
  The nonblocking peer static scheduler.  Its first pass numbers buffers consecutively
  while its backfill gives each server a stratum of c buffers; the two agree only with
  one place per peer or one remote peer.
 */
module PeerStaticNowait {
  import opened Common
  import opened SlotProtocol
  import opened Bookkeeping
  import opened SlotAllocator
  import opened NowaitPlacement
  import opened HomeSlots
  import opened LocalSchedulers
  import opened PeerDeal
  import opened PeerNowait

  /** The slot the first pass gives to the job at queue position p. */
  function FirstSlot(p: nat, n: nat): Slot
    requires n > 0
  {
    Slot((p + 1) % n, Sends(p, n))
  }

  /** The first pass keeps to the strata that the backfill relies on exactly when there
      is one place per peer, or one remote peer, or at most one job. */
  lemma FirstPassStrata(jobs: nat, n: nat, c: nat)
    requires n >= 2 && c >= 1
    ensures (forall p: nat | p < Min(n * c, jobs) && (p + 1) % n != 0 :: InStratum(FirstSlot(p, n), c))
            <==> c == 1 || n == 2 || jobs < 2
  {
    if c == 1 || n == 2 || jobs < 2 {
      forall p: nat | p < Min(n * c, jobs) && (p + 1) % n != 0 ensures InStratum(FirstSlot(p, n), c) {
        if jobs < 2 && c >= 2 && n >= 3 {
          assert p == 0;
          SmallSlots(n);
        } else {
          StratumHolds(p, n, c);
        }
      }
    } else {
      SmallSlots(n);
      assert n * c >= n by { Multiples(n, c); }
      var p: nat := 1;
      assert p < Min(n * c, jobs) && (p + 1) % n != 0;
      assert !InStratum(FirstSlot(p, n), c);
    }
  }

  lemma StratumHolds(p: nat, n: nat, c: nat)
    requires n >= 2 && p < n * c && (p + 1) % n != 0 && (c == 1 || n == 2)
    ensures InStratum(FirstSlot(p, n), c)
  {
    SendNumbering(p, n);
    if c == 1 {
      DivUnique(p, n, 0, p);
      DivUnique(p + 1, n, 0, p + 1);
    } else {
      FullDeal(n, c);
      SendsMonotone(p + 1, n * c, n);
    }
  }

  lemma SmallSlots(n: nat)
    requires n >= 2
    ensures FirstSlot(0, n) == Slot(1, 0)
    ensures n >= 3 ==> FirstSlot(1, n) == Slot(2, 1)
  {
    DivUnique(0, n, 0, 0);
    DivUnique(1, n, 0, 1);
    if n >= 3 { DivUnique(2, n, 0, 2); }
  }

  lemma EmptyLoad()
    ensures forall s: nat :: Load(State([]).remote, s) == 0
  {
    forall s: nat ensures Load(State([]).remote, s) == 0 {
      assert AtServer(State([]).remote, s) == {};
    }
  }

  /** The start of the run that goes wrong: jobs 1 and 2 go out in the first pass, job 1
      returns, and job n+1 is backfilled for server 1. */
  function CollidingRun(n: nat): seq<Event>
    requires n > 0
  {
    [Send(1, FirstSlot(0, n)), Send(2, FirstSlot(1, n)), Recv(1, FirstSlot(0, n)), Send(n + 1, Slot(1, 0))]
  }

  /** In every other configuration a legal run leads to a state where the scheduler gives a
      job a buffer that still awaits a result: server 1 has room, the first buffer of its
      stratum that it does not use is that of job 2 on server 2, and sending through it
      breaks the protocol. */
  lemma BufferCollision(n: nat, c: nat)
    requires n >= 3 && c >= 2
    ensures var lim, t := Limits(n - 1, c, c, 0), CollidingRun(n);
            var before, now := State(t[..3]).remote, State(t).remote;
            && Legal(lim, t) && now == map[2 := Slot(2, 1), n + 1 := Slot(1, 0)]
            && StaticServer(n + 1, 1, n) == 1 && StaticServer(2 * n + 1, 1, n) == 1
            && IsFirstFree(ServerBuffers(before, 1), 0, c, 0)
            && |ServerBuffers(now, 1)| < c && IsFirstFree(ServerBuffers(now, 1), 0, c, 1)
            && now[2].buffer == 1 && !Enabled(lim, State(t), Send(2 * n + 1, Slot(1, 1)))
  {
    hide Legal, State, IsFirstFree;
    SmallSlots(n);
    DivUnique(n + 1, n, 1, 1);
    DivUnique(2 * n + 1, n, 2, 1);
    CollidingSends(n, c);
    CollidingBackfill(n, c);
    var t := CollidingRun(n);
    assert t[..3] == [t[0], t[1], t[2]] && t == [t[0], t[1], t[2], t[3]];
    assert ServerBuffers(map[2 := Slot(2, 1)], 1) == {};
    OnlyBuffer(n);
    TakenAndFree(c);
  }

  lemma TakenAndFree(c: nat)
    requires c >= 2
    ensures IsFirstFree({}, 0, c, 0) && IsFirstFree({0}, 0, c, 1)
  {}

  /** The first two jobs go out to servers 1 and 2. */
  lemma CollidingSends(n: nat, c: nat)
    requires n >= 3 && c >= 2
    ensures var t := [Send(1, Slot(1, 0)), Send(2, Slot(2, 1))];
            Legal(Limits(n - 1, c, c, 0), t) && State(t) == Net(map[1 := Slot(1, 0), 2 := Slot(2, 1)], {}, {})
  {
    var lim, e1, e2 := Limits(n - 1, c, c, 0), Send(1, Slot(1, 0)), Send(2, Slot(2, 1));
    EmptyLoad();
    ExtendLegal(lim, [], e1);
    assert [] + [e1] == [e1] && [e1] + [e2] == [e1, e2];
    LoadAfterInsert(map[], 1, Slot(1, 0), 2);
    ExtendLegal(lim, [e1], e2);
  }

  /** Job 1 comes back and job n+1 takes its slot. */
  lemma CollidingBackfill(n: nat, c: nat)
    requires n >= 3 && c >= 2
    ensures var t := [Send(1, Slot(1, 0)), Send(2, Slot(2, 1)), Recv(1, Slot(1, 0)), Send(n + 1, Slot(1, 0))];
            && Legal(Limits(n - 1, c, c, 0), t) && State([t[0], t[1], t[2]]) == Net(map[2 := Slot(2, 1)], {}, {1})
            && State(t) == Net(map[2 := Slot(2, 1), n + 1 := Slot(1, 0)], {}, {1})
  {
    hide Legal, State;
    CollidingSends(n, c);
    var lim, e1, e2 := Limits(n - 1, c, c, 0), Send(1, Slot(1, 0)), Send(2, Slot(2, 1));
    var e3, e4, remote := Recv(1, Slot(1, 0)), Send(n + 1, Slot(1, 0)), map[2 := Slot(2, 1)];
    ExtendLegal(lim, [e1, e2], e3);
    assert [e1, e2] + [e3] == [e1, e2, e3] && [e1, e2, e3] + [e4] == [e1, e2, e3, e4];
    assert State([e1, e2, e3]).remote == remote;
    assert Load(remote, 1) == 0 by { assert AtServer(remote, 1) == {}; }
    ExtendLegal(lim, [e1, e2, e3], e4);
  }

  lemma OnlyBuffer(n: nat)
    requires n >= 3
    ensures ServerBuffers(map[2 := Slot(2, 1), n + 1 := Slot(1, 0)], 1) == {0}
  {
    var remote := map[2 := Slot(2, 1), n + 1 := Slot(1, 0)];
    assert n + 1 in remote && remote[n + 1] == Slot(1, 0);
  }

  /** The placement code run on that state: it rebuilds the buffers of the servers and picks
      the buffer of job 2. */
  method CollisionChoice(n: nat, c: nat) returns (buffer: nat)
    requires n >= 3 && c >= 2
    ensures buffer == 1 && !BufferFree(State(CollidingRun(n)).remote, buffer)
  {
    BufferCollision(n, c);
    var running := map[2 := Slot(2, 1), n + 1 := Slot(1, 0)];
    var jobs := CollectServerJobs(running, n - 1);
    OnlyBuffer(n);
    var avail;
    buffer, avail := FirstFree(jobs[0], 0, c);
    assert 1 !in jobs[0];
    assert running[2].buffer == 1;
  }

  /** Where the two numberings agree. */
  ghost predicate StaticConfig(b: EvalBookkeeping)
    reads b`limits
  {
    && 2 <= b.numServers && 1 <= b.concurrency && (b.concurrency == 1 || b.numServers == 2)
    && b.limits.servers == b.numServers - 1 && b.concurrency <= b.limits.load
  }

  function TotalCapacity(b: EvalBookkeeping): nat {
    b.numServers * b.concurrency
  }

  ghost predicate NotBefore(ref: nat, queue: seq<nat>) {
    forall p | 0 <= p < |queue| :: ref <= queue[p]
  }

  /** What becomes of the jobs chosen for the scheduling processor: they are evaluated, or
      launched unless the limit is reached or their "server" is busy. */
  ghost predicate Launched(b: EvalBookkeeping, placed: Net, mid: Net, planned: set<nat>, synchLocal: bool) {
    && mid.remote == placed.remote
    && if synchLocal then mid.done == placed.done + planned && mid.local == placed.local
       else
         && mid.done == placed.done && placed.local <= mid.local <= placed.local + planned
         && forall j | j in planned :: j in mid.local || LocalWaits(b, j, placed.local, mid.local)
  }

  /** The limit is reached, or a job that was active or comes earlier has the "server". */
  ghost predicate LocalWaits(b: EvalBookkeeping, j: nat, before: set<nat>, active: set<nat>) {
    || (b.concurrency > 0 && |active| >= b.concurrency)
    || (b.staticLocal && b.concurrency > 1
        && exists k :: k in active && SameServer(j, k, b.concurrency * b.numServers) && (k in before || k < j))
  }

  /** The first pass deals by position: each job goes to the peer of its position, and the
      jobs beyond the capacity are left alone. */
  ghost predicate FirstChosen(queue: seq<nat>, placed: Net, planned: set<nat>, peers: nat, c: nat, count: nat)
    requires peers > 0
  {
    && (forall p | 0 <= p < count <= |queue| :: Assigned(queue[p], (p + 1) % peers, placed, planned, c))
    && (forall p | count <= p < |queue| :: Fresh(placed, queue[p]) && queue[p] !in planned)
  }

  /** The state after placement: nothing that ran was disturbed, and the jobs chosen for the
      scheduling processor are new. */
  ghost predicate Chosen(queued: set<nat>, before: Net, placed: Net, planned: set<nat>) {
    && placed.done == before.done && placed.local == before.local && planned <= queued
    && (forall k | k in before.remote :: k in placed.remote && placed.remote[k] == before.remote[k])
    && (forall j | j in planned :: Fresh(before, j) && Fresh(placed, j))
  }

  /** First pass with nothing running. */
  method FirstPass(b: EvalBookkeeping, synchLocal: bool)
    returns (pos: nat, ghost placed: seq<Event>, ghost planned: set<nat>)
    requires b.Valid() && StaticConfig(b) && b.running == map[] && b.active == {} && b.raw == {} && AllBuffers(b)
    modifies b`trace, b`net, b`running, b`active, b`busy, b`raw
    ensures old(b.trace) <= placed <= b.trace
    ensures b.Valid() && Strata(b.running, b.concurrency) && pos == Min(TotalCapacity(b), |b.queue|)
    ensures Chosen(b.queued, old(b.net), State(placed), planned)
    ensures Launched(b, State(placed), b.net, planned, synchLocal)
    ensures FirstChosen(b.queue, State(placed), planned, b.numServers, b.concurrency, pos)
  {
    hide Consistent, Safe, Legal, State, BitsMatch, BuffersFor, Sends, Dealing, AtHome, DealtTo, Lists, Ascending,
      Strata, AllBuffers, Min, Launched, Chosen, FirstChosen;
    b.AllQueuedFresh();
    b.WaitingJobs();
    pos := FirstPassCount(b);
    var local := Deal(b, pos);
    DealtInStrata(b, local, pos);
    planned := LocalShare(b, local, pos);
    b.RunningIsRemote();
    b.ActiveIsLocal();
    b.WaitingJobs();
    placed := b.trace;
    DealtChosen(b, old(b.net), b.net, local, planned, pos);
    EvaluateOrLaunch(b, local, planned, synchLocal);
    b.WaitingJobs();
  }

  lemma DealtChosen(b: EvalBookkeeping, before: Net, placed: Net, local: seq<nat>, planned: set<nat>, count: nat)
    requires 0 < b.numServers && count <= |b.queue| && Lists(local, planned) && planned <= b.queued
    requires forall p | 0 <= p < count :: DealtTo(b.queue[p], p, placed.remote, local, b.numServers)
    requires forall p | count <= p < |b.queue| :: Fresh(placed, b.queue[p]) && b.queue[p] !in planned
    requires before.remote == map[] && placed.done == before.done && placed.local == before.local
    requires AllFresh(planned, placed)
    ensures Chosen(b.queued, before, placed, planned)
    ensures FirstChosen(b.queue, placed, planned, b.numServers, b.concurrency, count)
  {
    ListedIn(local, planned);
    forall p | 0 <= p < count ensures Assigned(b.queue[p], (p + 1) % b.numServers, placed, planned, b.concurrency) {
      assert DealtTo(b.queue[p], p, placed.remote, local, b.numServers);
    }
  }

  /** Evaluate the local share, or launch it up to the limit. */
  method EvaluateOrLaunch(b: EvalBookkeeping, local: seq<nat>, ghost jobs: set<nat>, synchLocal: bool)
    requires b.Valid() && b.active == {} && |local| <= b.concurrency
    requires Ascending(local) && Lists(local, jobs) && jobs <= b.queued && AllFresh(jobs, b.net)
    modifies b`trace, b`net, b`active, b`busy, b`raw
    ensures old(b.trace) <= b.trace
    ensures b.Valid() && Launched(b, old(b.net), b.net, jobs, synchLocal)
  {
    hide EvalBookkeeping.Valid, State, Ascending, Lists, AllFresh, Launched, Served, EvalBookkeeping.OneEach, FirstOf,
      Consecutive;
    b.WaitingJobs();
    ghost var n := b.net;
    if synchLocal {
      SynchronousLocalEvaluations(b, local, jobs);
      b.WaitingJobs();
      ShareEvaluated(b, n, b.net, jobs);
    } else {
      var launched := AssignAsynchLocalQueue(b, local, jobs);
      b.WaitingJobs();
      ListsIn(local, jobs);
      JobsLaunched(b, n, local, jobs);
    }
  }

  lemma ShareEvaluated(b: EvalBookkeeping, n: Net, n': Net, jobs: set<nat>)
    requires n'.remote == n.remote && n'.done == n.done + jobs && n'.local == n.local
    ensures Launched(b, n, n', jobs, true)
  {}

  /** The jobs of a queue that are not active yet were offered to the local processors. */
  lemma JobsLaunched(b: EvalBookkeeping, n: Net, local: seq<nat>, jobs: set<nat>)
    requires Ascending(local) && b.net.local == b.active && b.net.done == n.done && b.net.remote == n.remote
    requires b.active == Served(n.local, local, {}, b.staticLocal, b.concurrency, b.concurrency * b.numServers)
    requires (forall j | j in jobs :: j in local) && b.active <= n.local + jobs
    ensures Launched(b, n, b.net, jobs, false)
  {
    hide Served, SameServer, Ascending;
    ServedWithin(n.local, local, {}, b.staticLocal, b.concurrency, b.concurrency * b.numServers);
    forall j | j in jobs ensures j in b.net.local || LocalWaits(b, j, n.local, b.net.local) {
      var p :| 0 <= p < |local| && local[p] == j;
      ServedWhy(n.local, local, {}, b.staticLocal, b.concurrency, b.concurrency * b.numServers, p);
    }
  }

  lemma ListsIn(local: seq<nat>, jobs: set<nat>)
    requires Ascending(local) && Lists(local, jobs)
    ensures forall j | j in jobs :: j in local
  {
    hide Ascending, Lists;
    forall j | j in jobs ensures j in local { var p := IndexOf(local, jobs, j); }
  }

  lemma PlanLists(queue: seq<nat>, queued: set<nat>, n: Net, local: seq<nat>, planned: set<nat>, pos: nat,
      active: set<nat>)
    requires LocalPlan(queue, queued, n, local, planned, pos)
    requires forall j | j in active && j !in n.local :: j in local
    ensures Ascending(local) && (forall j | j in planned :: j in local) && active <= n.local + planned
  {
    forall j | j in active && j !in n.local ensures j in planned {
      var q :| 0 <= q < |local| && local[q] == j;
    }
  }

  lemma IndexOf(local: seq<nat>, jobs: set<nat>, j: nat) returns (p: nat)
    requires Ascending(local) && Lists(local, jobs) && j in jobs
    ensures p < |local| && local[p] == j
  {
    if forall p | 0 <= p < |local| :: local[p] != j {
      NotListed(local, jobs, j);
    }
    p :| 0 <= p < |local| && local[p] == j;
  }

  method FirstPassCount(b: EvalBookkeeping) returns (count: nat)
    requires StaticConfig(b) && AllBuffers(b)
    ensures count == Min(TotalCapacity(b), |b.queue|) && count <= |b.queue|
    ensures BuffersFor(b.limits, b.buffers, Sends(count, b.numServers))
    ensures count / b.numServers <= b.concurrency
  {
    hide RemoteCapacity, TotalCapacity, BuffersFor, Sends, AllBuffers, Min;
    var numLocalJobs := |b.queue| / b.numServers;
    DivDown(|b.queue|, b.numServers);
    var numLocal := Min(b.concurrency, numLocalJobs);
    var numRemote := Min(RemoteCapacity(b), |b.queue| - numLocalJobs);
    count := numLocal + numRemote;
    FirstPassTotal(b, numLocalJobs, count);
  }

  lemma FirstPassTotal(b: EvalBookkeeping, q: nat, count: nat)
    requires StaticConfig(b) && AllBuffers(b) && q == |b.queue| / b.numServers && q <= |b.queue|
    requires count == Min(b.concurrency, q) + Min(RemoteCapacity(b), |b.queue| - q)
    ensures count == Min(TotalCapacity(b), |b.queue|) && count <= |b.queue|
    ensures BuffersFor(b.limits, b.buffers, Sends(count, b.numServers))
    ensures count / b.numServers <= b.concurrency
  {
    ClippedCounts(|b.queue|, b.numServers, b.concurrency);
    DealRoom(b, count);
  }

  lemma DealRoom(b: EvalBookkeeping, count: nat)
    requires StaticConfig(b) && AllBuffers(b) && count <= TotalCapacity(b)
    ensures BuffersFor(b.limits, b.buffers, Sends(count, b.numServers))
  {
    var n, c, load := b.numServers, b.concurrency, b.limits.load;
    RoomInLoad(n, c, load, count);
  }

  lemma RoomInLoad(n: nat, c: nat, load: nat, count: nat)
    requires 2 <= n && c <= load && count <= n * c
    ensures Sends(count, n) <= (n - 1) * c <= (n - 1) * load
  {
    FullDeal(n, c);
    SendsMonotone(count, n * c, n);
    MulMonotone(c, load, n - 1);
    assert (n - 1) * c == c * (n - 1) && (n - 1) * load == load * (n - 1);
  }

  lemma DealtInStrata(b: EvalBookkeeping, local: seq<nat>, count: nat)
    requires b.Valid() && StaticConfig(b) && Dealing(b, local, count)
    requires count == Min(TotalCapacity(b), |b.queue|)
    ensures Strata(b.running, b.concurrency)
  {
    hide Safe, Legal, State, BitsMatch, Lists, Shares, Recorded, Ascending;
    forall j | j in b.running ensures InStratum(b.running[j], b.concurrency) {
      HomeInStratum(b.running[j].buffer, b.numServers, b.concurrency, count);
      assert b.running[j].buffer < Sends(count, b.numServers);
    }
  }

  lemma HomeInStratum(buffer: nat, n: nat, c: nat, count: nat)
    requires n >= 2 && c >= 1 && (c == 1 || n == 2) && count <= n * c
    ensures buffer < Sends(count, n) ==> InStratum(HomeSlot(buffer, n - 1), c)
  {
    FullDeal(n, c);
    SendsMonotone(count, n * c, n);
    if c == 1 && buffer < n - 1 { DivUnique(buffer, n - 1, 0, buffer); }
  }

  /** A peer has no room left; peer 0 is the scheduling processor. */
  ghost predicate PeerFull(s: nat, n: Net, planned: set<nat>, c: nat) {
    if s == 0 then |n.local| + |planned| >= c else Load(n.remote, s) >= c
  }

  /** A new job was given to its own peer and to no other, unless that peer is full. */
  ghost predicate Assigned(j: nat, s: nat, n: Net, planned: set<nat>, c: nat) {
    && (j in planned ==> s == 0)
    && (j in n.remote ==> s != 0 && n.remote[j].server == s)
    && (j in planned || j in n.remote || PeerFull(s, n, planned, c))
  }

  /** Every job passed so far was placed before or has been assigned, and the jobs still to
      come were not touched. */
  ghost predicate Handled(queue: seq<nat>, ref: nat, peers: nat, before: Net, n: Net, planned: set<nat>, c: nat,
      pos: nat)
  {
    && peers > 0 && NotBefore(ref, queue) && before.remote.Keys <= n.remote.Keys && before.local <= n.local
    && (forall p | 0 <= p < pos <= |queue| ::
          queue[p] in before.remote || queue[p] in before.local
            || Assigned(queue[p], StaticServer(queue[p], ref, peers), n, planned, c))
    && (forall p | pos <= p < |queue| :: queue[p] !in planned && (queue[p] in n.remote ==> queue[p] in before.remote))
    && (forall p, r | 0 <= p < r < pos && r < |queue| && Left(queue[p], n, planned)
      && Newly(queue[r], before, n, planned) ::
          StaticServer(queue[p], ref, peers) != StaticServer(queue[r], ref, peers))
  }

  /** A job that was given no place, and one that was. */
  ghost predicate Left(j: nat, n: Net, planned: set<nat>) {
    j !in n.remote && j !in n.local && j !in planned
  }

  ghost predicate Newly(j: nat, before: Net, n: Net, planned: set<nat>) {
    j in planned || (j in n.remote && j !in before.remote)
  }

  /** The peer that a job's id selects: ids are dealt out from the reference id on, the last
      peer of a round being the scheduling processor. */
  ghost predicate PeerOf(j: nat, ref: nat, peers: nat, s: nat) {
    ref <= j && s < peers && (j - ref + 1) % peers == s
  }

  /** Every job of the queue was placed before, or was given to the peer its id selects and to
      no other, or finds that peer full; and no job took a place on a peer that an earlier job
      of the queue is waiting for. */
  ghost predicate AtOwnPeers(queue: seq<nat>, ref: nat, peers: nat, before: Net, n: Net, planned: set<nat>, c: nat) {
    && (forall p | 0 <= p < |queue| && queue[p] !in before.remote && queue[p] !in before.local ::
          exists s :: PeerOf(queue[p], ref, peers, s) && Assigned(queue[p], s, n, planned, c))
    && (forall p, r, s | 0 <= p < r < |queue| && Left(queue[p], n, planned) && Newly(queue[r], before, n, planned)
          && PeerOf(queue[p], ref, peers, s) :: !PeerOf(queue[r], ref, peers, s))
  }

  lemma HandledAtOwn(queue: seq<nat>, ref: nat, peers: nat, before: Net, n: Net, planned: set<nat>, c: nat)
    requires Handled(queue, ref, peers, before, n, planned, c, |queue|)
    ensures AtOwnPeers(queue, ref, peers, before, n, planned, c)
  {
    hide Assigned, Left, Newly;
    forall p | 0 <= p < |queue| ensures PeerOf(queue[p], ref, peers, StaticServer(queue[p], ref, peers)) {}
  }

  /** This agrees with the deal of the first pass: of consecutive ids from the reference id on,
      the one at queue position p belongs to peer (p+1) mod N. */
  lemma AgreesWithDeal(queue: seq<nat>, ref: nat, peers: nat, p: nat, s: nat)
    requires 0 < peers && p < |queue| && queue[p] == ref + p
    ensures PeerOf(queue[p], ref, peers, s) <==> s == (p + 1) % peers
  {}

  /** As many consecutive ids as there are peers belong to different peers. */
  lemma SpreadOverPeers(j: nat, k: nat, ref: nat, peers: nat, s: nat)
    requires ref <= j < k < j + peers && PeerOf(j, ref, peers, s)
    ensures !PeerOf(k, ref, peers, s)
  {
    if PeerOf(k, ref, peers, s) {
      SameRemainder(k - ref + 1, j - ref + 1, peers);
    }
  }

  /** At most one job was added, remotely or to the plan. */
  ghost predicate Extends(n: Net, n': Net, planned: set<nat>, planned': set<nat>, j: nat) {
    && n'.local == n.local && planned <= planned' <= planned + {j}
    && n'.remote.Keys <= n.remote.Keys + {j}
    && (forall k | k in n.remote :: k in n'.remote && n'.remote[k] == n.remote[k])
  }

  lemma StaysAssigned(j: nat, s: nat, n: Net, n': Net, planned: set<nat>, planned': set<nat>, c: nat, k: nat)
    requires Assigned(j, s, n, planned, c) && Extends(n, n', planned, planned', k) && j != k
    ensures Assigned(j, s, n', planned', c)
  {
    SubsetSize(planned, planned');
    SubsetSize(AtServer(n.remote, s), AtServer(n'.remote, s));
  }

  lemma LeftIsFull(j: nat, s: nat, n: Net, planned: set<nat>, c: nat)
    requires Left(j, n, planned)
    ensures Assigned(j, s, n, planned, c) ==> PeerFull(s, n, planned, c)
  {}

  lemma NothingHandled(queue: seq<nat>, ref: nat, peers: nat, n: Net, c: nat)
    requires peers > 0 && NotBefore(ref, queue)
    ensures Handled(queue, ref, peers, n, n, {}, c, 0)
  {}

  lemma HandledNext(queue: seq<nat>, ref: nat, peers: nat, before: Net, n: Net, n': Net, planned: set<nat>,
      planned': set<nat>, c: nat, pos: nat)
    requires Handled(queue, ref, peers, before, n, planned, c, pos) && pos < |queue| && Ascending(queue)
    requires Extends(n, n', planned, planned', queue[pos]) && before.local == n.local
    requires queue[pos] in n.remote || queue[pos] in n.local
          || Assigned(queue[pos], StaticServer(queue[pos], ref, peers), n', planned', c)
    requires Newly(queue[pos], n, n', planned') ==>
               NotBefore(ref, queue) && !PeerFull(StaticServer(queue[pos], ref, peers), n, planned, c)
    ensures Handled(queue, ref, peers, before, n', planned', c, pos + 1)
  {
    hide Assigned, StaticServer, PeerFull;
    forall p | 0 <= p < pos && Left(queue[p], n', planned') && Newly(queue[pos], before, n', planned')
      ensures StaticServer(queue[p], ref, peers) != StaticServer(queue[pos], ref, peers)
    {
      LeftIsFull(queue[p], StaticServer(queue[p], ref, peers), n, planned, c);
    }
    forall p | 0 <= p < pos && queue[p] !in before.remote && queue[p] !in before.local
      ensures Assigned(queue[p], StaticServer(queue[p], ref, peers), n', planned', c)
    {
      StaysAssigned(queue[p], StaticServer(queue[p], ref, peers), n, n', planned, planned', c, queue[pos]);
    }
  }

  /** Place the job at one queue position on its own peer, if that has room. */
  method PlaceOne(b: EvalBookkeeping, ref: nat, pos: nat, local: seq<nat>, ghost planned: set<nat>, numLocal: nat,
      jobs: seq<set<nat>>, ghost before: Net)
    returns (local': seq<nat>, ghost planned': set<nat>, numLocal': nat, jobs': seq<set<nat>>)
    requires b.Valid() && StaticConfig(b) && Strata(b.running, b.concurrency) && b.raw == {}
    requires AllBuffers(b) && pos < |b.queue| && NotBefore(ref, b.queue)
    requires |jobs| == b.numServers - 1 && JobsMatch(jobs, b.running)
    requires LocalPlan(b.queue, b.queued, b.net, local, planned, pos)
    requires numLocal == |b.active| + |planned| <= b.concurrency
    requires Handled(b.queue, ref, b.numServers, before, b.net, planned, b.concurrency, pos) && before.local == b.active
    modifies b`trace, b`net, b`running
    ensures old(b.trace) <= b.trace
    ensures b.Valid() && Strata(b.running, b.concurrency)
    ensures |jobs'| == |jobs| && JobsMatch(jobs', b.running)
    ensures b.net.done == old(b.net.done) && Grows(old(b.net), b.net)
    ensures LocalPlan(b.queue, b.queued, b.net, local', planned', pos + 1)
    ensures numLocal' == |b.active| + |planned'| <= b.concurrency
    ensures Handled(b.queue, ref, b.numServers, before, b.net, planned', b.concurrency, pos + 1)
    ensures Kept(old(b.net), b.net)
  {
    hide Consistent, Safe, Legal, State, BitsMatch, Strata, JobsMatch, LocalPlan, Covered, Injective, Lists, Ascending,
      Grows, Load, AllBuffers, StaticServer, Handled, Assigned, Extends;
    ghost var n := b.net;
    ExtendsSelf(n, planned, b.queue[pos]);
    b.Facts();
    b.QueuedAt(pos);
    b.QueueIsListed();
    GrowsSelf(b.net);
    var id := b.queue[pos];
    NotPlanned(b.queue, b.queued, b.net, local, planned, pos);
    local', planned', numLocal', jobs' := local, planned, numLocal, jobs;
    if id !in b.running && id !in b.active {
      local', planned', numLocal', jobs' := PlaceNew(b, StaticServer(id, ref, b.numServers), pos, local, planned,
        numLocal, jobs);
    } else if id in b.active {
      PlanAdd(b.queue, b.queued, b.net, local, planned, pos, planned);
      local' := local + [id];
    } else {
      PlanSkip(b.queue, b.queued, b.net, local, planned, pos);
    }
    HandledNext(b.queue, ref, b.numServers, before, n, b.net, planned, planned', b.concurrency, pos);
    ExtendsKeeps(n, b.net, planned, planned', b.queue[pos]);
  }

  lemma ExtendsKeeps(n: Net, n': Net, planned: set<nat>, planned': set<nat>, j: nat)
    requires Extends(n, n', planned, planned', j) && n'.done == n.done
    ensures Kept(n, n')
  {}

  lemma ExtendsSelf(n: Net, planned: set<nat>, j: nat)
    ensures Extends(n, n, planned, planned, j)
  {}

  function StaticServer(id: nat, ref: nat, n: nat): (s: nat)
    requires ref <= id && n > 0
    ensures s < n
  {
    (id - ref + 1) % n
  }

  method PlaceNew(b: EvalBookkeeping, server: nat, pos: nat, local: seq<nat>, ghost planned: set<nat>, numLocal: nat,
      jobs: seq<set<nat>>)
    returns (local': seq<nat>, ghost planned': set<nat>, numLocal': nat, jobs': seq<set<nat>>)
    requires b.Valid() && StaticConfig(b) && Strata(b.running, b.concurrency) && b.raw == {} && server < b.numServers
    requires AllBuffers(b) && pos < |b.queue| && Ascending(b.queue)
    requires |jobs| == b.numServers - 1 && JobsMatch(jobs, b.running)
    requires LocalPlan(b.queue, b.queued, b.net, local, planned, pos)
    requires numLocal == |b.active| + |planned| <= b.concurrency
    requires Fresh(b.net, b.queue[pos]) && b.queue[pos] in b.queued && b.queue[pos] !in planned
    modifies b`trace, b`net, b`running
    ensures old(b.trace) <= b.trace
    ensures b.Valid() && Strata(b.running, b.concurrency)
    ensures |jobs'| == |jobs| && JobsMatch(jobs', b.running)
    ensures b.net.done == old(b.net.done) && Grows(old(b.net), b.net)
    ensures LocalPlan(b.queue, b.queued, b.net, local', planned', pos + 1)
    ensures numLocal' == |b.active| + |planned'| <= b.concurrency
    ensures Extends(old(b.net), b.net, planned, planned', b.queue[pos])
    ensures Assigned(b.queue[pos], server, b.net, planned', b.concurrency)
    ensures Newly(b.queue[pos], old(b.net), b.net, planned') ==> !PeerFull(server, old(b.net), planned, b.concurrency)
  {
    hide Consistent, Safe, Legal, State, BitsMatch, Strata, JobsMatch, LocalPlan, Grows, Ascending, Load, AllBuffers,
      Fresh, Extends, Assigned;
    b.ActiveIsLocal();
    GrowsSelf(b.net);
    var id := b.queue[pos];
    local', planned', numLocal', jobs' := local, planned, numLocal, jobs;
    ghost var n := b.net;
    FreshIsNowhere(n, id);
    if server == 0 && numLocal < b.concurrency {
      planned' := planned + {id};
      PlanAdd(b.queue, b.queued, n, local, planned, pos, planned');
      PlanAssigned(id, n, planned, b.concurrency);
      local', numLocal' := local + [id], numLocal + 1;
    } else if server != 0 && |jobs[server - 1]| < b.concurrency {
      jobs' := SendNew(b, server - 1, pos, local, planned, jobs);
      SentAssigned(id, server, b.net, planned, b.concurrency);
    } else {
      LeftWaiting(b, id, server, planned, jobs);
      PlanSkip(b.queue, b.queued, n, local, planned, pos);
    }
  }

  lemma PlanAssigned(j: nat, n: Net, planned: set<nat>, c: nat)
    requires j !in n.remote
    ensures Extends(n, n, planned, planned + {j}, j) && Assigned(j, 0, n, planned + {j}, c)
  {}

  lemma SentAssigned(j: nat, s: nat, n: Net, planned: set<nat>, c: nat)
    requires s != 0 && j in n.remote && n.remote[j].server == s && j !in planned
    ensures Assigned(j, s, n, planned, c)
  {}

  lemma LeftWaiting(b: EvalBookkeeping, j: nat, s: nat, planned: set<nat>, jobs: seq<set<nat>>)
    requires b.Valid() && s <= |jobs| && JobsMatch(jobs, b.running) && Fresh(b.net, j) && j !in planned
    requires if s == 0 then |b.active| + |planned| >= b.concurrency else |jobs[s-1]| >= b.concurrency
    ensures Extends(b.net, b.net, planned, planned, j) && Assigned(j, s, b.net, planned, b.concurrency)
  {
    hide JobsMatch, Legal, State, BitsMatch;
    b.FactsSafe();
    b.Facts();
    if s != 0 {
      var m: nat := s - 1;
      LoadOf(jobs, b.running, m);
    }
  }

  method SendNew(b: EvalBookkeeping, m: nat, pos: nat, ghost local: seq<nat>, ghost planned: set<nat>,
      jobs: seq<set<nat>>)
    returns (jobs': seq<set<nat>>)
    requires b.Valid() && StaticConfig(b) && Strata(b.running, b.concurrency) && AllBuffers(b)
    requires pos < |b.queue| && Ascending(b.queue) && LocalPlan(b.queue, b.queued, b.net, local, planned, pos)
    requires |jobs| == b.numServers - 1 && JobsMatch(jobs, b.running) && m < |jobs| && |jobs[m]| < b.concurrency
    requires Fresh(b.net, b.queue[pos]) && b.queue[pos] in b.queued && b.queue[pos] !in planned
    modifies b`trace, b`net, b`running
    ensures old(b.trace) <= b.trace
    ensures b.Valid() && Strata(b.running, b.concurrency) && |jobs'| == |jobs| && JobsMatch(jobs', b.running)
    ensures b.net.done == old(b.net.done) && Grows(old(b.net), b.net)
    ensures LocalPlan(b.queue, b.queued, b.net, local, planned, pos + 1)
    ensures Extends(old(b.net), b.net, planned, planned, b.queue[pos])
    ensures b.queue[pos] in b.net.remote && b.net.remote[b.queue[pos]].server == m + 1
    ensures Load(old(b.net).remote, m + 1) < b.concurrency
  {
    hide Consistent, Safe, Legal, State, BitsMatch, Strata, JobsMatch, LocalPlan, Injective, Ascending, Grows, Load,
      AllBuffers, Fresh, Fits;
    b.Facts();
    b.FactsSafe();
    ghost var n := b.net;
    LoadOf(jobs, b.running, m);
    BuffersEnough(b, |jobs|);
    assert Load(b.running, m + 1) < b.concurrency;
    jobs' := PlaceOnServer(b, b.queue[pos], m, jobs);
    b.Facts();
    SendGrows(n, b.net);
    PlanSend(b.queue, b.queued, n, b.net, local, planned, pos);
  }

  lemma LoadOf(jobs: seq<set<nat>>, running: map<nat, Slot>, m: nat)
    requires JobsMatch(jobs, running) && Injective(running) && m < |jobs|
    ensures Load(running, m + 1) == |jobs[m]|
  {
    BuffersCount(running, m + 1);
  }

  lemma BuffersEnough(b: EvalBookkeeping, peers: nat)
    requires StaticConfig(b) && AllBuffers(b) && peers == b.numServers - 1
    ensures Fits(0, peers, b.concurrency, b.buffers)
  {}

  /** Fill the gaps when some jobs are running. */
  method FillGaps(b: EvalBookkeeping, ref: nat, synchLocal: bool)
    returns (pos: nat, ghost placed: seq<Event>, ghost planned: set<nat>)
    requires b.Valid() && StaticConfig(b) && Strata(b.running, b.concurrency) && b.raw == {}
    requires AllBuffers(b) && NotBefore(ref, b.queue) && (synchLocal ==> b.active == {})
    modifies b`trace, b`net, b`running, b`active, b`busy, b`raw
    ensures old(b.trace) <= placed <= b.trace
    ensures b.Valid() && Strata(b.running, b.concurrency) && pos <= |b.queue|
    ensures Chosen(b.queued, old(b.net), State(placed), planned)
    ensures Launched(b, State(placed), b.net, planned, synchLocal)
    ensures AtOwnPeers(b.queue, ref, b.numServers, old(b.net), State(placed), planned, b.concurrency)
  {
    hide Consistent, Safe, Legal, State, BitsMatch, Strata, LocalPlan, AllBuffers, NotBefore, AtOwnPeers, Chosen,
      Launched;
    var local;
    pos, local, planned := PlaceAll(b, ref);
    b.WaitingJobs();
    placed := b.trace;
    LaunchPlan(b, local, planned, pos, synchLocal);
  }

  /** Walk the queue while there may be room: every new job that is passed goes to its own
      peer, or that peer is full. */
  method PlaceAll(b: EvalBookkeeping, ref: nat) returns (pos: nat, local: seq<nat>, ghost planned: set<nat>)
    requires b.Valid() && StaticConfig(b) && Strata(b.running, b.concurrency) && b.raw == {}
    requires AllBuffers(b) && NotBefore(ref, b.queue)
    modifies b`trace, b`net, b`running
    ensures old(b.trace) <= b.trace
    ensures b.Valid() && Strata(b.running, b.concurrency) && pos <= |b.queue|
    ensures LocalPlan(b.queue, b.queued, b.net, local, planned, pos) && Chosen(b.queued, old(b.net), b.net, planned)
    ensures AtOwnPeers(b.queue, ref, b.numServers, old(b.net), b.net, planned, b.concurrency)
  {
    hide Consistent, Safe, Legal, State, BitsMatch, Strata, JobsMatch, LocalPlan, Injective, AllBuffers, NotBefore,
      RemoteCapacity, Handled, Kept, Chosen, Grows, Assigned, PeerFull, Extends, AtOwnPeers;
    b.FactsSafe();
    b.Facts();
    var jobs := CollectServerJobs(b.running, b.numServers - 1);
    var numLocal := |b.active|;
    pos, local, planned := 0, [], {};
    StartPlan(b.queue, b.queued, b.net);
    KeptSelf(b.net);
    NothingHandled(b.queue, ref, b.numServers, b.net, b.concurrency);
    var remoteCapacity := RemoteCapacity(b);
    while pos < |b.queue| && (numLocal < b.concurrency || |b.running| < remoteCapacity)
      invariant old(b.trace) <= b.trace
      invariant b.Valid() && Strata(b.running, b.concurrency) && pos <= |b.queue|
      invariant |jobs| == b.numServers - 1 && JobsMatch(jobs, b.running)
      invariant Kept(old(b.net), b.net)
      invariant LocalPlan(b.queue, b.queued, b.net, local, planned, pos)
      invariant numLocal == |b.active| + |planned| <= b.concurrency
      invariant Handled(b.queue, ref, b.numServers, old(b.net), b.net, planned, b.concurrency, pos)
      decreases |b.queue| - pos
    {
      ghost var n := b.net;
      local, planned, numLocal, jobs := PlaceOne(b, ref, pos, local, planned, numLocal, jobs, old(b.net));
      pos := pos + 1;
      KeptOn(old(b.net), n, b.net);
    }
    PlanChosen(b.queue, b.queued, old(b.net), b.net, local, planned, pos);
    if pos < |b.queue| {
      b.WaitingJobs();
      NoRoomLeft(b, ref, old(b.net), planned, pos);
    }
    HandledAtOwn(b.queue, ref, b.numServers, old(b.net), b.net, planned, b.concurrency);
  }

  /** What was running still is, where it was. */
  ghost predicate Kept(n: Net, n': Net) {
    && n'.done == n.done && n'.local == n.local
    && forall k | k in n.remote :: k in n'.remote && n'.remote[k] == n.remote[k]
  }

  lemma KeptSelf(n: Net)
    ensures Kept(n, n)
  {}

  lemma KeptOn(n: Net, n': Net, n'': Net)
    requires Kept(n, n') && Kept(n', n'')
    ensures Kept(n, n'')
  {}

  lemma PlanChosen(queue: seq<nat>, queued: set<nat>, before: Net, n: Net, local: seq<nat>, planned: set<nat>, pos: nat)
    requires LocalPlan(queue, queued, n, local, planned, pos) && Kept(before, n)
    ensures Chosen(queued, before, n, planned)
  {
    forall j | j in planned ensures j in queued && Fresh(before, j) && Fresh(n, j) {
      assert j in local;
      var q :| 0 <= q < |local| && local[q] == j;
    }
  }

  /** In their strata no more jobs run than there are places. */
  lemma StrataBound(b: EvalBookkeeping)
    requires b.Valid() && StaticConfig(b) && Strata(b.running, b.concurrency)
    ensures |b.running| <= RemoteCapacity(b) && forall s | 1 <= s < b.numServers :: Load(b.running, s) <= b.concurrency
  {
    hide Legal, State, BitsMatch, Consistent, Strata;
    b.FactsSafe();
    var k, c := b.numServers - 1, b.concurrency;
    forall s | 1 <= s < b.numServers ensures Load(b.running, s) <= c { StratumLoad(b.running, s, c); }
    AtMostFull(b.running, k, c);
    assert Upto(b.running, k) == b.running.Keys;
  }

  /** When all places are taken every peer is full. */
  lemma AllPeersFull(b: EvalBookkeeping, planned: set<nat>, s: nat)
    requires b.Valid() && StaticConfig(b) && Strata(b.running, b.concurrency) && s < b.numServers
    requires |b.running| >= RemoteCapacity(b) && |b.active| + |planned| >= b.concurrency
    ensures PeerFull(s, b.net, planned, b.concurrency)
  {
    hide Legal, State, BitsMatch, Consistent, Strata, Safe;
    b.FactsSafe();
    b.WaitingJobs();
    b.Facts();
    if s != 0 {
      StrataBound(b);
      assert Upto(b.running, b.numServers - 1) == b.running.Keys;
      AllFull(b.running, b.numServers - 1, b.concurrency, s);
    }
  }

  /** The jobs that were not looked at have no room either. */
  lemma NoRoomLeft(b: EvalBookkeeping, ref: nat, before: Net, planned: set<nat>, pos: nat)
    requires b.Valid() && StaticConfig(b) && Strata(b.running, b.concurrency) && pos <= |b.queue|
    requires Handled(b.queue, ref, b.numServers, before, b.net, planned, b.concurrency, pos)
    requires |b.running| >= RemoteCapacity(b) && |b.active| + |planned| >= b.concurrency
    ensures Handled(b.queue, ref, b.numServers, before, b.net, planned, b.concurrency, |b.queue|)
  {
    hide EvalBookkeeping.Valid, Strata, StaticServer, PeerFull;
    forall p | pos <= p < |b.queue| && b.queue[p] !in before.remote
      ensures Assigned(b.queue[p], StaticServer(b.queue[p], ref, b.numServers), b.net, planned, b.concurrency)
    {
      AllPeersFull(b, planned, StaticServer(b.queue[p], ref, b.numServers));
    }
  }

  /** When the scheduler has nothing to place, every job is placed or every peer is full. */
  lemma NothingToPlace(b: EvalBookkeeping, ref: nat)
    requires b.Valid() && StaticConfig(b) && Strata(b.running, b.concurrency) && b.raw == {} && NotBefore(ref, b.queue)
    requires |b.queue| == |b.running| + |b.active| || |b.running| + |b.active| >= TotalCapacity(b)
    ensures AtOwnPeers(b.queue, ref, b.numServers, b.net, b.net, {}, b.concurrency)
  {
    hide Consistent, Safe, Legal, State, BitsMatch, Strata, StaticServer, PeerFull;
    b.Facts();
    NothingHandled(b.queue, ref, b.numServers, b.net, b.concurrency);
    if |b.queue| == |b.running| + |b.active| {
      b.AllAssigned();
      forall p | 0 <= p < |b.queue| ensures b.queue[p] in b.net.remote || b.queue[p] in b.net.local {
        b.QueuedAt(p);
      }
    } else {
      StrataBound(b);
      Whole(b.numServers, b.concurrency);
      NoRoomLeft(b, ref, b.net, {}, 0);
    }
    HandledAtOwn(b.queue, ref, b.numServers, b.net, b.net, {}, b.concurrency);
  }

  method LaunchPlan(b: EvalBookkeeping, local: seq<nat>, ghost planned: set<nat>, ghost pos: nat, synchLocal: bool)
    requires b.Valid() && LocalPlan(b.queue, b.queued, b.net, local, planned, pos) && (synchLocal ==> b.active == {})
    modifies b`trace, b`net, b`active, b`busy, b`raw
    ensures old(b.trace) <= b.trace
    ensures b.Valid() && Launched(b, old(b.net), b.net, planned, synchLocal)
  {
    hide EvalBookkeeping.Valid, State, LocalPlan, Lists, Ascending, Launched, Served, EvalBookkeeping.OneEach, Locally;
    b.WaitingJobs();
    ghost var n := b.net;
    PlanFacts(b.queue, b.queued, b.net, local, planned, pos);
    if synchLocal {
      ghost var jobs := IdsOf(local);
      PlanIsAll(b.queue, b.queued, n, local, planned, pos, jobs);
      SynchronousLocalEvaluations(b, local, jobs);
      b.WaitingJobs();
      ShareEvaluated(b, n, b.net, planned);
    } else {
      ghost var log := b.trace;
      var launched := AssignAsynchLocalQueueNowait(b, local);
      LocallyExtends(log, b.trace);
      b.WaitingJobs();
      PlanLists(b.queue, b.queued, n, local, planned, pos, b.active);
      JobsLaunched(b, n, local, planned);
    }
  }

  lemma PlanIsAll(queue: seq<nat>, queued: set<nat>, n: Net, local: seq<nat>, planned: set<nat>, pos: nat,
      jobs: set<nat>)
    requires LocalPlan(queue, queued, n, local, planned, pos) && n.local == {} && Lists(local, jobs)
    requires forall j | j in jobs :: j in local
    ensures jobs == planned && AllFresh(jobs, n) && jobs <= queued
  {
    forall j | j in jobs ensures j in planned && Fresh(n, j) && j in queued {
      var q :| 0 <= q < |local| && local[q] == j;
    }
    forall j | j in planned ensures j in jobs {
      var q :| 0 <= q < |local| && local[q] == j;
    }
  }

  /** The jobs a poll of this scheduler looks at. */
  function Polled(n: Net, synchLocal: bool): set<nat> {
    n.remote.Keys + (if synchLocal then {} else n.local)
  }

  /** What a call does: it places the new jobs, evaluates or launches those of the scheduling
      processor, and then returns exactly the polled jobs that are ready. */
  ghost predicate StaticCall(b: EvalBookkeeping, queue: seq<nat>, queued: set<nat>, ref: nat, before: Net, placed: Net,
      mid: Net, after: Net, planned: set<nat>, synchLocal: bool, ready: set<nat>)
  {
    && PlacedCall(b, queue, queued, ref, before, placed, mid, planned, synchLocal)
    && Took(mid.done, after.done, ready, Polled(mid, synchLocal)) && Grows(mid, after)
  }

  /** peer_static_schedule_evaluations_nowait, with blocking or nonblocking local
      evaluations, where the two buffer numberings agree: the strata and the protocol are
      kept over every sequence of calls, the abort for want of a buffer is not reached, every
      new job goes to its own peer or finds it full, and what comes back are the ready jobs
      and, with blocking evaluations, the local share of this call. */
  method PeerStaticNowaitSchedule(b: EvalBookkeeping, lastRef: nat, synchLocal: bool, ready: set<nat>)
    returns (ref: nat, ghost placed: seq<Event>, ghost mid: seq<Event>, ghost planned: set<nat>)
    requires b.Valid() && StaticConfig(b) && Strata(b.running, b.concurrency) && b.raw == {} && b.queue != []
    requires b.buffers == 0 || AllBuffers(b)
    requires |b.running| + |b.active| != 0 ==> NotBefore(lastRef, b.queue)
    requires synchLocal ==> b.active == {}
    modifies b`trace, b`net, b`running, b`active, b`busy, b`raw, b`buffers
    ensures old(b.trace) <= placed <= mid && Reuses(mid, b.trace)
    ensures b.Valid() && Strata(b.running, b.concurrency) && NotBefore(ref, b.queue)
    ensures if b.running == map[] then b.buffers == 0 else AllBuffers(b)
    ensures b.raw == b.net.done - old(b.net.done) && (synchLocal ==> b.active == {})
    ensures |b.active| <= b.concurrency && |b.running| <= (b.numServers - 1) * b.concurrency
    ensures StaticCall(b, b.queue, b.queued, ref, old(b.net), State(placed), State(mid), b.net, planned, synchLocal,
            ready)
    ensures StaticReports(b.raw, ready, old(b.running).Keys + old(b.active), planned, synchLocal)
    ensures ref == (if |old(b.running)| + |old(b.active)| == 0 then b.queue[0] else lastRef)
  {
    hide EvalBookkeeping.Valid, Strata, AllBuffers, StaticCall, StaticReports, NotBefore, RemoteCapacity, PlacedCall,
      StaticConfig, State;
    b.NothingDoneQueued();
    b.WaitingJobs();
    if b.buffers == 0 { MakeBuffers(b); }
    var pos;
    ref, pos, placed, planned := PlaceAndLaunch(b, lastRef, synchLocal);
    b.WaitingJobs();
    mid := b.trace;
    PollJobs(b, pos, synchLocal, ready, old(b.net), State(placed), planned, ref);
    StrataBound(b);
    Bounds(b);
    if b.running == map[] { b.Release(); }
  }

  /** Every waiting job that is ready comes back; beyond ready jobs only the local share that
      was evaluated in the call does, and all of it. */
  ghost predicate StaticReports(raw: set<nat>, ready: set<nat>, waiting: set<nat>, planned: set<nat>, synchLocal: bool)
  {
    var share := if synchLocal then planned else {};
    ready * waiting + share <= raw <= ready + share
  }

  lemma Bounds(b: EvalBookkeeping)
    requires b.Valid() && StaticConfig(b)
    ensures |b.active| <= b.concurrency && RemoteCapacity(b) == (b.numServers - 1) * b.concurrency
  {}

  /** Step 1: place new jobs and start the local ones. */
  method PlaceAndLaunch(b: EvalBookkeeping, lastRef: nat, synchLocal: bool)
    returns (ref: nat, pos: nat, ghost placed: seq<Event>, ghost planned: set<nat>)
    requires b.Valid() && StaticConfig(b) && Strata(b.running, b.concurrency) && b.raw == {} && b.queue != []
    requires AllBuffers(b)
    requires |b.running| + |b.active| != 0 ==> NotBefore(lastRef, b.queue)
    requires synchLocal ==> b.active == {}
    modifies b`trace, b`net, b`running, b`active, b`busy, b`raw
    ensures old(b.trace) <= placed <= b.trace
    ensures b.Valid() && Strata(b.running, b.concurrency) && NotBefore(ref, b.queue) && pos <= |b.queue|
    ensures PlacedCall(b, b.queue, b.queued, ref, old(b.net), State(placed), b.net, planned, synchLocal)
    ensures ref == (if |old(b.running)| + |old(b.active)| == 0 then b.queue[0] else lastRef)
  {
    hide Consistent, Safe, Legal, State, BitsMatch, Strata, AllBuffers, Chosen, Launched, FirstChosen, AtOwnPeers,
      NotBefore, Min;
    b.WaitingJobs();
    var numRunning := |b.running| + |b.active|;
    pos, ref, placed, planned := 0, lastRef, b.trace, {};
    if numRunning == 0 {
      NoneRunning(b);
      ref := b.queue[0];
      FirstIsLeast(b);
      pos, placed, planned := FirstPass(b, synchLocal);
      MinBelow(TotalCapacity(b), |b.queue|);
    } else if |b.queue| - numRunning != 0 && numRunning < TotalCapacity(b) {
      pos, placed, planned := FillGaps(b, ref, synchLocal);
    } else {
      NothingToPlace(b, ref);
      NothingChosen(b, b.queued, b.net, synchLocal);
    }
  }

  lemma MinBelow(a: nat, b: nat)
    ensures Min(a, b) <= b
  {}

  lemma NothingChosen(b: EvalBookkeeping, queued: set<nat>, n: Net, synchLocal: bool)
    ensures Chosen(queued, n, n, {}) && Launched(b, n, n, {}, synchLocal)
  {}

  /** The first half of a call. */
  ghost predicate PlacedCall(b: EvalBookkeeping, queue: seq<nat>, queued: set<nat>, ref: nat, before: Net, placed: Net,
      mid: Net, planned: set<nat>, synchLocal: bool)
  {
    && 0 < b.numServers
    && Chosen(queued, before, placed, planned) && Launched(b, placed, mid, planned, synchLocal)
    && (if before.remote.Keys + before.local == {}
        then FirstChosen(queue, placed, planned, b.numServers, b.concurrency,
          Min(b.numServers * b.concurrency, |queue|))
        else AtOwnPeers(queue, ref, b.numServers, before, placed, planned, b.concurrency))
  }

  function RemoteCapacity(b: EvalBookkeeping): nat
    requires 1 <= b.numServers
  {
    (b.numServers - 1) * b.concurrency
  }

  method MakeBuffers(b: EvalBookkeeping)
    requires b.Valid() && StaticConfig(b) && b.buffers == 0
    modifies b`buffers
    ensures b.Valid() && AllBuffers(b)
  {
    b.Allocate(RemoteCapacity(b));
  }

  lemma FirstIsLeast(b: EvalBookkeeping)
    requires b.Valid() && b.queue != []
    ensures NotBefore(b.queue[0], b.queue)
  {}

  /** Step 2: test the running jobs once and backfill. */
  method PollJobs(b: EvalBookkeeping, start: nat, synchLocal: bool, ready: set<nat>, ghost before: Net,
      ghost placed: Net, ghost planned: set<nat>, ghost ref: nat)
    requires b.Valid() && StaticConfig(b) && Strata(b.running, b.concurrency) && start <= |b.queue|
    requires PlacedCall(b, b.queue, b.queued, ref, before, placed, b.net, planned, synchLocal)
    requires before.done !! b.queued && before.remote.Keys !! before.done && before.local !! before.done
    requires synchLocal ==> before.local == {}
    modifies b`trace, b`net, b`running, b`active, b`busy, b`raw
    ensures b.Valid() && Strata(b.running, b.concurrency) && (synchLocal ==> b.active == {})
    ensures Reuses(old(b.trace), b.trace)
    ensures StaticCall(b, b.queue, b.queued, ref, before, placed, old(b.net), b.net, planned, synchLocal, ready)
    ensures b.raw == b.net.done - before.done
    ensures StaticReports(b.raw, ready, before.remote.Keys + before.local, planned, synchLocal)
  {
    hide Consistent, Safe, Legal, State, BitsMatch, Strata, Grows, PlacedCall, Took, Polled;
    ghost var mid := b.net;
    NoLocalLeft(b, b.queue, b.queued, ref, before, placed, mid, planned, synchLocal);
    Poll(b, start, synchLocal, ready);
    CallReports(b, before, placed, mid, planned, synchLocal, ready, ref);
    b.NewResults(before.done);
  }

  lemma NoLocalLeft(b: EvalBookkeeping, queue: seq<nat>, queued: set<nat>, ref: nat, before: Net, placed: Net,
      mid: Net, planned: set<nat>, synchLocal: bool)
    requires PlacedCall(b, queue, queued, ref, before, placed, mid, planned, synchLocal)
    requires synchLocal ==> before.local == {}
    ensures synchLocal ==> mid.local == {}
  {}

  lemma CallReports(b: EvalBookkeeping, before: Net, placed: Net, mid: Net, planned: set<nat>, synchLocal: bool,
      ready: set<nat>, ref: nat)
    requires PlacedCall(b, b.queue, b.queued, ref, before, placed, mid, planned, synchLocal)
    requires Took(mid.done, b.net.done, ready, Polled(mid, synchLocal)) && Polled(mid, synchLocal) <= b.queued
    requires before.done !! b.queued && before.remote.Keys !! before.done && before.local !! before.done
    requires synchLocal ==> before.local == {}
    ensures before.done <= b.net.done && b.net.done - before.done <= b.queued
    ensures StaticReports(b.net.done - before.done, ready, before.remote.Keys + before.local, planned, synchLocal)
  {
    hide FirstChosen, Handled;
  }

  /** Test the running jobs once and backfill. */
  method Poll(b: EvalBookkeeping, start: nat, synchLocal: bool, ready: set<nat>)
    requires b.Valid() && StaticConfig(b) && Strata(b.running, b.concurrency) && start <= |b.queue|
    requires synchLocal ==> b.net.local == {}
    modifies b`trace, b`net, b`running, b`active, b`busy, b`raw
    ensures b.Valid() && Strata(b.running, b.concurrency) && Grows(old(b.net), b.net) && (synchLocal ==> b.active == {})
    ensures Reuses(old(b.trace), b.trace)
    ensures Took(old(b.net.done), b.net.done, ready, Polled(old(b.net), synchLocal))
    ensures Polled(old(b.net), synchLocal) <= b.queued
  {
    hide Consistent, Safe, Legal, State, BitsMatch, Strata, Grows, Placed, Took;
    b.WaitingJobs();
    b.QueuedSets();
    ghost var n0, remote, local := b.net, b.running.Keys, b.active;
    var pos := PollRemote(b, start, ready);
    ghost var n1, log := b.net, b.trace;
    RelayThenLocal(old(b.trace), log, log);
    if !synchLocal {
      var completed;
      pos, completed := b.TestLocalBackfill(pos, ready);
      RelayThenLocal(old(b.trace), log, b.trace);
      GrowsOn(n0, n1, b.net);
      assert Took(n1.done, b.net.done, ready, local) by { TookThese(n1.done, b.net.done, ready, local); }
      TookBoth(n0.done, n1.done, b.net.done, remote, local, ready);
    }
  }

  lemma TookThese(done: set<nat>, done': set<nat>, ready: set<nat>, waiting: set<nat>)
    requires done' == done + ready * waiting
    ensures Took(done, done', ready, waiting)
  {}
}
