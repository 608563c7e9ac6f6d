/**
  The blocking peer dynamic scheduler.
 */
module PeerDynamic {
  import opened Common
  import opened SlotProtocol
  import opened Bookkeeping
  import opened HomeSlots
  import opened LocalSchedulers
  import opened PeerDeal
  import opened PeerNowait

  ghost predicate RemoteFull(lim: Limits, running: map<nat, Slot>) {
    |running| == lim.servers * lim.load
  }

  /** What has come in since the schedule began. */
  ghost predicate CameIn(before: set<nat>, done: set<nat>, queued: set<nat>, recv: nat) {
    before !! queued && before <= done <= before + queued && recv == |done| - |before|
  }

  /** The head of the scheduling loop: jobs before the shared iterator are running or
      done, and every place on every peer is taken while a job is still pending. */
  ghost predicate LoopHead(b: EvalBookkeeping, pos: nat, recv: nat, before: set<nat>)
    reads b
  {
    && b.Valid() && PeerConfig(b) && AtHome(b.running, b.limits.servers)
    && pos <= |b.queue| && Placed(b.queue, b.net, 0, pos)
    && (pos < |b.queue| ==> RemoteFull(b.limits, b.running) && |b.active| == b.concurrency)
    && CameIn(before, b.net.done, b.queued, recv)
  }

  /** Something is running whenever a result is missing. */
  lemma SomethingRuns(b: EvalBookkeeping, pos: nat, recv: nat, before: set<nat>)
    requires LoopHead(b, pos, recv, before) && recv < |b.queue|
    ensures b.running.Keys + b.active != {}
  {
    hide Safe, Legal, State, BitsMatch, AtHome, RemoteFull;
    b.Facts();
    if b.running.Keys + b.active == {} {
      forall j | j in b.queued ensures j in b.net.done {
        if forall p | 0 <= p < |b.queue| :: b.queue[p] != j {
          NotListed(b.queue, b.queued, j);
        }
      }
      assert |before + b.queued| == |before| + |b.queued|;
      SubsetSize(before + b.queued, b.net.done);
    }
  }

  lemma NoMoreThanAll(before: set<nat>, done: set<nat>, queued: set<nat>, recv: nat)
    requires CameIn(before, done, queued, recv)
    ensures recv <= |queued| && (recv == |queued| ==> done == before + queued)
  {
    assert |before + queued| == |before| + |queued|;
    SubsetSize(done, before + queued);
    if recv == |queued| { SameSize(done, before + queued); }
  }

  /** When as many results as jobs came in, every job is done. */
  lemma AllIn(b: EvalBookkeeping, pos: nat, recv: nat, before: set<nat>)
    requires LoopHead(b, pos, recv, before) && recv >= |b.queue|
    ensures recv == |b.queue| && b.net.done == before + b.queued && b.running == map[] && b.active == {}
  {
    hide Safe, Legal, State, BitsMatch, AtHome, RemoteFull;
    b.Facts();
    NoMoreThanAll(before, b.net.done, b.queued, recv);
    assert b.running.Keys == {};
  }

  /** While a job is pending every place on every peer is taken. */
  ghost predicate AllTaken(queue: seq<nat>, n: Net, peers: nat, c: nat) {
    (exists p :: 0 <= p < |queue| && Fresh(n, queue[p])) ==> |n.remote| == (peers - 1) * c && |n.local| == c
  }

  lemma HeadTaken(b: EvalBookkeeping, pos: nat, recv: nat, before: set<nat>)
    requires LoopHead(b, pos, recv, before)
    ensures AllTaken(b.queue, State(b.trace), b.numServers, b.concurrency)
  {
    hide Consistent, Safe, Legal, State, BitsMatch, AtHome, CameIn;
    b.WaitingJobs();
    b.Facts();
  }

  /** The first pass: the jobs are dealt out to the peers in turn, and those of the scheduling
      processor are launched. */
  ghost predicate DealtAndLaunched(queue: seq<nat>, n: Net, peers: nat, c: nat) {
    var count := if peers * c <= |queue| then peers * c else |queue|;
    && DealtOver(queue, n.remote, count, peers)
    && forall p | 0 <= p < count && (p + 1) % peers == 0 :: queue[p] in n.local
  }

  /** First pass: deal the jobs and launch the local share. */
  method FirstPass(b: EvalBookkeeping) returns (pos: nat)
    requires b.Valid() && PeerConfig(b) && b.running == map[] && b.active == {} && b.raw == {} && b.buffers == 0
    modifies b`trace, b`net, b`running, b`active, b`busy, b`buffers
    ensures old(b.trace) <= b.trace
    ensures DealtAndLaunched(b.queue, State(b.trace), b.numServers, b.concurrency)
    ensures LoopHead(b, pos, 0, b.net.done) && b.net.done == old(b.net.done) && b.raw == {}
  {
    hide Consistent, Safe, Legal, State, BitsMatch, BuffersFor, Sends, Dealing, AtHome, Placed, RemoteFull, DealtTo,
      DealtOver, DealtAndLaunched;
    b.AllQueuedFresh();
    b.NothingDoneQueued();
    var total := b.numServers * b.concurrency;
    var count := if total <= |b.queue| then total else |b.queue|;
    PlacesFor(b, count);
    b.Allocate(Sends(count, b.numServers));
    var local := Deal(b, count);
    ghost var jobs := LocalShare(b, local, count);
    b.Facts();
    DealtOverall(b.queue, b.net, local, jobs, count, b.numServers);
    ghost var n := b.net;
    LaunchShare(b, local, jobs, count);
    b.WaitingJobs();
    ShareLaunched(b.queue, n, b.net, local, count, b.numServers, b.concurrency);
    pos := count;
    StartHead(b, count, old(b.net.done));
  }

  lemma ShareLaunched(queue: seq<nat>, n: Net, n': Net, local: seq<nat>, count: nat, peers: nat, c: nat)
    requires DealtOver(queue, n.remote, count, peers) && n'.remote == n.remote && forall j | j in local :: j in n'.local
    requires 0 < peers && count <= |queue| && forall p | 0 <= p < count :: DealtTo(queue[p], p, n.remote, local, peers)
    requires count == if peers * c <= |queue| then peers * c else |queue|
    ensures DealtAndLaunched(queue, n', peers, c)
  {
    hide DealtOver;
  }

  lemma StartHead(b: EvalBookkeeping, count: nat, before: set<nat>)
    requires b.Valid() && PeerConfig(b) && count <= |b.queue| && Placed(b.queue, b.net, 0, count)
    requires AtHome(b.running, b.limits.servers) && b.net.done == before && before !! b.queued
    requires |b.running| == Sends(count, b.numServers) && |b.active| == count / b.numServers
    requires count < |b.queue| ==> count == b.numServers * b.concurrency
    ensures LoopHead(b, count, 0, before)
  {
    hide Consistent, Safe, Legal, State, BitsMatch, AtHome, Placed, Sends;
    if count < |b.queue| { PlacesFor(b, count); }
  }

  lemma PlacesFor(b: EvalBookkeeping, count: nat)
    requires PeerConfig(b) && count <= b.numServers * b.concurrency
    ensures count / b.numServers <= b.concurrency
    ensures BuffersFor(b.limits, Sends(count, b.numServers), Sends(count, b.numServers))
    ensures count == b.numServers * b.concurrency ==> count / b.numServers == b.concurrency
    ensures count == b.numServers * b.concurrency ==> Sends(count, b.numServers) == b.limits.servers * b.limits.load
  {
    var n, c := b.numServers, b.concurrency;
    FullDeal(n, c);
    SendsMonotone(count, n * c, n);
    QuotientMonotone(count, n * c, n);
  }

  method LaunchShare(b: EvalBookkeeping, local: seq<nat>, ghost jobs: set<nat>, ghost count: nat)
    requires b.Valid() && PeerConfig(b) && b.active == {} && |local| <= b.concurrency
    requires Ascending(local) && Lists(local, jobs) && jobs <= b.queued && AllFresh(jobs, b.net)
    requires count <= |b.queue| && forall p | 0 <= p < count :: DealtTo(b.queue[p], p, b.running, local, b.numServers)
    modifies b`trace, b`net, b`active, b`busy
    ensures old(b.trace) <= b.trace
    ensures b.Valid() && b.net.done == old(b.net.done) && |b.active| == |local|
    ensures b.net.remote == old(b.net.remote) && forall j | j in local :: j in b.net.local
    ensures Placed(b.queue, b.net, 0, count)
  {
    hide Consistent, Safe, Legal, State, BitsMatch, Lists, AllFresh, Ascending, Placed, DealtTo, Locally, Served,
      FirstOf, Consecutive, EvalBookkeeping.OneEach;
    b.Facts();
    ghost var n, log := b.net, b.trace;
    var launched := AssignAsynchLocalQueue(b, local, jobs);
    LocallyExtends(log, b.trace);
    b.Facts();
    StartedLocally(local, jobs, n, b.net);
    PlacedByDeal(b.queue, b.net, local, count, b.numServers);
  }

  lemma StartedLocally(local: seq<nat>, jobs: set<nat>, n: Net, n': Net)
    requires Lists(local, jobs) && AllFresh(jobs, n) && n'.done == n.done && n'.remote == n.remote
    requires Started(local, |local|, n')
    ensures forall j | j in local :: j in n'.local
  {}

  /** What one round of the loop finds: the remote and the local jobs whose results are in. */
  datatype Poll = Poll(remote: set<nat>, local: set<nat>)

  /** Every job completes at once. */
  predicate Prompt(poll: Poll, queued: set<nat>) {
    queued <= poll.remote && queued <= poll.local
  }

  /** The running jobs a poll finds complete. */
  function Found(poll: Poll, n: Net): set<nat> {
    poll.remote * n.remote.Keys + poll.local * n.local
  }

  /** One round brings in exactly what its poll finds, and loses nothing. */
  ghost predicate RoundStep(n: Net, n': Net, poll: Poll) {
    n'.done == n.done + Found(poll, n) && Found(poll, n) !! n.done && Grows(n, n')
  }

  /** One round of the loop: for whatever jobs are complete, exactly their results come in. */
  method Round(b: EvalBookkeeping, start: nat, recv: nat, poll: Poll, ghost before: set<nat>)
    returns (pos: nat, recv': nat)
    requires LoopHead(b, start, recv, before)
    modifies b`trace, b`net, b`running, b`active, b`busy, b`raw
    ensures LoopHead(b, pos, recv', before) && RoundStep(old(b.net), b.net, poll) && Reuses(old(b.trace), b.trace)
    ensures recv' == recv + |poll.remote * old(b.running).Keys| + |poll.local * old(b.active)|
  {
    hide EvalBookkeeping.Valid, AtHome, Placed, Grows, RemoteFull, Took, RoundStep, Found, CameIn, Relays, Locally,
      Reuses;
    b.WaitingJobs();
    ghost var n0, slots, busy := b.net, b.running.Keys, b.active;
    var receives, completed;
    pos, receives := PollServers(b, start, poll.remote);
    PollRemoteEnds(b.queue, n0, b.net, start, pos);
    b.WaitingJobs();
    ghost var n1, log := b.net, b.trace;
    pos, completed := PollLocal(b, pos, poll.local);
    RelayThenLocal(old(b.trace), log, b.trace);
    GrowsOn(n0, n1, b.net);
    BothIn(n0, n1, b.net, poll);
    recv' := recv + receives + completed;
    BothCounted(before, n0.done, n1.done, b.net.done, slots, busy, poll, b.queued, recv, recv');
  }

  lemma BothCounted(before: set<nat>, done: set<nat>, done': set<nat>, done'': set<nat>, slots: set<nat>,
      busy: set<nat>, poll: Poll, queued: set<nat>, recv: nat, recv': nat)
    requires CameIn(before, done, queued, recv) && recv' == recv + |done'| - |done| + |done''| - |done'|
    requires Took(done, done', poll.remote, slots) && slots !! done && slots <= queued
    requires Took(done', done'', poll.local, busy) && busy !! done' && busy <= queued
    ensures CameIn(before, done'', queued, recv') && recv' == recv + |poll.remote * slots| + |poll.local * busy|
  {
    hide Took, CameIn;
    ResultsIn(done, done', slots, poll.remote, queued);
    ResultsIn(done', done'', busy, poll.local, queued);
    MoreIn(before, done, done'', queued, recv, recv');
  }

  lemma ResultsIn(done: set<nat>, done': set<nat>, waiting: set<nat>, ready: set<nat>, queued: set<nat>)
    requires Took(done, done', ready, waiting) && waiting !! done && waiting <= queued
    ensures done <= done' <= done + queued
    ensures |done'| == |done| + |ready * waiting|
  {
    assert |done + ready * waiting| == |done| + |ready * waiting|;
  }

  lemma MoreIn(before: set<nat>, done: set<nat>, done': set<nat>, queued: set<nat>, recv: nat, recv': nat)
    requires CameIn(before, done, queued, recv) && done <= done' <= done + queued && recv' - recv == |done'| - |done|
    ensures CameIn(before, done', queued, recv')
  {}

  lemma BothIn(n: Net, n': Net, n'': Net, poll: Poll)
    requires Took(n.done, n'.done, poll.remote, n.remote.Keys) && Took(n'.done, n''.done, poll.local, n.local)
    requires n.remote.Keys !! n.done && n.local !! n.done && Grows(n, n'')
    ensures RoundStep(n, n'', poll)
  {}

  /** Test the remote jobs and backfill them: buffers stay with their servers, and a full
      schedule stays full while jobs are pending. */
  method PollServers(b: EvalBookkeeping, start: nat, ready: set<nat>) returns (pos: nat, receives: nat)
    requires b.Valid() && start <= |b.queue| && 0 < b.limits.servers && AtHome(b.running, b.limits.servers)
    modifies b`trace, b`net, b`running, b`raw
    ensures b.Valid() && AtHome(b.running, b.limits.servers) && start <= pos <= |b.queue|
    ensures Relays(old(b.trace), b.trace)
    ensures Placed(b.queue, b.net, start, pos) && Grows(old(b.net), b.net)
    ensures Took(old(b.net.done), b.net.done, ready, old(b.running).Keys) && old(b.running).Keys <= b.queued
    ensures receives == |b.net.done| - |old(b.net.done)|
    ensures pos < |b.queue| && RemoteFull(b.limits, old(b.running)) ==> RemoteFull(b.limits, b.running)
  {
    hide Consistent, Safe, Legal, State, BitsMatch, AtHome, Placed, Grows, Inherits, RemoteFull;
    b.QueuedSets();
    ghost var slots := b.running;
    pos, receives := b.TestReceivesBackfill(start, ready);
    HomeKept(b.running, slots, b.net.done, b.limits.servers);
    StaysFull(b.limits, slots, b.running);
  }

  lemma HomeKept(now: map<nat, Slot>, before: map<nat, Slot>, done: set<nat>, k: nat)
    requires 0 < k && Inherits(now, before, done) && AtHome(before, k)
    ensures AtHome(now, k)
  {
    HomeInherited(now, before, k);
  }

  lemma StaysFull(lim: Limits, before: map<nat, Slot>, now: map<nat, Slot>)
    ensures |now| == |before| && RemoteFull(lim, before) ==> RemoteFull(lim, now)
  {}

  /** A run of the loop: the event logs at its heads, each reached from the one before by a
      round in which something was running and which sends only through slots just freed. */
  ghost predicate Rounds(heads: seq<seq<Event>>, polls: seq<Poll>, queued: set<nat>) {
    && 1 <= |heads| <= |polls| + 1
    && forall i | 0 <= i < |heads| - 1 :: RoundAt(heads, polls, queued, i)
  }

  ghost predicate RoundAt(heads: seq<seq<Event>>, polls: seq<Poll>, queued: set<nat>, i: nat)
    requires i + 1 < |heads| <= |polls| + 1
  {
    var n, n' := State(heads[i]), State(heads[i + 1]);
    Reuses(heads[i], heads[i + 1]) && {} != n.remote.Keys + n.local <= queued && RoundStep(n, n', polls[i])
  }

  /** The poll of a round found something that was running. */
  predicate Hit(heads: seq<seq<Event>>, polls: seq<Poll>, i: nat)
    requires i < |heads| && i < |polls|
  {
    Found(polls[i], State(heads[i])) != {}
  }

  lemma OneMoreRound(heads: seq<seq<Event>>, polls: seq<Poll>, queued: set<nat>, head: seq<Event>)
    requires Rounds(heads, polls, queued) && |heads| <= |polls| && Reuses(heads[|heads|-1], head)
    requires {} != State(heads[|heads|-1]).remote.Keys + State(heads[|heads|-1]).local <= queued
    requires RoundStep(State(heads[|heads|-1]), State(head), polls[|heads|-1])
    ensures Rounds(heads + [head], polls, queued)
  {
    hide RoundStep, State;
    var more := heads + [head];
    forall i | 0 <= i < |more| - 1 ensures RoundAt(more, polls, queued, i) {
      if i < |heads| - 1 { assert RoundAt(heads, polls, queued, i); }
    }
  }

  /** Every round that hits something brings at least one result. */
  lemma {:induction false} HitsCount(heads: seq<seq<Event>>, polls: seq<Poll>, queued: set<nat>, k: nat)
    requires Rounds(heads, polls, queued) && k < |heads| && forall i | 0 <= i < k :: Hit(heads, polls, i)
    ensures |State(heads[k]).done| >= |State(heads[0]).done| + k
  {
    hide RoundStep, Found, State;
    if k > 0 {
      HitsCount(heads, polls, queued, k - 1);
      assert RoundAt(heads, polls, queued, k - 1) && Hit(heads, polls, k - 1);
      HitCounts(State(heads[k-1]), State(heads[k]), polls[k-1]);
    }
  }

  lemma HitCounts(n: Net, n': Net, poll: Poll)
    requires RoundStep(n, n', poll) && Found(poll, n) != {}
    ensures |n'.done| > |n.done|
  {
    var found := Found(poll, n);
    assert |n.done + found| == |n.done| + |found|;
    assert |found| > 0;
  }

  /** Polls that find everything complete hit something in every round. */
  lemma PromptHits(heads: seq<seq<Event>>, polls: seq<Poll>, queued: set<nat>, i: nat)
    requires Rounds(heads, polls, queued) && i + 1 < |heads| && Prompt(polls[i], queued)
    ensures Hit(heads, polls, i)
  {
    hide State;
    assert RoundAt(heads, polls, queued, i);
    var n := State(heads[i]);
    assert Found(polls[i], n) == n.remote.Keys + n.local;
  }

  /** The scheduling loop.  `heads` are the event logs at the loop heads. */
  method Loop(b: EvalBookkeeping, start: nat, polls: seq<Poll>)
    returns (finished: bool, pos: nat, recv: nat, ghost heads: seq<seq<Event>>)
    requires LoopHead(b, start, 0, b.net.done)
    modifies b`trace, b`net, b`running, b`active, b`busy, b`raw
    ensures LoopHead(b, pos, recv, old(b.net.done)) && old(b.trace) <= b.trace
    ensures if finished then recv == |b.queue|
            else recv < |b.queue| && b.running.Keys + b.active != {} && |heads| == |polls| + 1
    ensures Rounds(heads, polls, b.queued) && heads[0] == old(b.trace) && heads[|heads|-1] == b.trace
    ensures forall i | 0 <= i < |heads| :: AllTaken(b.queue, State(heads[i]), b.numServers, b.concurrency)
    ensures |polls| >= |b.queue| && (forall i | 0 <= i < |heads| - 1 :: Hit(heads, polls, i)) ==> finished
  {
    hide LoopHead, Rounds, RoundStep, Hit, State, AllTaken;
    ghost var before := b.net.done;
    HeadFacts(b, start, 0, before);
    recv, pos, heads := 0, start, [b.trace];
    HeadTaken(b, start, 0, before);
    NoRounds(heads, polls, b.queued);
    var i := 0;
    while recv < |b.queue| && i < |polls|
      invariant i <= |polls| && LoopHead(b, pos, recv, before) && old(b.trace) <= b.trace
      invariant |heads| == i + 1 && heads[0] == old(b.trace) && heads[i] == b.trace && Rounds(heads, polls, b.queued)
      invariant forall k | 0 <= k <= i :: AllTaken(b.queue, State(heads[k]), b.numServers, b.concurrency)
      decreases |polls| - i
    {
      SomethingRuns(b, pos, recv, before);
      HeadFacts(b, pos, recv, before);
      pos, recv := Round(b, pos, recv, polls[i], before);
      HeadFacts(b, pos, recv, before);
      HeadTaken(b, pos, recv, before);
      OneMoreRound(heads, polls, b.queued, b.trace);
      heads := heads + [b.trace];
      i := i + 1;
    }
    finished := recv >= |b.queue|;
    if finished {
      AllIn(b, pos, recv, before);
    } else {
      SomethingRuns(b, pos, recv, before);
      AllHit(b, pos, recv, before, heads, polls);
    }
  }

  /** As many rounds as jobs that each hit something leave no result missing. */
  lemma AllHit(b: EvalBookkeeping, pos: nat, recv: nat, before: set<nat>, heads: seq<seq<Event>>, polls: seq<Poll>)
    requires LoopHead(b, pos, recv, before) && Rounds(heads, polls, b.queued) && |heads| == |polls| + 1
    requires State(heads[0]).done == before && heads[|heads|-1] == b.trace && recv < |b.queue|
    ensures |polls| >= |b.queue| ==> exists i :: 0 <= i < |heads| - 1 && !Hit(heads, polls, i)
  {
    hide LoopHead, Rounds, Hit, State;
    HeadFacts(b, pos, recv, before);
    if forall k | 0 <= k < |heads| - 1 :: Hit(heads, polls, k) {
      HitsCount(heads, polls, b.queued, |heads| - 1);
    }
  }

  lemma NoRounds(heads: seq<seq<Event>>, polls: seq<Poll>, queued: set<nat>)
    requires |heads| == 1
    ensures Rounds(heads, polls, queued)
  {}

  lemma HeadFacts(b: EvalBookkeeping, pos: nat, recv: nat, before: set<nat>)
    requires LoopHead(b, pos, recv, before)
    ensures b.net.remote.Keys == b.running.Keys && b.net.local == b.active && b.running.Keys + b.active <= b.queued
    ensures recv == |b.net.done| - |before| && b.net == State(b.trace)
  {}

  /** peer_dynamic_schedule_evaluations, for every sequence of polls: each round brings in
      exactly the running jobs its poll finds complete, and when the loop ends each job ran
      exactly once and as many results as jobs came in.  If the polls run out first the loop
      could go on: its invariant holds and something is still running.  As many polls as
      jobs suffice when each finds something that is running. */
  method PeerDynamicSchedule(b: EvalBookkeeping, polls: seq<Poll>)
    returns (finished: bool, pos: nat, recv: nat, ghost heads: seq<seq<Event>>)
    requires b.Valid() && PeerConfig(b) && b.running == map[] && b.active == {} && b.raw == {} && b.buffers == 0
    modifies b`trace, b`net, b`running, b`active, b`busy, b`raw, b`buffers
    ensures old(b.trace) <= b.trace
    ensures finished ==> b.Valid() && recv == |b.queue| && b.net.done == old(b.net.done) + b.queued
    ensures finished ==> b.running == map[] && b.active == {} && b.raw == b.queued && b.buffers == 0
    ensures !finished ==> LoopHead(b, pos, recv, old(b.net.done)) && recv < |b.queue| && b.running.Keys + b.active != {}
    ensures Rounds(heads, polls, b.queued) && heads[|heads|-1] == b.trace
    ensures old(b.trace) <= heads[0] && State(heads[0]).done == old(b.net.done)
    ensures !finished ==> |heads| == |polls| + 1
    ensures DealtAndLaunched(b.queue, State(heads[0]), b.numServers, b.concurrency)
    ensures forall i | 0 <= i < |heads| :: AllTaken(b.queue, State(heads[i]), b.numServers, b.concurrency)
    ensures |polls| >= |b.queue| && (forall i | 0 <= i < |heads| - 1 :: Hit(heads, polls, i)) ==> finished
    ensures |polls| >= |b.queue| && (forall i | 0 <= i < |polls| :: Prompt(polls[i], b.queued)) ==> finished
  {
    hide *;
    ghost var before := b.net.done;
    pos := FirstPass(b);
    HeadFacts(b, pos, 0, before);
    finished, pos, recv, heads := Loop(b, pos, polls);
    PromptSuffices(heads, polls, b.queued);
    if finished {
      AllIn(b, pos, recv, before);
      ResultsFiled(b, pos, recv, before);
      b.Release();
    }
  }

  lemma PromptSuffices(heads: seq<seq<Event>>, polls: seq<Poll>, queued: set<nat>)
    requires Rounds(heads, polls, queued)
    ensures 1 <= |heads| <= |polls| + 1
    ensures (forall i | 0 <= i < |polls| :: Prompt(polls[i], queued)) ==>
              forall i | 0 <= i < |heads| - 1 :: Hit(heads, polls, i)
  {
    hide Rounds, Prompt, Hit;
    RoundsLength(heads, polls, queued);
    if forall i | 0 <= i < |polls| :: Prompt(polls[i], queued) {
      forall i | 0 <= i < |heads| - 1 ensures Hit(heads, polls, i) {
        PromptHits(heads, polls, queued, i);
      }
    }
  }

  lemma RoundsLength(heads: seq<seq<Event>>, polls: seq<Poll>, queued: set<nat>)
    requires Rounds(heads, polls, queued)
    ensures 1 <= |heads| <= |polls| + 1
  {}

  lemma ResultsFiled(b: EvalBookkeeping, pos: nat, recv: nat, before: set<nat>)
    requires LoopHead(b, pos, recv, before) && b.net.done == before + b.queued
    ensures b.raw == b.queued && b.Valid()
  {}
}
