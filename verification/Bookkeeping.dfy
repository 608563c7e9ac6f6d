/**
  The bookkeeping shared by the evaluation schedulers of ApplicationInterface: the
  queue of jobs, the map of remotely running jobs, the active local jobs, the jobs
  whose results are in, and the operations that move a job between them.

  Results arrive from outside, so every test of a request and every poll of the
  local jobs is a nondeterministic choice: what is proved holds for all of them.
 */
module Bookkeeping {
  import opened Common
  import opened SlotProtocol

  /** A PRPQueue is ordered by a unique, positive evaluation id. */
  ghost predicate Ascending(q: seq<nat>) {
    && (forall i | 0 <= i < |q| :: 0 < q[i])
    && (forall i, j | 0 <= i < j < |q| :: q[i] < q[j])
  }

  /** The ids of a queue.  Queue ids are distinct, so equal sizes mean that nothing
      else is in the set. */
  ghost predicate Lists(q: seq<nat>, ids: set<nat>) {
    (forall i | 0 <= i < |q| :: q[i] in ids) && |q| == |ids|
  }

  lemma QueuedIds(q: seq<nat>, ids: set<nat>, pos: nat)
    requires Lists(q, ids) && pos < |q|
    ensures q[pos] in ids
  {}

  /** The results at hand are those of the queued jobs that are done. */
  ghost predicate Recorded(raw: set<nat>, done: set<nat>, queued: set<nat>) {
    raw <= queued && (forall j | j in queued :: j in raw <==> j in done)
  }

  ghost predicate Added(now: set<nat>, before: set<nat>, removals: map<nat, nat>) {
    now == before + removals.Keys && before !! removals.Keys
  }

  lemma AddedMore(now: set<nat>, before: set<nat>, removals: map<nat, nat>, id: nat)
    requires Added(now, before, removals) && id !in now
    ensures Added(now + {id}, before, removals[id := 0]) && |removals[id := 0]| == |removals| + 1
  {
    assert removals[id := 0].Keys == removals.Keys + {id};
  }

  lemma AddedSame(now: set<nat>, before: set<nat>, removals: map<nat, nat>, id: nat, next: nat)
    requires Added(now, before, removals) && id in removals
    ensures Added(now, before, removals[id := next]) && |removals[id := next]| == |removals|
    ensures removals[id := next].Keys == removals.Keys
  {
    assert removals[id := next].Keys == removals.Keys;
  }

  lemma RecordedMore(raw: set<nat>, done: set<nat>, queued: set<nat>, id: nat)
    requires Recorded(raw, done, queued) && id in queued
    ensures Recorded(raw + {id}, done + {id}, queued)
  {}

  ghost predicate Within(remote: map<nat, Slot>, buffers: nat) {
    forall j | j in remote :: remote[j].buffer < buffers
  }

  lemma WithinInherited(now: map<nat, Slot>, stale: map<nat, Slot>, buffers: nat)
    requires now.Values <= stale.Values && Within(stale, buffers)
    ensures Within(now, buffers)
  {
    forall j | j in now ensures now[j].buffer < buffers {
      assert now[j] in now.Values;
    }
  }

  /** The queue, the running map, the active jobs and the results agree with the true
      state of the network. */
  ghost predicate Consistent(queue: seq<nat>, queued: set<nat>, n: Net, raw: set<nat>, active: set<nat>,
      running: map<nat, Slot>, buffers: nat)
  {
    && Ascending(queue) && Lists(queue, queued)
    && n.remote == running && n.local == active
    && running.Keys <= queued && active <= queued
    && Recorded(raw, n.done, queued)
    && Within(running, buffers)
  }

  lemma {:induction false} NotListed(q: seq<nat>, ids: set<nat>, j: nat)
    requires Ascending(q) && Lists(q, ids) && forall p | 0 <= p < |q| :: q[p] != j
    ensures j !in ids
  {
    if q == [] {
      assert ids == {};
    } else {
      var last := q[|q|-1];
      NotListed(q[..|q|-1], ids - {last}, j);
    }
  }

  /** The jobs in a stretch of the queue have all been handed out. */
  ghost predicate Placed(queue: seq<nat>, n: Net, lo: nat, hi: nat) {
    forall p | lo <= p < hi <= |queue| :: !Fresh(n, queue[p])
  }

  /** No job is forgotten: what was running or done still is. */
  ghost predicate Grows(n: Net, n': Net) {
    n.done <= n'.done && n.remote.Keys <= n'.remote.Keys + n'.done && n.local <= n'.local + n'.done
  }

  lemma StaysPlaced(queue: seq<nat>, n: Net, n': Net, lo: nat, hi: nat)
    requires Placed(queue, n, lo, hi) && Grows(n, n')
    ensures Placed(queue, n', lo, hi)
  {}

  lemma PlacedOn(queue: seq<nat>, n: Net, lo: nat, mid: nat, hi: nat)
    requires Placed(queue, n, lo, mid) && Placed(queue, n, mid, hi) && mid <= |queue|
    ensures Placed(queue, n, lo, hi)
  {}

  lemma PlacedNext(queue: seq<nat>, n: Net, lo: nat, hi: nat)
    requires Placed(queue, n, lo, hi) && hi < |queue| && !Fresh(n, queue[hi])
    ensures Placed(queue, n, lo, hi + 1)
  {}

  lemma NonePlaced(queue: seq<nat>, n: Net, at: nat)
    ensures Placed(queue, n, at, at)
  {}

  lemma GrowsSelf(n: Net)
    ensures Grows(n, n)
  {}

  lemma StepGrows(n: Net, e: Event)
    ensures Grows(n, Next(n, e))
  {}

  lemma GrowsOn(n: Net, n': Net, n'': Net)
    requires Grows(n, n') && Grows(n', n'')
    ensures Grows(n, n'')
  {}

  /** A nonblocking call returns the jobs that were waiting and are ready, and only ready
      ones. */
  ghost predicate Reports(raw: set<nat>, ready: set<nat>, waiting: set<nat>) {
    ready * waiting <= raw <= ready
  }

  /** A poll took exactly the jobs that were waiting and are ready. */
  ghost predicate Took(done: set<nat>, done': set<nat>, ready: set<nat>, waiting: set<nat>) {
    done' == done + ready * waiting
  }

  lemma TookBoth(done: set<nat>, done': set<nat>, done'': set<nat>, remote: set<nat>, local: set<nat>, ready: set<nat>)
    requires Took(done, done', ready, remote) && Took(done', done'', ready, local)
    ensures Took(done, done'', ready, remote + local)
  {}

  lemma TookQueued(done: set<nat>, done': set<nat>, ready: set<nat>, waiting: set<nat>, queued: set<nat>)
    requires Took(done, done', ready, waiting) && waiting <= queued
    ensures done <= done' && done' - done <= queued && done' <= done + queued
  {}

  lemma ReadyReported(before: Net, mid: Net, n: Net, raw: set<nat>, ready: set<nat>, waiting: set<nat>,
      earlier: set<nat>)
    requires Grows(before, mid) && mid.done == before.done && raw == n.done - before.done
    requires before.remote.Keys !! before.done && before.local !! before.done
    requires earlier == before.remote.Keys + before.local
    requires Took(mid.done, n.done, ready, waiting) && waiting == mid.remote.Keys + mid.local
    ensures Reports(raw, ready, earlier)
  {}

  /** Every slot in use was in use before, a job that still runs keeps its slot, and every
      job that left is done. */
  ghost predicate Inherits(now: map<nat, Slot>, before: map<nat, Slot>, done: set<nat>) {
    && now.Values <= before.Values && before.Keys <= now.Keys + done
    && (forall j | j in before && j in now :: now[j] == before[j])
  }

  /** A queue without the jobs in a set. */
  function Without(q: seq<nat>, s: set<nat>): seq<nat> {
    if q == [] then []
    else Without(q[..|q|-1], s) + (if q[|q|-1] in s then [] else [q[|q|-1]])
  }

  lemma {:induction false} WithoutKeeps(q: seq<nat>, s: set<nat>, ids: set<nat>)
    requires Ascending(q) && Lists(q, ids)
    ensures Ascending(Without(q, s)) && Lists(Without(q, s), ids - s)
    ensures forall i | 0 <= i < |Without(q, s)| :: Without(q, s)[i] in ids && Without(q, s)[i] !in s
  {
    if q == [] {
      assert ids == {};
    } else {
      var last := q[|q|-1];
      var rest := q[..|q|-1];
      forall i | 0 <= i < |rest| ensures rest[i] in ids - {last} {
        assert rest[i] == q[i];
      }
      WithoutKeeps(rest, s, ids - {last});
      WithoutBelow(rest, s, last);
      if last in s {
        assert ids - s == ids - {last} - s;
      } else {
        assert ids - s == (ids - {last} - s) + {last};
      }
    }
  }

  lemma {:induction false} WithoutBelow(q: seq<nat>, s: set<nat>, bound: nat)
    requires forall i | 0 <= i < |q| :: 0 < q[i] < bound
    ensures forall i | 0 <= i < |Without(q, s)| :: 0 < Without(q, s)[i] < bound
  {
    if q != [] {
      WithoutBelow(q[..|q|-1], s, bound);
    }
  }

  /** The local "server" a job belongs to under static scheduling. */
  function Residue(j: nat, modulus: nat): nat
    requires modulus > 0
  {
    (j - 1) % modulus
  }

  function Residues(jobs: set<nat>, modulus: nat): set<nat>
    requires modulus > 0
  {
    set j | j in jobs :: Residue(j, modulus)
  }

  ghost predicate DistinctResidues(jobs: set<nat>, modulus: nat)
    requires modulus > 0
  {
    forall j, k | j in jobs && k in jobs && Residue(j, modulus) == Residue(k, modulus) :: j == k
  }

  /** A local "server" bit is set exactly for the residues of the active jobs, and no
      two active jobs share one. */
  ghost predicate BitsMatch(busy: set<nat>, active: set<nat>, modulus: nat)
    requires modulus > 0
  {
    busy == Residues(active, modulus) && DistinctResidues(active, modulus)
  }

  /** The local "server" of a job. */
  ghost predicate OnServer(j: nat, r: nat, servers: int) {
    servers > 0 && (j as int - 1) % servers == r
  }

  /** The active jobs after a queue was offered to the local processors: first come, first
      served, skipping jobs that are active or gone already, up to the limit, and with static
      assignment never two jobs of one "server". */
  ghost function Served(active: set<nat>, local: seq<nat>, gone: set<nat>, fixed: bool, c: nat, servers: int): set<nat>
  {
    if local == [] then active
    else ServedOne(Served(active, local[..|local|-1], gone, fixed, c, servers), local[|local|-1], gone, fixed, c,
      servers)
  }

  ghost function ServedOne(active: set<nat>, j: nat, gone: set<nat>, fixed: bool, c: nat, servers: int): set<nat> {
    if j in active || j in gone || (c > 0 && |active| >= c)
      || (fixed && c > 1 && exists k :: k in active && SameServer(j, k, servers))
    then active else active + {j}
  }

  lemma ServedNext(active: set<nat>, local: seq<nat>, gone: set<nat>, fixed: bool, c: nat, servers: int, i: nat)
    requires i <= |local|
    ensures i == 0 ==> Served(active, local[..i], gone, fixed, c, servers) == active
    ensures i == |local|
            ==> Served(active, local[..i], gone, fixed, c, servers) == Served(active, local, gone, fixed, c, servers)
    ensures i < |local| ==>
              Served(active, local[..i + 1], gone, fixed, c, servers)
              == ServedOne(Served(active, local[..i], gone, fixed, c, servers), local[i], gone, fixed, c, servers)
  {
    if i < |local| { assert local[..i + 1][..i] == local[..i]; }
    assert i == |local| ==> local[..i] == local;
  }

  /** Once the limit is reached nothing more is served. */
  lemma {:induction false} ServedFull(active: set<nat>, local: seq<nat>, gone: set<nat>, fixed: bool, c: nat,
      servers: int, i: nat)
    requires i <= |local| && c > 0 && |Served(active, local[..i], gone, fixed, c, servers)| >= c
    ensures Served(active, local, gone, fixed, c, servers) == Served(active, local[..i], gone, fixed, c, servers)
    decreases |local| - i
  {
    ServedNext(active, local, gone, fixed, c, servers, i);
    if i < |local| { ServedFull(active, local, gone, fixed, c, servers, i + 1); }
  }

  ghost predicate Consecutive(local: seq<nat>) {
    forall p | 0 <= p < |local| :: local[p] == local[0] + p
  }

  lemma {:induction false} ServedWithin(active: set<nat>, local: seq<nat>, gone: set<nat>, fixed: bool, c: nat,
      servers: int)
    ensures active <= Served(active, local, gone, fixed, c, servers)
    ensures forall k | k in Served(active, local, gone, fixed, c, servers) :: k in active || k in local
  {
    hide SameServer;
    if local != [] {
      ServedWithin(active, local[..|local|-1], gone, fixed, c, servers);
      assert local[|local|-1] in local;
    }
  }

  /** A job of an ordered queue is passed over only when the limit is reached, or when an
      active job, or one before it in the queue, has its "server". */
  lemma {:induction false} ServedWhy(active: set<nat>, local: seq<nat>, gone: set<nat>, fixed: bool, c: nat,
      servers: int, p: nat)
    requires Ascending(local) && p < |local| && local[p] !in gone
    ensures var now := Served(active, local, gone, fixed, c, servers);
            || local[p] in now || (c > 0 && |now| >= c)
            || (fixed && c > 1
              && exists k :: k in now && SameServer(local[p], k, servers) && (k in active || k < local[p]))
  {
    hide SameServer, ServedOne;
    var front, j := local[..|local|-1], local[|local|-1];
    var before := Served(active, front, gone, fixed, c, servers);
    ServedWithin(active, front, gone, fixed, c, servers);
    FrontIsLess(local);
    if p < |front| {
      ServedWhy(active, front, gone, fixed, c, servers, p);
      StillPassed(active, before, front, j, gone, fixed, c, servers, local[p]);
    } else {
      PassedOne(active, before, front, j, gone, fixed, c, servers);
    }
  }

  lemma FrontIsLess(local: seq<nat>)
    requires Ascending(local) && local != []
    ensures var front := local[..|local|-1]; Ascending(front) && forall k | k in front :: k < local[|local|-1]
  {
    var front := local[..|local|-1];
    forall k | k in front ensures k < local[|local|-1] {
      var i :| 0 <= i < |front| && front[i] == k;
    }
  }

  lemma StillPassed(active: set<nat>, before: set<nat>, front: seq<nat>, j: nat, gone: set<nat>, fixed: bool, c: nat,
      servers: int, p: nat)
    requires || p in before || (c > 0 && |before| >= c)
             || (fixed && c > 1 && exists k :: k in before && SameServer(p, k, servers) && (k in active || k < p))
    ensures var now := ServedOne(before, j, gone, fixed, c, servers);
            || p in now || (c > 0 && |now| >= c)
            || (fixed && c > 1 && exists k :: k in now && SameServer(p, k, servers) && (k in active || k < p))
  {
    hide SameServer;
  }

  lemma PassedOne(active: set<nat>, before: set<nat>, front: seq<nat>, j: nat, gone: set<nat>, fixed: bool, c: nat,
      servers: int)
    requires j !in gone && (forall k | k in before :: k in active || k in front) && forall k | k in front :: k < j
    ensures var now := ServedOne(before, j, gone, fixed, c, servers);
            || j in now || (c > 0 && |now| >= c)
            || (fixed && c > 1 && exists k :: k in now && SameServer(j, k, servers) && (k in active || k < j))
  {
    hide SameServer;
  }

  /** The first jobs of a queue. */
  ghost function FirstOf(local: seq<nat>, c: nat): set<nat> {
    set p | 0 <= p < |local| && p < c :: local[p]
  }

  lemma FirstOfNext(local: seq<nat>, c: nat)
    requires local != [] && Consecutive(local)
    ensures var front, j := local[..|local|-1], local[|local|-1];
            && Consecutive(front) && j !in FirstOf(front, c)
            && FirstOf(local, c) == FirstOf(front, c) + (if |local| <= c then {j} else {})
            && forall k | k in FirstOf(front, c) :: 0 < j - k < |local|
  {
    var front := local[..|local|-1];
    assert forall p | 0 <= p < |front| :: front[p] == local[p];
  }

  /** Of consecutive ids the first ones are served, up to the limit. */
  lemma {:induction false} ServedConsecutive(local: seq<nat>, gone: set<nat>, fixed: bool, c: nat, servers: int)
    requires Consecutive(local) && 0 < c <= servers && forall p | 0 <= p < |local| :: local[p] !in gone
    ensures Served({}, local, gone, fixed, c, servers) == FirstOf(local, c)
    ensures |FirstOf(local, c)| == Min(c, |local|)
  {
    hide SameServer, Consecutive, FirstOf;
    if local == [] {
      NoneFirst(c);
    } else {
      var front, j := local[..|local|-1], local[|local|-1];
      FirstOfNext(local, c);
      ServedConsecutive(front, gone, fixed, c, servers);
      if |local| <= c {
        forall k | k in FirstOf(front, c) ensures !SameServer(j, k, servers) { CloseApart(j, k, servers); }
      }
    }
  }

  lemma NoneFirst(c: nat)
    ensures FirstOf([], c) == {}
  {}

  lemma CloseApart(j: nat, k: nat, servers: int)
    requires 0 < servers && 0 < j - k < servers
    ensures !SameServer(j, k, servers)
  {}

  /** Remainders agree when the difference is a multiple. */
  lemma SameRemainder(a: int, b: int, m: nat)
    requires m > 0
    ensures a % m == b % m <==> (a - b) % m == 0
  {
    var d := a / m - b / m;
    assert a == m * (a / m) + a % m && b == m * (b / m) + b % m;
    assert a - b == m * d + (a % m - b % m);
    var q, r := (a - b) / m, (a - b) % m;
    assert a - b == m * q + r;
    assert m * (q - d) == a % m - b % m - r;
    if a % m == b % m { SmallMultiple(m, q - d, -r); } else if r == 0 { SmallMultiple(m, q - d, a % m - b % m); }
  }

  lemma SmallMultiple(m: nat, d: int, r: int)
    requires m > 0 && m * d == r && -(m as int) < r < m
    ensures d == 0 && r == 0
  {
    if d >= 1 { MulMonotone(1, d, m); } else if d <= -1 { MulMonotone(d, -1, m); }
  }

  /** The bits in terms of ids. */
  lemma BitsById(busy: set<nat>, active: set<nat>, m: nat)
    requires m > 0 && BitsMatch(busy, active, m)
    ensures forall j, k | j in active && k in active && j != k :: !SameServer(j, k, m)
    ensures forall r: nat :: r in busy <==> exists j :: j in active && OnServer(j, r, m)
    ensures forall j: nat :: Residue(j, m) in busy <==> exists k :: k in active && SameServer(j, k, m)
  {
    forall j: nat, k: nat ensures SameServer(j, k, m) <==> Residue(j, m) == Residue(k, m) {
      if j >= k { SameRemainder(j - 1, k - 1, m); } else { SameRemainder(k - 1, j - 1, m); }
    }
    forall j: nat ensures Residue(j, m) in busy <==> exists k :: k in active && SameServer(j, k, m) {
      if Residue(j, m) in busy {
        var k :| k in active && Residue(k, m) == Residue(j, m);
        assert SameServer(j, k, m);
      }
    }
    forall r: nat ensures r in busy <==> exists j :: j in active && OnServer(j, r, m) {
      if r in busy {
        var j :| j in active && Residue(j, m) == r;
        assert OnServer(j, r, m);
      }
      if j :| j in active && OnServer(j, r, m) { assert Residue(j, m) == r; }
    }
  }

  lemma ResiduesAfterRemove(jobs: set<nat>, j: nat, modulus: nat)
    requires modulus > 0 && j in jobs && DistinctResidues(jobs, modulus)
    ensures Residues(jobs - {j}, modulus) == Residues(jobs, modulus) - {Residue(j, modulus)}
    ensures DistinctResidues(jobs - {j}, modulus)
  {
    forall r | r in Residues(jobs, modulus) && r != Residue(j, modulus)
      ensures r in Residues(jobs - {j}, modulus)
    {
      var k :| k in jobs && r == Residue(k, modulus);
      assert k in jobs - {j};
    }
  }

  lemma ResiduesAfterInsert(jobs: set<nat>, j: nat, modulus: nat)
    requires modulus > 0 && DistinctResidues(jobs, modulus) && Residue(j, modulus) !in Residues(jobs, modulus)
    ensures Residues(jobs + {j}, modulus) == Residues(jobs, modulus) + {Residue(j, modulus)}
    ensures DistinctResidues(jobs + {j}, modulus)
  {
    forall k | k in jobs ensures Residue(k, modulus) != Residue(j, modulus) {
      assert Residue(k, modulus) in Residues(jobs, modulus);
    }
    assert j in jobs + {j};
    forall r | r in Residues(jobs, modulus) ensures r in Residues(jobs + {j}, modulus) {
      var k :| k in jobs && r == Residue(k, modulus);
      assert k in jobs + {j};
    }
  }

  lemma MapSizes(m: map<nat, Slot>, j: nat, slot: Slot)
    ensures j !in m ==> |m[j := slot]| == |m| + 1
    ensures j in m ==> |m - {j}| == |m| - 1
  {
    assert m[j := slot].Keys == m.Keys + {j};
    assert (m - {j}).Keys == m.Keys - {j};
  }

  /** How the true map of running jobs relates to a stale one: the jobs in
      `removals` are gone, each replaced by the job it names (0: by none), which
      inherited its slot; `origin` is the inverse. */
  ghost predicate Deferred(stale: map<nat, Slot>, now: map<nat, Slot>, removals: map<nat, nat>, origin: map<nat, nat>) {
    Vacated(stale, now, removals, origin) && Succeeded(stale, now, removals, origin)
  }

  /** Who runs: the jobs not removed, where they were, and the successors. */
  ghost predicate Vacated(stale: map<nat, Slot>, now: map<nat, Slot>, removals: map<nat, nat>, origin: map<nat, nat>) {
    && removals.Keys <= stale.Keys
    && now.Keys == stale.Keys - removals.Keys + origin.Keys
    && (forall j | j in stale && j !in removals :: now[j] == stale[j])
  }

  /** Each successor has the slot of the one job it replaces. */
  ghost predicate Succeeded(stale: map<nat, Slot>, now: map<nat, Slot>, removals: map<nat, nat>, origin: map<nat, nat>)
    requires Vacated(stale, now, removals, origin)
  {
    && (forall n | n in origin ::
          n != 0 && n !in stale && origin[n] in removals && removals[origin[n]] == n && now[n] == stale[origin[n]])
    && (forall j | j in removals && removals[j] != 0 :: removals[j] in origin && origin[removals[j]] == j)
  }

  lemma DeferRemoval(stale: map<nat, Slot>, now: map<nat, Slot>, removals: map<nat, nat>, origin: map<nat, nat>,
      id: nat)
    requires Deferred(stale, now, removals, origin) && id in stale && id !in removals
    ensures id in now && now[id] == stale[id]
    ensures now.Keys <= stale.Keys + origin.Keys && stale.Keys <= now.Keys + removals.Keys
    ensures Deferred(stale, now - {id}, removals[id := 0], origin)
  {
    hide Deferred;
    VacatedMore(stale, now, removals, origin, id);
    SucceededStill(stale, now, removals, origin, id);
  }

  lemma VacatedMore(stale: map<nat, Slot>, now: map<nat, Slot>, removals: map<nat, nat>, origin: map<nat, nat>, id: nat)
    requires Deferred(stale, now, removals, origin) && id in stale && id !in removals
    ensures id in now && now[id] == stale[id] && id !in origin
    ensures now.Keys <= stale.Keys + origin.Keys && stale.Keys <= now.Keys + removals.Keys
    ensures Vacated(stale, now - {id}, removals[id := 0], origin)
  {}

  lemma SucceededStill(stale: map<nat, Slot>, now: map<nat, Slot>, removals: map<nat, nat>, origin: map<nat, nat>,
      id: nat)
    requires Deferred(stale, now, removals, origin) && id in stale && id !in removals
    requires Vacated(stale, now - {id}, removals[id := 0], origin)
    ensures Deferred(stale, now - {id}, removals[id := 0], origin)
  {}

  lemma DeferReplacement(stale: map<nat, Slot>, now: map<nat, Slot>, removals: map<nat, nat>, origin: map<nat, nat>,
      id: nat, n: nat)
    requires Deferred(stale, now, removals, origin) && id in removals && removals[id] == 0
    requires n != 0 && n !in stale && n !in now
    ensures Deferred(stale, now[n := stale[id]], removals[id := n], origin[n := id])
  {}

  /** Carrying out one deferred replacement leaves the others deferred. */
  lemma SettleOne(stale: map<nat, Slot>, now: map<nat, Slot>, removals: map<nat, nat>, origin: map<nat, nat>, id: nat)
    requires Deferred(stale, now, removals, origin) && id in removals
    ensures removals[id] != 0
            ==> Deferred(stale[removals[id] := stale[id]] - {id}, now, removals - {id}, origin - {removals[id]})
    ensures removals[id] == 0 ==> Deferred(stale - {id}, now, removals - {id}, origin)
  {
    hide Deferred;
    if removals[id] == 0 {
      SettleGone(stale, now, removals, origin, id);
    } else {
      SettleReplaced(stale, now, removals, origin, id);
    }
  }

  lemma SettleGone(stale: map<nat, Slot>, now: map<nat, Slot>, removals: map<nat, nat>, origin: map<nat, nat>, id: nat)
    requires Deferred(stale, now, removals, origin) && id in removals && removals[id] == 0
    ensures id in stale && Deferred(stale - {id}, now, removals - {id}, origin)
  {}

  lemma SettleReplaced(stale: map<nat, Slot>, now: map<nat, Slot>, removals: map<nat, nat>, origin: map<nat, nat>,
      id: nat)
    requires Deferred(stale, now, removals, origin) && id in removals && removals[id] != 0
    ensures id in stale
    ensures Deferred(stale[removals[id] := stale[id]] - {id}, now, removals - {id}, origin - {removals[id]})
  {
    hide Vacated, Succeeded;
    VacatedAfter(stale, now, removals, origin, id);
    SucceededAfter(stale, now, removals, origin, id);
  }

  lemma VacatedAfter(stale: map<nat, Slot>, now: map<nat, Slot>, removals: map<nat, nat>, origin: map<nat, nat>,
      id: nat)
    requires Deferred(stale, now, removals, origin) && id in removals && removals[id] != 0
    ensures id in stale
    ensures Vacated(stale[removals[id] := stale[id]] - {id}, now, removals - {id}, origin - {removals[id]})
  {
    var m := removals[id];
    assert m in origin && origin[m] == id && m !in stale && now[m] == stale[id];
    assert now.Keys == (stale[m := stale[id]] - {id}).Keys - (removals - {id}).Keys + (origin - {m}).Keys;
  }

  lemma SucceededAfter(stale: map<nat, Slot>, now: map<nat, Slot>, removals: map<nat, nat>, origin: map<nat, nat>,
      id: nat)
    requires Deferred(stale, now, removals, origin) && id in removals && removals[id] != 0
    requires Vacated(stale[removals[id] := stale[id]] - {id}, now, removals - {id}, origin - {removals[id]})
    ensures Succeeded(stale[removals[id] := stale[id]] - {id}, now, removals - {id}, origin - {removals[id]})
  {}

  lemma NothingDeferred(stale: map<nat, Slot>, now: map<nat, Slot>, origin: map<nat, nat>)
    requires Deferred(stale, now, map[], origin)
    ensures stale == now
  {
    assert origin.Keys == {};
  }

  lemma SlotsInherited(stale: map<nat, Slot>, now: map<nat, Slot>, removals: map<nat, nat>, origin: map<nat, nat>,
      done: set<nat>)
    requires Deferred(stale, now, removals, origin) && removals.Keys <= done
    ensures Inherits(now, stale, done) && now.Values <= stale.Values && now.Keys <= stale.Keys + origin.Keys
  {
    forall v | v in now.Values ensures v in stale.Values {
      var j :| j in now && now[j] == v;
      if j in origin {
        assert stale[origin[j]] == v;
      } else {
        assert stale[j] == v;
      }
    }
  }

  /** The state inside the scan of test_receives_backfill: the running map is stale,
      the network is not.  `open` counts a slot that is about to be refilled. */
  ghost predicate ScanState(lim: Limits, queue: seq<nat>, queued: set<nat>, n: Net, raw: set<nat>, active: set<nat>,
      stale: map<nat, Slot>, done: set<nat>, removals: map<nat, nat>, origin: map<nat, nat>, pos: nat, open: nat)
  {
    && Safe(lim, n) && n.local == active && ScanQueue(queue, queued, active, stale, origin, pos)
    && Recorded(raw, n.done, queued) && Added(n.done, done, removals)
    && Deferred(stale, n.remote, removals, origin)
    && |n.remote| + open <= |stale|
    && (pos < |queue| ==> |n.remote| + open == |stale|)
  }

  /** The queue during the scan: the jobs sent as successors lie behind the iterator. */
  ghost predicate ScanQueue(queue: seq<nat>, queued: set<nat>, active: set<nat>, stale: map<nat, Slot>,
      origin: map<nat, nat>, pos: nat)
  {
    && Ascending(queue) && Lists(queue, queued) && pos <= |queue|
    && origin.Keys <= queued && stale.Keys <= queued && active <= queued
    && (forall k | k in origin && pos < |queue| :: k < queue[pos])
  }

  ghost predicate ScanOk(lim: Limits, queue: seq<nat>, queued: set<nat>, n: Net, raw: set<nat>, active: set<nat>,
      stale: map<nat, Slot>, done: set<nat>, removals: map<nat, nat>, origin: map<nat, nat>, pos: nat)
  {
    ScanState(lim, queue, queued, n, raw, active, stale, done, removals, origin, pos, 0)
  }

  /** Of the jobs tested so far, exactly the ready ones were taken. */
  ghost predicate Tested(removals: map<nat, nat>, ready: set<nat>, all: set<nat>, todo: set<nat>) {
    removals.Keys == ready * (all - todo)
  }

  lemma NoneTested(ready: set<nat>, all: set<nat>)
    ensures Tested(map[], ready, all, all)
  {}

  lemma TestNext(removals: map<nat, nat>, ready: set<nat>, all: set<nat>, todo: set<nat>, id: nat)
    requires Tested(removals, ready, all, todo) && id in todo && todo <= all
    ensures id !in removals
    ensures id !in ready ==> Tested(removals, ready, all, todo - {id})
    ensures forall more: map<nat, nat> ::
              id in ready && more.Keys == removals.Keys + {id} ==> Tested(more, ready, all, todo - {id})
  {}

  lemma AllTested(now: set<nat>, before: set<nat>, removals: map<nat, nat>, ready: set<nat>, all: set<nat>)
    requires Tested(removals, ready, all, {}) && Added(now, before, removals)
    ensures now == before + ready * all && |now| == |before| + |removals|
  {
    assert |removals| == |removals.Keys|;
    assert |before + removals.Keys| == |before| + |removals.Keys|;
  }

  lemma ScanStarts(lim: Limits, queue: seq<nat>, queued: set<nat>, n: Net, raw: set<nat>, active: set<nat>,
      stale: map<nat, Slot>, buffers: nat, pos: nat)
    requires Safe(lim, n) && Consistent(queue, queued, n, raw, active, stale, buffers) && pos <= |queue|
    ensures ScanOk(lim, queue, queued, n, raw, active, stale, n.done, map[], map[], pos) && Within(stale, buffers)
  {
    hide Safe, Ascending, Lists, Recorded, Within, Deferred;
    NothingNoted(n.remote);
    assert Added(n.done, n.done, map[]);
  }

  lemma NothingNoted(remote: map<nat, Slot>)
    ensures Deferred(remote, remote, map[], map[])
  {}

  lemma ScanEnds(lim: Limits, queue: seq<nat>, queued: set<nat>, n: Net, raw: set<nat>, active: set<nat>,
      stale: map<nat, Slot>, buffers: nat, done: set<nat>, removals: map<nat, nat>, origin: map<nat, nat>, pos: nat)
    requires ScanOk(lim, queue, queued, n, raw, active, stale, done, removals, origin, pos) && Within(stale, buffers)
    ensures Deferred(stale, n.remote, removals, origin)
    ensures Consistent(queue, queued, n, raw, active, n.remote, buffers) && Inherits(n.remote, stale, n.done)
    ensures |n.remote| <= |stale| && (pos < |queue| ==> |n.remote| == |stale|)
    ensures Added(n.done, done, removals)
  {
    hide Safe, Inherits, Deferred;
    SlotsInherited(stale, n.remote, removals, origin, n.done);
    WithinInherited(n.remote, stale, buffers);
  }

  lemma StaleIsQueued(queue: seq<nat>, queued: set<nat>, active: set<nat>, stale: map<nat, Slot>,
      origin: map<nat, nat>, pos: nat)
    requires ScanQueue(queue, queued, active, stale, origin, pos)
    ensures stale.Keys <= queued
  {}

  /** A job in the stale map that was not taken yet is still running; receiving its
      result touches only its own entries. */
  lemma ArrivalParts(lim: Limits, n: Net, queued: set<nat>, raw: set<nat>, stale: map<nat, Slot>, done: set<nat>,
      removals: map<nat, nat>, origin: map<nat, nat>, id: nat)
    requires Safe(lim, n) && Recorded(raw, n.done, queued) && Added(n.done, done, removals)
    requires Deferred(stale, n.remote, removals, origin) && id in stale && id !in removals && id in queued
    ensures Enabled(lim, n, Recv(id, stale[id])) && Safe(lim, Next(n, Recv(id, stale[id])))
    ensures Recorded(raw + {id}, n.done + {id}, queued) && Added(n.done + {id}, done, removals[id := 0])
    ensures Deferred(stale, n.remote - {id}, removals[id := 0], origin)
    ensures |n.remote - {id}| == |n.remote| - 1 && |removals[id := 0]| == |removals| + 1
  {
    hide Deferred, Safe, Recorded, Added;
    DeferRemoval(stale, n.remote, removals, origin, id);
    RecordedMore(raw, n.done, queued, id);
    RemoteIsNotDone(lim, n, id);
    AddedMore(n.done, done, removals, id);
    StepSafe(lim, n, Recv(id, stale[id]));
    MapSizes(n.remote, id, stale[id]);
  }

  lemma SlotPassesOn(lim: Limits, n: Net, id: nat, slot: Slot, next: nat)
    requires Safe(lim, n) && Enabled(lim, n, Recv(id, slot)) && Fresh(Next(n, Recv(id, slot)), next)
    ensures Enabled(lim, Next(n, Recv(id, slot)), Send(next, slot))
  {
    SlotPasses(lim, n, id, next);
  }

  lemma ArrivalIn(lim: Limits, queue: seq<nat>, queued: set<nat>, n: Net, raw: set<nat>, active: set<nat>,
      stale: map<nat, Slot>, done: set<nat>, removals: map<nat, nat>, origin: map<nat, nat>, pos: nat, id: nat)
    requires ScanOk(lim, queue, queued, n, raw, active, stale, done, removals, origin, pos)
    requires id in stale && id !in removals
    ensures Enabled(lim, n, Recv(id, stale[id])) && id in n.remote
    ensures |removals[id := 0]| == |removals| + 1 && removals[id := 0].Keys == removals.Keys + {id}
    ensures ScanState(lim, queue, queued, Next(n, Recv(id, stale[id])), raw + {id}, active, stale, done,
            removals[id := 0], origin, pos, 1)
  {
    hide Deferred, Safe, ScanQueue, Recorded, Added, Enabled;
    StaleIsQueued(queue, queued, active, stale, origin, pos);
    ArrivalParts(lim, n, queued, raw, stale, done, removals, origin, id);
  }

  /** Moving the assign iterator over jobs that are placed. */
  lemma PassedOver(lim: Limits, queue: seq<nat>, queued: set<nat>, n: Net, raw: set<nat>, active: set<nat>,
      stale: map<nat, Slot>, done: set<nat>, removals: map<nat, nat>, origin: map<nat, nat>, start: nat, pos: nat)
    requires ScanState(lim, queue, queued, n, raw, active, stale, done, removals, origin, start, 1)
    requires start <= pos <= |queue|
    requires forall p | start <= p < pos :: queue[p] in stale || queue[p] in active || queue[p] in raw
    ensures ScanState(lim, queue, queued, n, raw, active, stale, done, removals, origin, pos, 1)
    ensures pos == |queue| ==> ScanOk(lim, queue, queued, n, raw, active, stale, done, removals, origin, pos)
    ensures Placed(queue, n, start, pos)
    ensures pos < |queue| && queue[pos] !in stale && queue[pos] !in active && queue[pos] !in raw
            ==> Fresh(n, queue[pos])
  {
    hide Safe;
    assert stale.Keys <= n.remote.Keys + removals.Keys;
    assert n.remote.Keys <= stale.Keys + origin.Keys;
    assert start < pos < |queue| ==> queue[start] < queue[pos];
    hide Deferred, Ascending;
  }

  lemma SlotRefilled(lim: Limits, queue: seq<nat>, queued: set<nat>, n: Net, raw: set<nat>, active: set<nat>,
      stale: map<nat, Slot>, done: set<nat>, removals: map<nat, nat>, origin: map<nat, nat>, pos: nat, id: nat)
    requires ScanState(lim, queue, queued, n, raw, active, stale, done, removals, origin, pos, 1)
    requires pos < |queue| && id in removals && id in stale && removals[id] == 0 && queue[pos] !in stale
    requires Enabled(lim, n, Send(queue[pos], stale[id]))
    ensures |removals[id := queue[pos]]| == |removals| && removals[id := queue[pos]].Keys == removals.Keys
    ensures ScanOk(lim, queue, queued, Next(n, Send(queue[pos], stale[id])), raw, active, stale, done,
                   removals[id := queue[pos]], origin[queue[pos] := id], pos + 1)
  {
    hide Deferred, Added, Recorded, Lists;
    var next := queue[pos];
    AddedSame(n.done, done, removals, id, next);
    assert next in queued by { QueuedIds(queue, queued, pos); }
    DeferReplacement(stale, n.remote, removals, origin, id, next);
    StepSafe(lim, n, Send(next, stale[id]));
    MapSizes(n.remote, next, stale[id]);
  }

  /** A queued job that is in none of the three places has not been handed out. */
  lemma PendingIsFresh(queue: seq<nat>, queued: set<nat>, n: Net, raw: set<nat>, active: set<nat>,
      running: map<nat, Slot>, buffers: nat, job: nat)
    requires Consistent(queue, queued, n, raw, active, running, buffers) && job in queued
    ensures Fresh(n, job) <==> job !in running && job !in active && job !in raw
  {}

  lemma LaunchKeeps(queue: seq<nat>, queued: set<nat>, n: Net, raw: set<nat>, active: set<nat>,
      running: map<nat, Slot>, buffers: nat, job: nat)
    requires Consistent(queue, queued, n, raw, active, running, buffers) && job in queued && Fresh(n, job)
    ensures Consistent(queue, queued, Next(n, Launch(job)), raw, active + {job}, running, buffers)
  {}

  /** Without the results that are handed out nothing queued is done. */
  lemma RetiredRecorded(raw: set<nat>, done: set<nat>, queued: set<nat>, running: set<nat>, active: set<nat>)
    requires Recorded(raw, done, queued)
    ensures Recorded({}, done, queued - raw)
    ensures running <= queued && running !! done ==> running <= queued - raw
    ensures active <= queued && active !! done ==> active <= queued - raw
  {}

  lemma SendKeeps(queue: seq<nat>, queued: set<nat>, n: Net, raw: set<nat>, active: set<nat>,
      running: map<nat, Slot>, buffers: nat, job: nat, slot: Slot)
    requires Consistent(queue, queued, n, raw, active, running, buffers) && job in queued && Fresh(n, job)
    requires slot.buffer < buffers
    ensures Consistent(queue, queued, Next(n, Send(job, slot)), raw, active, running[job := slot], buffers)
    ensures |running[job := slot]| == |running| + 1
  {
    MapSizes(running, job, slot);
  }

  lemma ReceiveKeeps(queue: seq<nat>, queued: set<nat>, n: Net, raw: set<nat>, active: set<nat>,
      running: map<nat, Slot>, buffers: nat, job: nat)
    requires Consistent(queue, queued, n, raw, active, running, buffers) && job in running
    ensures Consistent(queue, queued, Next(n, Recv(job, running[job])), raw + {job}, active, running - {job}, buffers)
    ensures |running - {job}| == |running| - 1 && running[job].buffer < buffers && n.remote == running
  {
    MapSizes(running, job, running[job]);
  }

  lemma CompleteKeeps(queue: seq<nat>, queued: set<nat>, n: Net, raw: set<nat>, active: set<nat>,
      running: map<nat, Slot>, buffers: nat, job: nat)
    requires Consistent(queue, queued, n, raw, active, running, buffers) && job in active
    ensures Consistent(queue, queued, Next(n, Complete(job)), raw + {job}, active - {job}, running, buffers)
  {}

  lemma PollCounts(active: set<nat>, taken: set<nat>, done: set<nat>)
    requires taken <= active && taken !! done
    ensures |done + taken| == |done| + |taken| && |active - taken| == |active| - |taken|
  {
    assert active == active - taken + taken;
  }

  /** From one run to a longer one jobs are sent in queue order, all from before a position. */
  ghost predicate SendsRise(t: seq<Event>, t': seq<Event>, queue: seq<nat>, pos: nat) {
    && t <= t'
    && (forall i, k | |t| <= i < k < |t'| && t'[i].Send? && t'[k].Send? :: t'[i].job < t'[k].job)
    && (forall i, p | |t| <= i < |t'| && t'[i].Send? && pos <= p < |queue| :: t'[i].job < queue[p])
  }

  lemma RiseStarts(t: seq<Event>, queue: seq<nat>, pos: nat)
    ensures SendsRise(t, t, queue, pos)
  {}

  lemma RiseOther(t: seq<Event>, t': seq<Event>, queue: seq<nat>, pos: nat, e: Event)
    requires SendsRise(t, t', queue, pos) && !e.Send?
    ensures SendsRise(t, t' + [e], queue, pos)
  {}

  lemma RiseSend(t: seq<Event>, t': seq<Event>, queue: seq<nat>, pos: nat, slot: Slot)
    requires SendsRise(t, t', queue, pos) && pos < |queue| && Ascending(queue)
    ensures SendsRise(t, t' + [Send(queue[pos], slot)], queue, pos + 1)
  {}

  /** From one run to a longer one results are received in the order of their jobs, all before
      those that are left, and jobs are sent in queue order, all from before a position. */
  ghost predicate InTurn(t: seq<Event>, t': seq<Event>, queue: seq<nat>, pos: nat, left: set<nat>) {
    && SendsRise(t, t', queue, pos)
    && (forall i, k | |t| <= i < k < |t'| && t'[i].Recv? && t'[k].Recv? :: t'[i].job < t'[k].job)
    && (forall i, j | |t| <= i < |t'| && t'[i].Recv? && j in left :: t'[i].job < j)
  }

  lemma InTurnStarts(t: seq<Event>, queue: seq<nat>, pos: nat, left: set<nat>)
    ensures InTurn(t, t, queue, pos, left)
  {}

  lemma InTurnLess(t: seq<Event>, t': seq<Event>, queue: seq<nat>, pos: nat, left: set<nat>, id: nat)
    requires InTurn(t, t', queue, pos, left)
    ensures InTurn(t, t', queue, pos, left - {id})
  {}

  lemma InTurnReceives(t: seq<Event>, t': seq<Event>, queue: seq<nat>, start: nat, pos: nat, left: set<nat>, id: nat,
      slot: Slot)
    requires InTurn(t, t', queue, start, left) && start <= pos && id in left && forall j | j in left :: id <= j
    ensures InTurn(t, t' + [Recv(id, slot)], queue, pos, left - {id})
  {}

  lemma InTurnSends(t: seq<Event>, t': seq<Event>, queue: seq<nat>, pos: nat, left: set<nat>, slot: Slot)
    requires InTurn(t, t', queue, pos, left) && pos < |queue| && Ascending(queue)
    ensures InTurn(t, t' + [Send(queue[pos], slot)], queue, pos + 1, left)
  {}

  /** From a queue position on nothing new was handed out. */
  ghost predicate Untouched(queue: seq<nat>, n: Net, n': Net, pos: nat) {
    forall p | pos <= p < |queue| && Fresh(n, queue[p]) :: Fresh(n', queue[p])
  }

  lemma UntouchedSelf(queue: seq<nat>, n: Net, pos: nat)
    ensures Untouched(queue, n, n, pos)
  {}

  lemma UntouchedByArrival(queue: seq<nat>, n: Net, n': Net, start: nat, pos: nat, id: nat, slot: Slot)
    requires Untouched(queue, n, n', start) && start <= pos && id in n'.remote
    ensures Untouched(queue, n, Next(n', Recv(id, slot)), pos)
    ensures pos < |queue| && Ascending(queue) ==>
              Untouched(queue, n, Next(Next(n', Recv(id, slot)), Send(queue[pos], slot)), pos + 1)
  {}

  class EvalBookkeeping {
    const numServers: nat    // numEvalServers
    const concurrency: nat   // asynchLocalEvalConcurrency, 0 for no limit
    const staticLocal: bool  // asynchLocalEvalStatic

    var queue: seq<nat>          // beforeSynchCorePRPQueue
    var running: map<nat, Slot>  // msgPassRunningMap
    var active: set<nat>         // asynchLocalActivePRPQueue
    var raw: set<nat>            // keys of rawResponseMap
    var busy: set<nat>           // localServerAssigned
    var buffers: nat           // length of the send and receive buffer arrays

    ghost var limits: Limits     // what the protocol allows
    ghost var queued: set<nat>   // the ids in the queue
    ghost var trace: seq<Event>
    ghost var net: Net

    /** The event log follows the protocol and `net` is the state it leads to. */
    ghost predicate Traced()
      reads `trace, `net, `limits
    {
      Legal(limits, trace) && net == State(trace) && Safe(limits, net)
    }

    predicate StaticLimited() {
      staticLocal && concurrency > 1
    }

    function Modulus(): (m: nat)
      ensures m > 0
    {
      if concurrency > 0 && numServers > 0 then concurrency * numServers else 1
    }

    /** A job the launch loop leaves behind is placed, or with static assignment an active
        job has its "server". */
    ghost predicate LeftBehind(job: nat, n: Net) {
      Fresh(n, job) ==>
        staticLocal && concurrency > 1 && exists k :: k in n.local && SameServer(job, k, concurrency * numServers)
    }

    /** With static assignment no two active jobs share a "server", and the bits set are those
        of the active jobs. */
    ghost predicate OneEach()
      reads `active, `busy
    {
      staticLocal && concurrency > 1 ==>
        && (forall j, k | j in active && k in active && j != k :: !SameServer(j, k, concurrency * numServers))
        && (forall r: nat :: r in busy <==> exists j :: j in active && OnServer(j, r, concurrency * numServers))
    }

    lemma ServersApart()
      requires Valid()
      ensures OneEach()
    {
      hide Consistent, Safe, Legal, State, BitsMatch, SameServer, OnServer;
      if StaticLimited() {
        assert concurrency * numServers > 0;
        BitsById(busy, active, Modulus());
      }
    }

    /** The bit of a job is set when an active job has its "server". */
    lemma ServerTaken(job: nat)
      requires Valid() && StaticLimited()
      ensures Residue(job, Modulus()) in busy
              <==> exists k :: k in active && SameServer(job, k, concurrency * numServers)
      ensures net.local == active
    {
      hide Consistent, Safe, Legal, State, BitsMatch, SameServer, OnServer;
      Facts();
      assert concurrency * numServers > 0;
      BitsById(busy, active, Modulus());
    }

    /** What holds between scheduler calls. */
    ghost predicate Valid()
      reads this
    {
      && Traced()
      && 1 <= numServers && limits.local == concurrency
      && limits.apart == (if staticLocal && concurrency > 1 then concurrency * numServers else 0)
      && Consistent(queue, queued, net, raw, active, running, buffers)
      && (StaticLimited() ==> BitsMatch(busy, active, Modulus()))
    }

    lemma Facts()
      requires Valid()
      ensures net.local == active && net.remote == running
      ensures active !! net.done && running.Keys !! net.done && running.Keys !! active && raw <= net.done
      ensures concurrency != 0 ==> |active| <= concurrency
    {}

    lemma FactsSafe()
      requires Valid()
      ensures Injective(running) && (forall j | j in running :: 1 <= running[j].server <= limits.servers)
    {}

    /** A job of the queue that is not running, active or in is fresh. */
    lemma QueuedAt(pos: nat)
      requires Valid() && pos < |queue|
      ensures queue[pos] in queued
      ensures Fresh(net, queue[pos]) <==> queue[pos] !in running && queue[pos] !in active && queue[pos] !in raw
    {
      PendingIsFresh(queue, queued, net, raw, active, running, buffers, queue[pos]);
    }

    /** When nothing was at hand before, the results at hand are the new ones. */
    lemma NewResults(before: set<nat>)
      requires Valid() && before <= net.done && before !! queued && net.done - before <= queued
      ensures raw == net.done - before
    {
      hide Safe, Legal, State, BitsMatch, Within, Ascending, Lists;
      assert Recorded(raw, net.done, queued);
    }

    lemma NothingDoneQueued()
      requires Valid() && raw == {}
      ensures net.done !! queued && running.Keys <= queued && active <= queued
    {
      hide Safe, Legal, State, BitsMatch, Within, Ascending, Lists;
      assert Recorded(raw, net.done, queued);
    }

    lemma AllQueuedFresh()
      requires Valid() && running == map[] && active == {} && raw == {}
      ensures forall p | 0 <= p < |queue| :: Fresh(net, queue[p])
    {
      forall p | 0 <= p < |queue| { QueuedAt(p); }
    }

    lemma AllRunning()
      requires Valid() && |running| == |queue|
      ensures forall p | 0 <= p < |queue| :: queue[p] in running
    {
      hide Safe, Legal, State, BitsMatch, Recorded, Within;
      SameSize(running.Keys, queued);
    }

    lemma AllAssigned()
      requires Valid() && |running| + |active| == |queue|
      ensures Placed(queue, net, 0, |queue|)
    {
      hide Safe, Legal, State, BitsMatch, Within, Recorded;
      Facts();
      assert |running.Keys + active| == |running| + |active|;
      SameSize(running.Keys + active, queued);
    }

    lemma QueuedSets()
      requires Valid()
      ensures running.Keys <= queued && active <= queued
    {}

    lemma ActiveIsLocal()
      requires Valid()
      ensures net.local == active
    {}

    /** The jobs that are running or active, and that they are not done. */
    lemma WaitingJobs()
      requires Valid()
      ensures net == State(trace)
      ensures net.remote.Keys == running.Keys && net.local == active
      ensures net.remote.Keys !! net.done && net.local !! net.done
    {}

    lemma RunningIsRemote()
      requires Valid()
      ensures net.remote == running
    {}

    lemma AllQueued()
      requires Valid()
      ensures forall p | 0 <= p < |queue| :: queue[p] in queued
    {}

    lemma SomeServer()
      requires Valid()
      ensures 1 <= numServers
    {}

    lemma NothingBusy()
      requires Valid() && active == {}
      ensures StaticLimited() ==> busy == {}
    {}

    lemma QueueIsListed()
      requires Valid()
      ensures Ascending(queue) && Lists(queue, queued)
    {}

    constructor (numServers: nat, concurrency: nat, staticLocal: bool, servers: nat, load: nat)
      requires 1 <= numServers
      ensures Valid()
      ensures this.numServers == numServers && this.concurrency == concurrency
      ensures this.staticLocal == staticLocal
      ensures limits.servers == servers && limits.load == load && limits.local == concurrency
      ensures limits.apart == if staticLocal && concurrency > 1 then concurrency * numServers else 0
      ensures queue == [] && trace == []
    {
      this.numServers, this.concurrency, this.staticLocal := numServers, concurrency, staticLocal;
      var apart := if staticLocal && concurrency > 1 then concurrency * numServers else 0;
      limits := Limits(servers, load, concurrency, apart);
      queue, running, active, raw, busy, buffers := [], map[], {}, {}, {}, 0;
      queued, trace, net := {}, [], Net(map[], {}, {});
      new;
      LegalRunsAreSafe(limits, trace, 0);
    }

    method Allocate(size: nat)
      requires Valid() && buffers <= size
      modifies `buffers
      ensures Valid() && buffers == size
    {
      buffers := size;
    }

    method Release()
      requires Valid() && running == map[]
      modifies `buffers
      ensures Valid() && buffers == 0
    {
      buffers := 0;
    }

    /** map() queues a job under the next evaluation id. */
    method Enqueue(job: nat)
      requires Valid() && Fresh(net, job) && job > 0 && forall p | 0 <= p < |queue| :: queue[p] < job
      modifies `queue, `queued
      ensures Valid()
      ensures queue == old(queue) + [job] && queued == old(queued) + {job}
    {
      assert job !in queued by { NotListed(queue, queued, job); }
      queue, queued := queue + [job], queued + {job};
    }

    /** synchronize_nowait hands out the results at hand and forgets their jobs. */
    method Retire()
      requires Valid()
      modifies `queue, `queued, `raw
      ensures Valid()
      ensures queued == old(queued) - old(raw) && raw == {}
      ensures queue == Without(old(queue), old(raw))
    {
      hide Safe, Legal, State, BitsMatch, Ascending, Lists, Without, Within;
      Facts();
      RetiredRecorded(raw, net.done, queued, running.Keys, active);
      WithoutKeeps(queue, raw, queued);
      queue, queued, raw := Without(queue, raw), queued - raw, {};
    }

    ghost method Record(e: Event)
      requires Traced() && Enabled(limits, net, e)
      modifies `trace, `net
      ensures Traced()
      ensures trace == old(trace) + [e] && net == Next(old(net), e)
    {
      ExtendLegal(limits, trace, e);
      StepSafe(limits, net, e);
      trace, net := trace + [e], Next(net, e);
    }

    /** Allow servers to hold more jobs: the run so far stays legal. */
    ghost method RaiseLoad(load: nat)
      requires Valid() && limits.load <= load
      modifies `limits
      ensures Valid() && limits == old(limits).(load := load)
    {
      hide Consistent, BitsMatch;
      MoreLoad(limits, trace, load);
      limits := limits.(load := load);
    }

    /** send_evaluation: post a receive on the buffer and send the job.  Reusing a
        buffer that still awaits a result would lose that result. */
    method SendEvaluation(job: nat, buffer: nat, server: nat)
      requires Traced() && buffer < buffers
      requires Enabled(limits, net, Send(job, Slot(server, buffer)))
      modifies `trace, `net
      ensures Traced()
      ensures trace == old(trace) + [Send(job, Slot(server, buffer))]
      ensures net == Next(old(net), Send(job, Slot(server, buffer)))
    {
      Record(Send(job, Slot(server, buffer)));
    }

    /** receive_evaluation: the result in the buffer is filed under the job's id, so
        the buffer has to belong to that job. */
    method ReceiveEvaluation(job: nat, buffer: nat, server: nat)
      requires Traced() && buffer < buffers
      requires Enabled(limits, net, Recv(job, Slot(server, buffer)))
      modifies `trace, `net, `raw
      ensures Traced()
      ensures trace == old(trace) + [Recv(job, Slot(server, buffer))]
      ensures net == Next(old(net), Recv(job, Slot(server, buffer)))
      ensures raw == old(raw) + {job}
    {
      Record(Recv(job, Slot(server, buffer)));
      raw := raw + {job};
    }

    /** launch_asynch_local */
    method LaunchAsynchLocal(job: nat)
      requires Traced() && Enabled(limits, net, Launch(job))
      modifies `trace, `net, `active
      ensures Traced()
      ensures trace == old(trace) + [Launch(job)]
      ensures net == Next(old(net), Launch(job))
      ensures active == old(active) + {job}
    {
      Record(Launch(job));
      active := active + {job};
    }

    /** process_asynch_local: file the result and free the job's "server" bit. */
    method ProcessAsynchLocal(job: nat)
      requires Valid() && job in active
      modifies `trace, `net, `active, `raw, `busy
      ensures Valid()
      ensures trace == old(trace) + [Complete(job)]
      ensures net == Next(old(net), Complete(job))
      ensures job !in old(net.done) && active == old(active) - {job} && raw == old(raw) + {job} && OneEach()
    {
      hide Consistent, Safe, Legal, State;
      Facts();
      CompleteKeeps(queue, queued, net, raw, active, running, buffers, job);
      LocalIsNotDone(limits, net, job);
      Record(Complete(job));
      if StaticLimited() {
        ResiduesAfterRemove(active, job, Modulus());
        busy := busy - {Residue(job, Modulus())};
      }
      raw, active := raw + {job}, active - {job};
      ServersApart();
    }

    /** Send a queued job and enter it in the running map. */
    method AssignRemote(job: nat, buffer: nat, server: nat)
      requires Valid() && job in queued && buffer < buffers
      requires Enabled(limits, net, Send(job, Slot(server, buffer)))
      modifies `trace, `net, `running
      ensures Valid()
      ensures trace == old(trace) + [Send(job, Slot(server, buffer))]
      ensures net == Next(old(net), Send(job, Slot(server, buffer)))
      ensures running == old(running)[job := Slot(server, buffer)] && |running| == |old(running)| + 1
    {
      hide Consistent, Safe, Legal, State, BitsMatch;
      SendKeeps(queue, queued, net, raw, active, running, buffers, job, Slot(server, buffer));
      SendEvaluation(job, buffer, server);
      running := running[job := Slot(server, buffer)];
    }

    /** File the result of a running job and drop it from the running map. */
    method ReceiveRemote(job: nat, buffer: nat, server: nat)
      requires Valid() && job in running && running[job] == Slot(server, buffer)
      modifies `trace, `net, `raw, `running
      ensures Valid()
      ensures trace == old(trace) + [Recv(job, Slot(server, buffer))]
      ensures net == Next(old(net), Recv(job, Slot(server, buffer)))
      ensures running == old(running) - {job} && |running| == |old(running)| - 1
      ensures raw == old(raw) + {job} && |raw| == |old(raw)| + 1
    {
      hide Safe, Legal, State, BitsMatch, Consistent;
      Facts();
      ReceiveKeeps(queue, queued, net, raw, active, running, buffers, job);
      ReceiveEvaluation(job, buffer, server);
      running := running - {job};
    }

    /** Launch a queued job and claim its "server" bit. */
    method LaunchQueued(job: nat)
      requires Valid() && job in queued && Fresh(net, job)
      requires concurrency == 0 || |active| < concurrency
      requires StaticLimited() ==> Residue(job, Modulus()) !in busy
      modifies `trace, `net, `active, `busy
      ensures Valid()
      ensures trace == old(trace) + [Launch(job)]
      ensures net == Next(old(net), Launch(job))
      ensures active == old(active) + {job} && |active| == |old(active)| + 1
      ensures OneEach()
      ensures StaticLimited() ==> busy == old(busy) + {Residue(job, Modulus())}
    {
      LaunchKeeps(queue, queued, net, raw, active, running, buffers, job);
      Facts();
      if StaticLimited() { ServerTaken(job); }
      hide SameServer;
      hide Consistent, Safe, Legal, State;
      if StaticLimited() {
        ResiduesAfterInsert(active, job, Modulus());
        busy := busy + {Residue(job, Modulus())};
      }
      LaunchAsynchLocal(job);
      ServersApart();
    }

    /** File the results of a set of active jobs. */
    method ProcessCompleted(completed: set<nat>)
      requires Valid() && completed <= active
      modifies `trace, `net, `active, `raw, `busy
      ensures Valid() && Locally(old(trace), trace)
      ensures active == old(active) - completed
      ensures net.remote == old(net.remote)
      ensures net.done == old(net.done) + completed && completed !! old(net.done)
      ensures completed == {} ==> net == old(net) && busy == old(busy)
      ensures Grows(old(net), net)
    {
      hide Consistent, Safe, Legal, State, BitsMatch, Grows, Locally;
      var todo := completed;
      GrowsSelf(net);
      LocallyOn(trace, trace, Complete(0));
      while todo != {}
        invariant Locally(old(trace), trace)
        invariant Valid() && todo <= completed && todo <= active
        invariant active == old(active) - (completed - todo)
        invariant net.remote == old(net.remote)
        invariant net.done == old(net.done) + (completed - todo) && completed - todo !! old(net.done)
        invariant todo == completed ==> net == old(net) && busy == old(busy)
        invariant Grows(old(net), net)
        decreases todo
      {
        var id := Least(todo);
        StepGrows(net, Complete(id));
        GrowsOn(old(net), net, Next(net, Complete(id)));
        LocallyOn(old(trace), trace, Complete(id));
        ProcessAsynchLocal(id);
        todo := todo - {id};
      }
    }

    /** test_local_backfill: file the local results that are in and, if there were
        any, launch pending jobs up to the concurrency limit.  `ready` is what
        test_local_evaluations reports. */
    method TestLocalBackfill(start: nat, ready: set<nat>) returns (pos: nat, completed: nat)
      requires Valid() && start <= |queue|
      modifies `trace, `net, `active, `raw, `busy
      ensures Valid() && pos <= |queue| && Locally(old(trace), trace)
      ensures net.done == old(net.done) + ready * old(active) && net.remote == old(net.remote)
      ensures completed == |net.done| - |old(net.done)|
      ensures Grows(old(net), net)
      ensures completed == 0 ==> pos == start && net == old(net) && busy == old(busy)
      ensures completed > 0
              ==> forall p | (if staticLocal && concurrency > 1 then 0 else start) <= p < pos ::
                  LeftBehind(queue[p], net)
      ensures completed > 0 ==>
                active == Served(old(active) - ready, queue[if staticLocal && concurrency > 1 then 0 else start..],
                                 net.done + net.remote.Keys, staticLocal, concurrency, concurrency * numServers)
      ensures OneEach()
      ensures completed > 0 && pos < |queue| ==> concurrency != 0 && |active| == concurrency
      ensures !StaticLimited() ==> start <= pos
    {
      hide EvalBookkeeping.Valid, EvalBookkeeping.LeftBehind, Grows, Locally, OneEach, Served;
      Facts();
      var done := ready * active;
      PollCounts(active, done, net.done);
      assert active - done == active - ready;
      ProcessCompleted(done);
      completed, pos := |done|, start;
      if completed > 0 {
        pos := Refill(if StaticLimited() then 0 else start, old(net), old(trace));
      }
      ServersApart();
    }

    /** Launch pending jobs after results came in. */
    method Refill(start: nat, ghost before: Net, ghost t: seq<Event>) returns (pos: nat)
      requires Valid() && start <= |queue| && (concurrency == 0 || |active| < concurrency)
      requires Grows(before, net) && Locally(t, trace)
      modifies `trace, `net, `active, `busy
      ensures Valid() && start <= pos <= |queue| && Grows(before, net) && Locally(t, trace)
      ensures net.done == old(net.done) && net.remote == old(net.remote)
      ensures forall p | start <= p < pos :: LeftBehind(queue[p], net)
      ensures pos < |queue| ==> concurrency != 0 && |active| == concurrency
      ensures active == Served(old(active), queue[start..], net.done + net.remote.Keys, staticLocal, concurrency,
                               concurrency * numServers)
    {
      hide EvalBookkeeping.Valid, EvalBookkeeping.LeftBehind, Grows, Locally, OneEach, Served;
      AllQueued();
      ghost var n, log := net, trace;
      pos := FillLocal(queue, start);
      LocallyTwice(t, log, trace);
      GrowsOn(before, n, net);
    }

    /** The launch loop of the local schedulers: walk a queue and launch what may be
        launched until the concurrency limit is reached. */
    method FillLocal(local: seq<nat>, start: nat) returns (pos: nat)
      requires Valid() && start <= |local| && (forall p | 0 <= p < |local| :: local[p] in queued)
      requires concurrency == 0 || |active| < concurrency
      modifies `trace, `net, `active, `busy
      ensures Valid() && start <= pos <= |local| && Locally(old(trace), trace)
      ensures old(active) <= active && net.done == old(net.done) && net.remote == old(net.remote)
      ensures Grows(old(net), net)
      ensures forall j | j in active && j !in old(active) :: j in local
      ensures forall p | start <= p < pos :: LeftBehind(local[p], net)
      ensures pos < |local| ==> concurrency != 0 && |active| == concurrency
      ensures active == Served(old(active), local[start..], net.done + net.remote.Keys, staticLocal, concurrency,
                               concurrency * numServers)
    {
      hide EvalBookkeeping.Valid, EvalBookkeeping.LeftBehind, Grows, Locally, SameServer, OneEach, Served, ServedOne;
      ActiveIsLocal();
      pos := start;
      GrowsSelf(net);
      LocallyOn(trace, trace, Launch(0));
      ghost var rest, gone, m := local[start..], net.done + net.remote.Keys, concurrency * numServers;
      ServedNext(active, rest, gone, staticLocal, concurrency, m, 0);
      while pos < |local|
        invariant Locally(old(trace), trace)
        invariant Valid() && start <= pos <= |local| && Grows(old(net), net)
        invariant concurrency == 0 || |active| < concurrency
        invariant old(active) <= active && net.done == old(net.done) && net.remote == old(net.remote)
        invariant forall j | j in active && j !in old(active) :: j in local
        invariant forall p | start <= p < pos :: LeftBehind(local[p], net)
        invariant net.local == active
        invariant active == Served(old(active), rest[..pos - start], gone, staticLocal, concurrency, m)
      {
        ghost var n, log := net, trace;
        ServedNext(old(active), rest, gone, staticLocal, concurrency, m, pos - start);
        Offer(local[pos]);
        StillLeftBehind(local, start, pos, n);
        LocallyTwice(old(trace), log, trace);
        GrowsOn(old(net), n, net);
        pos := pos + 1;
        if concurrency != 0 && |active| >= concurrency {
          ServedFull(old(active), rest, gone, staticLocal, concurrency, m, pos - start);
          return;
        }
      }
      ServedNext(old(active), rest, gone, staticLocal, concurrency, m, pos - start);
    }

    lemma StillLeftBehind(local: seq<nat>, start: nat, pos: nat, n: Net)
      requires start <= pos <= |local| && n.local <= net.local && n.done == net.done && n.remote == net.remote
      requires forall p | start <= p < pos :: LeftBehind(local[p], n)
      ensures forall p | start <= p < pos :: LeftBehind(local[p], net)
    {
      hide SameServer;
    }

    /** Launch one job unless it is placed, in, or its "server" is taken. */
    method Offer(id: nat)
      requires Valid() && id in queued && (concurrency == 0 || |active| < concurrency)
      modifies `trace, `net, `active, `busy
      ensures Valid() && Locally(old(trace), trace) && Grows(old(net), net)
      ensures net.done == old(net.done) && net.remote == old(net.remote) && LeftBehind(id, net)
      ensures net.local == active && old(net.local) == old(active) && old(active) <= active <= old(active) + {id}
      ensures active == ServedOne(old(active), id, net.done + net.remote.Keys, staticLocal, concurrency,
                                  concurrency * numServers)
      ensures concurrency == 0 || |active| <= concurrency
    {
      hide EvalBookkeeping.Valid, Grows, Locally, OneEach, SameServer;
      GrowsSelf(net);
      LocallyOn(trace, trace, Launch(id));
      StepGrows(net, Launch(id));
      WhetherLaunched(id, net.done + net.remote.Keys);
      if id !in active && id !in running && id !in raw && (!StaticLimited() || Residue(id, Modulus()) !in busy) {
        LaunchQueued(id);
        ActiveIsLocal();
      }
    }

    /** The test of the launch loop in terms of ids. */
    lemma WhetherLaunched(id: nat, gone: set<nat>)
      requires Valid() && id in queued && gone == net.done + net.remote.Keys
      ensures id !in active && id !in running && id !in raw <==> Fresh(net, id)
      ensures id in active || id in gone <==> !Fresh(net, id)
      ensures StaticLimited() ==>
                (Residue(id, Modulus()) in busy <==>
                   exists k :: k in active && SameServer(id, k, concurrency * numServers))
      ensures net.local == active
    {
      hide Consistent, Safe, Legal, State, BitsMatch, SameServer;
      Facts();
      PendingIsFresh(queue, queued, net, raw, active, running, buffers, id);
      if StaticLimited() { ServerTaken(id); }
    }

    /** test_receives_backfill: test every remotely running job once, file the
        results that are in, and give each freed slot to the next pending job.  The
        running map is only updated after the scan.  `ready` are the jobs whose results
        have arrived.

        Valid() afterwards says that the deferred update equals replacing the jobs
        one at a time. */
    method TestReceivesBackfill(start: nat, ready: set<nat>) returns (pos: nat, receives: nat)
      requires Valid() && start <= |queue|
      modifies `trace, `net, `raw, `running
      ensures Valid() && Relays(old(trace), trace)
      ensures start <= pos <= |queue|
      ensures Placed(queue, net, start, pos)
      ensures net.done == old(net.done) + ready * old(running).Keys
      ensures Grows(old(net), net)
      ensures receives == |net.done| - |old(net.done)|
      ensures Inherits(running, old(running), net.done)
      ensures |running| <= |old(running)|
      ensures pos < |queue| ==> |running| == |old(running)|
      ensures InTurn(old(trace), trace, queue, pos, {}) && Untouched(queue, old(net), net, pos)
    {
      hide *;
      var removals;
      ghost var origin;
      ConfiguredNow();
      pos, removals, origin := ScanArrivals(start, ready);
      receives := |removals|;
      ScanLeaves(old(net.done), removals, origin, pos, ready);
      ReplaceRunning(removals, net.remote, origin);
      ScannedValid();
    }

    /** The part of Valid() that the scan does not touch. */
    ghost predicate Configured()
      reads `limits, `busy, `active
    {
      && 1 <= numServers && limits.local == concurrency
      && limits.apart == (if staticLocal && concurrency > 1 then concurrency * numServers else 0)
      && (StaticLimited() ==> BitsMatch(busy, active, Modulus()))
    }

    lemma ConfiguredNow()
      requires Valid()
      ensures Configured()
    {}

    /** After the scan the true running map fits the other fields. */
    ghost predicate Scanned()
      reads `trace, `net, `limits, `busy, `active, `queue, `queued, `raw, `buffers
    {
      Traced() && Configured() && Consistent(queue, queued, net, raw, active, net.remote, buffers)
    }

    lemma ScannedValid()
      requires Scanned() && running == net.remote
      ensures Valid()
    {}

    lemma ScanLeaves(done: set<nat>, removals: map<nat, nat>, origin: map<nat, nat>, pos: nat, ready: set<nat>)
      requires Configured() && Scanning(done, removals, origin, pos) && Tested(removals, ready, running.Keys, {})
      ensures Scanned() && Deferred(running, net.remote, removals, origin) && Inherits(net.remote, running, net.done)
      ensures |net.remote| <= |running| && (pos < |queue| ==> |net.remote| == |running|)
      ensures net.done == done + ready * running.Keys && |net.done| == |done| + |removals|
    {
      hide Consistent, Inherits, ScanState, Safe, Legal, State, Deferred, Within, BitsMatch, Tested, Added;
      ScanEnds(limits, queue, queued, net, raw, active, running, buffers, done, removals, origin, pos);
      AllTested(net.done, done, removals, ready, running.Keys);
    }

    /** The scan itself: the running map stays as it was, replacements are noted. */
    method ScanArrivals(start: nat, ready: set<nat>)
      returns (pos: nat, removals: map<nat, nat>, ghost origin: map<nat, nat>)
      requires Valid() && start <= |queue|
      modifies `trace, `net, `raw
      ensures Relays(old(trace), trace)
      ensures start <= pos <= |queue| && Scanning(old(net.done), removals, origin, pos)
      ensures Tested(removals, ready, running.Keys, {}) && Grows(old(net), net) && Placed(queue, net, start, pos)
      ensures InTurn(old(trace), trace, queue, pos, {}) && Untouched(queue, old(net), net, pos)
    {
      hide Consistent, ScanState, Safe, Legal, State, Deferred, Within, BitsMatch, Grows, Placed, Tested, Relays,
        InTurn, Untouched;
      InTurnStarts(trace, queue, start, running.Keys);
      UntouchedSelf(queue, net, start);
      removals, origin, pos := map[], map[], start;
      var todo := running.Keys;
      ScanStarts(limits, queue, queued, net, raw, active, running, buffers, pos);
      NoneTested(ready, running.Keys);
      GrowsSelf(net);
      NonePlaced(queue, net, start);
      RelayNone(trace);
      while todo != {}
        invariant Relays(old(trace), trace)
        invariant start <= pos <= |queue| && Scanning(old(net.done), removals, origin, pos)
        invariant todo <= running.Keys && Tested(removals, ready, running.Keys, todo)
        invariant Grows(old(net), net) && Placed(queue, net, start, pos)
        invariant InTurn(old(trace), trace, queue, pos, todo) && Untouched(queue, old(net), net, pos)
        decreases todo
      {
        var id := Least(todo);
        TestNext(removals, ready, running.Keys, todo, id);
        InTurnLess(old(trace), trace, queue, pos, todo, id);
        ghost var left := todo;
        todo := todo - {id};
        if id in ready {
          ghost var n, mid, log := net, pos, trace;
          pos, removals, origin := TakeArrival(id, pos, old(net.done), removals, origin, old(trace), old(net), left);
          RelaysOn(old(trace), log, trace);
          GrowsOn(old(net), n, net);
          StaysPlaced(queue, n, net, start, mid);
          PlacedOn(queue, net, start, mid, pos);
        }
      }
    }

    ghost predicate Scanning(done: set<nat>, removals: map<nat, nat>, origin: map<nat, nat>, pos: nat)
      reads this
    {
      && Traced()
      && ScanOk(limits, queue, queued, net, raw, active, running, done, removals, origin, pos)
      && Within(running, buffers)
    }

    /** File the result of one job and pass its slot on. */
    method TakeArrival(id: nat, start: nat, ghost done: set<nat>, removals: map<nat, nat>, ghost origin: map<nat, nat>,
        ghost t: seq<Event>, ghost before: Net, ghost left: set<nat>)
      returns (pos: nat, removals': map<nat, nat>, ghost origin': map<nat, nat>)
      requires start <= |queue| && Scanning(done, removals, origin, start)
      requires id in running && id !in removals
      requires InTurn(t, trace, queue, start, left) && id in left && (forall j | j in left :: id <= j)
      requires Untouched(queue, before, net, start)
      modifies `trace, `net, `raw
      ensures InTurn(t, trace, queue, pos, left - {id}) && Untouched(queue, before, net, pos)
      ensures Relays(old(trace), trace)
      ensures start <= pos <= |queue| && Scanning(done, removals', origin', pos)
      ensures removals'.Keys == removals.Keys + {id}
      ensures |removals'| == |removals| + 1 && Grows(old(net), net)
      ensures Placed(queue, net, start, pos)
    {
      hide *;
      ScanAscends(done, removals, origin, start);
      ghost var n0, t0 := net, trace;
      FileArrival(id, start, done, removals, origin);
      ghost var n1 := net;
      var at := SeekPending(start, done, removals[id := 0], origin);
      InTurnReceives(t, t0, queue, start, at, left, id, running[id]);
      UntouchedByArrival(queue, before, n0, start, at, id, running[id]);
      pos, removals', origin' := PassOn(id, at, done, removals[id := 0], origin, start, t0, t, left - {id}, before);
      GrowsOn(n0, n1, net);
    }

    /** The slot of a job that is in goes to the job the iterator has come to, if there is one. */
    method PassOn(id: nat, at: nat, ghost done: set<nat>, removals: map<nat, nat>, ghost origin: map<nat, nat>,
        ghost start: nat, ghost t0: seq<Event>, ghost t: seq<Event>, ghost left: set<nat>, ghost before: Net)
      returns (pos: nat, removals': map<nat, nat>, ghost origin': map<nat, nat>)
      requires start <= at <= |queue| && Traced() && Within(running, buffers) && Ascending(queue)
      requires ScanState(limits, queue, queued, net, raw, active, running, done, removals, origin, at, 1)
      requires at == |queue| ==> ScanOk(limits, queue, queued, net, raw, active, running, done, removals, origin, at)
      requires id in running && id in removals && removals[id] == 0
      requires at < |queue| ==> queue[at] !in running && Enabled(limits, net, Send(queue[at], running[id]))
      requires trace == t0 + [Recv(id, running[id])] && InTurn(t, trace, queue, at, left)
      requires Placed(queue, net, start, at)
      requires Untouched(queue, before, net, at)
      requires at < |queue| ==> Untouched(queue, before, Next(net, Send(queue[at], running[id])), at + 1)
      modifies `trace, `net
      ensures at <= pos <= |queue| && Scanning(done, removals', origin', pos) && Placed(queue, net, start, pos)
      ensures removals'.Keys == removals.Keys && |removals'| == |removals| && Grows(old(net), net)
      ensures Relays(t0, trace) && InTurn(t, trace, queue, pos, left) && Untouched(queue, before, net, pos)
    {
      hide *;
      ghost var n, t1 := net, trace;
      if at < |queue| {
        removals', origin' := PassSlot(id, at, done, removals, origin);
        SlotPassed(t0, t1, t, left, id, at, start, n);
        pos := at + 1;
      } else {
        pos, removals', origin' := at, removals, origin;
        GrowsSelf(n);
        RelayOne(t0, id, running[id]);
        ScanGoesOn(done, removals, origin, at);
      }
    }

    /** Move the assign iterator to the next job that can be sent. */
    method SeekPending(start: nat, ghost done: set<nat>, ghost removals: map<nat, nat>, ghost origin: map<nat, nat>)
      returns (pos: nat)
      requires ScanState(limits, queue, queued, net, raw, active, running, done, removals, origin, start, 1)
      requires start <= |queue|
      ensures start <= pos <= |queue| && Placed(queue, net, start, pos)
      ensures ScanState(limits, queue, queued, net, raw, active, running, done, removals, origin, pos, 1)
      ensures pos == |queue| ==> ScanOk(limits, queue, queued, net, raw, active, running, done, removals, origin, pos)
      ensures pos < |queue| ==> Fresh(net, queue[pos]) && queue[pos] !in running
    {
      hide ScanState, ScanOk, Placed, Fresh;
      pos := NextPending(start);
      PassedOver(limits, queue, queued, net, raw, active, running, done, removals, origin, start, pos);
    }

    lemma SlotPassed(t0: seq<Event>, t1: seq<Event>, t: seq<Event>, left: set<nat>, id: nat, pos: nat, start: nat,
        n: Net)
      requires start <= pos < |queue| && id in running && t1 == t0 + [Recv(id, running[id])]
      requires trace == t1 + [Send(queue[pos], running[id])] && InTurn(t, t1, queue, pos, left) && Ascending(queue)
      requires Grows(n, net) && Placed(queue, n, start, pos) && !Fresh(net, queue[pos])
      ensures Relays(t0, trace) && InTurn(t, trace, queue, pos + 1, left) && Placed(queue, net, start, pos + 1)
    {
      hide InTurn, Relays, Ascending, Placed, Grows;
      RelayTwo(t0, t1, trace, id, queue[pos], running[id]);
      InTurnSends(t, t1, queue, pos, left, running[id]);
      StaysPlaced(queue, n, net, start, pos);
      PlacedNext(queue, net, start, pos);
    }

    lemma ScanAscends(done: set<nat>, removals: map<nat, nat>, origin: map<nat, nat>, pos: nat)
      requires Scanning(done, removals, origin, pos)
      ensures Ascending(queue)
    {}

    lemma ScanGoesOn(done: set<nat>, removals: map<nat, nat>, origin: map<nat, nat>, pos: nat)
      requires Traced() && Within(running, buffers)
      requires ScanOk(limits, queue, queued, net, raw, active, running, done, removals, origin, pos)
      ensures Scanning(done, removals, origin, pos)
    {}

    /** File the result of one job; its slot is open for any fresh job. */
    method FileArrival(id: nat, ghost pos: nat, ghost done: set<nat>, ghost removals: map<nat, nat>,
        ghost origin: map<nat, nat>)
      requires pos <= |queue| && Scanning(done, removals, origin, pos) && id in running && id !in removals
      modifies `trace, `net, `raw
      ensures Traced() && Within(running, buffers) && trace == old(trace) + [Recv(id, running[id])]
      ensures net == Next(old(net), Recv(id, running[id])) && id in old(net).remote
      ensures ScanState(limits, queue, queued, net, raw, active, running, done, removals[id := 0], origin, pos, 1)
      ensures |removals[id := 0]| == |removals| + 1 && removals[id := 0].Keys == removals.Keys + {id}
      ensures Grows(old(net), net)
      ensures forall next | Fresh(net, next) :: Enabled(limits, net, Send(next, running[id]))
    {
      hide ScanState, Legal, State, Safe, Grows, Enabled, Next, Fresh;
      ghost var n := net;
      var slot := running[id];
      ArrivalIn(limits, queue, queued, n, raw, active, running, done, removals, origin, pos, id);
      StepGrows(n, Recv(id, slot));
      forall next | Fresh(Next(n, Recv(id, slot)), next)
        ensures Enabled(limits, Next(n, Recv(id, slot)), Send(next, slot))
      {
        SlotPassesOn(limits, n, id, slot, next);
      }
      ReceiveEvaluation(id, slot.buffer, slot.server);
    }

    /** Give the slot of a job that is in to the next pending job. */
    method PassSlot(id: nat, pos: nat, ghost done: set<nat>, removals: map<nat, nat>, ghost origin: map<nat, nat>)
      returns (removals': map<nat, nat>, ghost origin': map<nat, nat>)
      requires pos < |queue| && Traced() && Within(running, buffers)
      requires ScanState(limits, queue, queued, net, raw, active, running, done, removals, origin, pos, 1)
      requires id in running && id in removals && removals[id] == 0 && queue[pos] !in running
      requires Enabled(limits, net, Send(queue[pos], running[id]))
      modifies `trace, `net
      ensures trace == old(trace) + [Send(queue[pos], running[id])]
      ensures net == Next(old(net), Send(queue[pos], running[id]))
      ensures Scanning(done, removals', origin', pos + 1)
      ensures removals'.Keys == removals.Keys && |removals'| == |removals|
      ensures Grows(old(net), net) && !Fresh(net, queue[pos])
    {
      hide ScanState, Deferred, Legal, State, Safe, Ascending, Lists, Recorded, Grows, Load, BufferFree;
      var next, slot := queue[pos], running[id];
      SlotRefilled(limits, queue, queued, net, raw, active, running, done, removals, origin, pos, id);
      StepGrows(net, Send(next, slot));
      SendEvaluation(next, slot.buffer, slot.server);
      removals', origin' := removals[id := next], origin[next := id];
    }

    /** The first job at or after pos that is neither running, active nor in. */
    method NextPending(start: nat) returns (pos: nat)
      requires start <= |queue|
      ensures start <= pos <= |queue|
      ensures forall p | start <= p < pos :: queue[p] in running || queue[p] in active || queue[p] in raw
      ensures pos < |queue| ==> queue[pos] !in running && queue[pos] !in active && queue[pos] !in raw
    {
      pos := start;
      while pos < |queue| && (queue[pos] in running || queue[pos] in active || queue[pos] in raw)
        invariant start <= pos <= |queue|
        invariant forall p | start <= p < pos :: queue[p] in running || queue[p] in active || queue[p] in raw
      {
        pos := pos + 1;
      }
    }

    /** The deferred update of the running map at the end of test_receives_backfill. */
    method ReplaceRunning(removals: map<nat, nat>, ghost now: map<nat, Slot>, ghost origin: map<nat, nat>)
      requires Deferred(running, now, removals, origin)
      modifies `running
      ensures running == now
    {
      var left := removals;
      ghost var o := origin;
      while left.Keys != {}
        invariant Deferred(running, now, left, o)
        decreases left.Keys
      {
        var id := Least(left.Keys);
        SettleOne(running, now, left, o, id);
        if left[id] != 0 {
          running := running[left[id] := running[id]];
          o := o - {left[id]};
        }
        running := running - {id};
        left := left - {id};
      }
      NothingDeferred(running, now, o);
    }
  }
}
