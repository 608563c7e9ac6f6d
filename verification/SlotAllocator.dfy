/**
  Buffer numbering of the nonblocking message-passing schedulers: server s owns the
  c buffers [(s-1)c, sc), jobs go to the least loaded server, and the first free
  buffer of that server is used.
 */
module SlotAllocator {
  import opened Common
  import opened SlotProtocol

  ghost predicate InStratum(slot: Slot, c: nat) {
    1 <= slot.server && (slot.server - 1) * c <= slot.buffer < slot.server * c
  }

  ghost predicate Strata(remote: map<nat, Slot>, c: nat) {
    forall j | j in remote :: InStratum(remote[j], c)
  }

  lemma StrataAreDisjoint(s: Slot, t: Slot, c: nat)
    requires InStratum(s, c) && InStratum(t, c) && s.buffer == t.buffer
    ensures s.server == t.server
  {
    MulMonotone(s.server, t.server - 1, c);
    MulMonotone(t.server, s.server - 1, c);
  }

  lemma StrataInherited(now: map<nat, Slot>, before: map<nat, Slot>, c: nat)
    requires now.Values <= before.Values && Strata(before, c)
    ensures Strata(now, c)
  {
    forall j | j in now ensures InStratum(now[j], c) {
      assert now[j] in now.Values;
    }
  }

  /** The buffers a server's running jobs occupy. */
  function ServerBuffers(remote: map<nat, Slot>, s: nat): set<nat> {
    set j | j in remote && remote[j].server == s :: remote[j].buffer
  }

  lemma {:induction false} BuffersCount(remote: map<nat, Slot>, s: nat)
    requires Injective(remote)
    ensures |ServerBuffers(remote, s)| == Load(remote, s)
  {
    CountImage(remote, AtServer(remote, s));
    assert ServerBuffers(remote, s) == set j | j in AtServer(remote, s) :: remote[j].buffer;
  }

  lemma {:induction false} CountImage(remote: map<nat, Slot>, jobs: set<nat>)
    requires Injective(remote) && jobs <= remote.Keys
    ensures |set j | j in jobs :: remote[j].buffer| == |jobs|
  {
    var image := set j | j in jobs :: remote[j].buffer;
    if jobs == {} {
      assert image == {};
    } else {
      var k :| k in jobs;
      var rest := set j | j in jobs - {k} :: remote[j].buffer;
      CountImage(remote, jobs - {k});
      assert image == rest + {remote[k].buffer};
      assert remote[k].buffer !in rest;
    }
  }

  lemma StratumBuffers(remote: map<nat, Slot>, s: nat, c: nat)
    requires Strata(remote, c) && 1 <= s
    ensures forall b | b in ServerBuffers(remote, s) :: (s - 1) * c <= b < s * c
  {}

  /** A server never holds more jobs than it owns buffers. */
  lemma StratumLoad(remote: map<nat, Slot>, s: nat, c: nat)
    requires Injective(remote) && Strata(remote, c) && 1 <= s
    ensures Load(remote, s) <= c
  {
    StratumBuffers(remote, s, c);
    assert s * c == (s - 1) * c + c;
    RangeSize(ServerBuffers(remote, s), (s - 1) * c, s * c);
    BuffersCount(remote, s);
  }

  /** A free buffer in a server's stratum means room on that server, so sending
      through it follows the protocol. */
  lemma FreeBufferMeansRoom(lim: Limits, n: Net, j: nat, slot: Slot, c: nat)
    requires Safe(lim, n) && Strata(n.remote, c) && InStratum(slot, c)
    requires c <= lim.load && slot.server <= lim.servers
    requires Fresh(n, j) && BufferFree(n.remote, slot.buffer)
    ensures Enabled(lim, n, Send(j, slot))
    ensures Strata(n.remote[j := slot], c)
  {
    var after := n.remote[j := slot];
    assert Injective(after);
    StratumLoad(after, slot.server, c);
    LoadAfterInsert(n.remote, j, slot, slot.server);
  }

  /** Jobs on the first k servers. */
  function Upto(remote: map<nat, Slot>, k: nat): set<nat> {
    set j | j in remote && 1 <= remote[j].server <= k
  }

  /** Pigeonhole: if each of k servers holds c jobs, at least kc jobs are running. */
  lemma {:induction false} FullServers(remote: map<nat, Slot>, k: nat, c: nat)
    requires forall s | 1 <= s <= k :: Load(remote, s) >= c
    ensures |Upto(remote, k)| >= k * c
  {
    hide Upto, Load;
    if k > 0 {
      FullServers(remote, k - 1, c);
      OneMoreServer(remote, k);
      NextMultiple(k, c);
      assert Load(remote, k) >= c;
    } else {
      assert 0 * c == 0;
    }
  }

  lemma {:induction false} AtMostFull(remote: map<nat, Slot>, k: nat, c: nat)
    requires forall s | 1 <= s <= k :: Load(remote, s) <= c
    ensures |Upto(remote, k)| <= k * c
  {
    hide Upto, Load;
    if k > 0 {
      AtMostFull(remote, k - 1, c);
      OneMoreServer(remote, k);
      NextMultiple(k, c);
      assert Load(remote, k) <= c;
    } else {
      NoServers(remote);
    }
  }

  lemma NoServers(remote: map<nat, Slot>)
    ensures |Upto(remote, 0)| == 0
  {
    assert Upto(remote, 0) == {};
  }

  lemma OneMoreServer(remote: map<nat, Slot>, k: nat)
    requires k > 0
    ensures |Upto(remote, k)| == |Upto(remote, k - 1)| + Load(remote, k)
  {
    assert Upto(remote, k) == Upto(remote, k - 1) + AtServer(remote, k);
    assert Upto(remote, k - 1) !! AtServer(remote, k);
  }

  lemma NextMultiple(k: nat, c: nat)
    requires k > 0
    ensures k * c == (k - 1) * c + c
  {}

  /** When kc jobs fill k servers of c places each, every server is full. */
  lemma {:induction false} AllFull(remote: map<nat, Slot>, k: nat, c: nat, m: nat)
    requires forall s | 1 <= s <= k :: Load(remote, s) <= c
    requires |Upto(remote, k)| >= k * c && 1 <= m <= k
    ensures Load(remote, m) == c
  {
    hide Upto, Load;
    AtMostFull(remote, k - 1, c);
    OneMoreServer(remote, k);
    NextMultiple(k, c);
    assert Load(remote, k) <= c;
    if m < k {
      AllFull(remote, k - 1, c, m);
    }
  }

  /** In a safe state no more jobs run than the servers have room for. */
  lemma CapacityBound(lim: Limits, n: Net)
    requires Safe(lim, n)
    ensures |n.remote| <= lim.servers * lim.load
  {
    AtMostFull(n.remote, lim.servers, lim.load);
    assert Upto(n.remote, lim.servers) == n.remote.Keys;
  }

  /** With fewer than kc jobs running, the least loaded of k servers has room. */
  lemma LeastLoadedHasRoom(remote: map<nat, Slot>, k: nat, c: nat, m: nat)
    requires (forall j | j in remote :: 1 <= remote[j].server <= k)
    requires |remote| < k * c && 1 <= m <= k
    requires forall s | 1 <= s <= k :: Load(remote, m) <= Load(remote, s)
    ensures Load(remote, m) < c
  {
    assert Upto(remote, k) == remote.Keys;
    if Load(remote, m) >= c {
      FullServers(remote, k, c);
    }
  }

  /** The search for the server with the fewest jobs; it stops at an idle one. */
  method LeastLoaded(jobs: seq<set<nat>>) returns (m: nat)
    requires |jobs| > 0
    ensures m < |jobs|
    ensures forall s | 0 <= s < |jobs| :: |jobs[m]| <= |jobs[s]| && (s < m ==> |jobs[m]| < |jobs[s]|)
  {
    m := 0;
    var minLoad := |jobs[0]|;
    var s := 1;
    while s < |jobs|
      invariant 1 <= s <= |jobs| && m < s && minLoad == |jobs[m]|
      invariant forall t | 0 <= t < s :: minLoad <= |jobs[t]| && (t < m ==> minLoad < |jobs[t]|)
    {
      if minLoad == 0 { return; }
      if |jobs[s]| < minLoad { m, minLoad := s, |jobs[s]|; }
      s := s + 1;
    }
  }

  predicate IsFirstFree(used: set<nat>, lo: int, hi: int, buffer: nat) {
    lo <= buffer < hi && buffer !in used && forall b | lo <= b < buffer :: b in used
  }

  /** The search for the first free buffer of a server.  `avail` false is where the
      source aborts. */
  method FirstFree(used: set<nat>, lo: nat, hi: nat) returns (buffer: nat, avail: bool)
    requires lo <= hi
    ensures avail ==> IsFirstFree(used, lo, hi, buffer)
    ensures !avail ==> forall b | lo <= b < hi :: b in used
  {
    buffer, avail := lo, false;
    while buffer < hi
      invariant lo <= buffer <= hi && !avail
      invariant forall b | lo <= b < buffer :: b in used
    {
      if buffer !in used {
        avail := true;
        return;
      }
      buffer := buffer + 1;
    }
  }

  /** A set that covers a range is at least as large. */
  lemma {:induction false} Covers(used: set<nat>, lo: nat, hi: nat)
    requires lo <= hi && forall b | lo <= b < hi :: b in used
    ensures |used| >= hi - lo
    decreases hi - lo
  {
    if lo < hi {
      Covers(used - {hi - 1}, lo, hi - 1);
    }
  }

  lemma ServerBuffersInsert(remote: map<nat, Slot>, j: nat, slot: Slot, s: nat)
    requires j !in remote
    ensures ServerBuffers(remote[j := slot], s) ==
            ServerBuffers(remote, s) + (if slot.server == s then {slot.buffer} else {})
  {
    var after := remote[j := slot];
    forall b | b in ServerBuffers(remote, s) ensures b in ServerBuffers(after, s) {
      var k :| k in remote && remote[k].server == s && remote[k].buffer == b;
      assert after[k] == remote[k];
    }
    if slot.server == s {
      assert after[j] == slot;
    }
  }
}
