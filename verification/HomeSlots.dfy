/**
  Buffer numbering of the blocking schedulers: with k servers, buffer b always talks
  to server b % k + 1.
 */
module HomeSlots {
  import opened SlotProtocol
  import opened SlotAllocator
  import opened NowaitPlacement

  function HomeSlot(b: nat, k: nat): Slot
    requires k > 0
  {
    Slot(b % k + 1, b)
  }

  ghost predicate AtHome(remote: map<nat, Slot>, k: nat)
    requires k > 0
  {
    forall j | j in remote :: remote[j] == HomeSlot(remote[j].buffer, k)
  }

  /** A server has c of the kc buffers.  The proof renumbers the buffers so that each
      server's lie next to each other. */
  lemma HomeLoad(remote: map<nat, Slot>, k: nat, c: nat, s: nat)
    requires 0 < k && AtHome(remote, k) && Injective(remote) && 1 <= s
    requires forall j | j in remote :: remote[j].buffer < k * c
    ensures Load(remote, s) <= c
  {
    var moved := map j | j in remote :: RoundRobinSlot(remote[j].buffer, k, c);
    assert AtServer(moved, s) == AtServer(remote, s);
    forall j | j in moved ensures InStratum(moved[j], c) {
      RoundRobinInStratum(remote[j].buffer, k, c);
    }
    forall i, j | i in moved && j in moved && moved[i].buffer == moved[j].buffer ensures i == j {
      RoundRobinInjective(remote[i].buffer, remote[j].buffer, k, c);
    }
    StratumLoad(moved, s, c);
  }

  /** A free buffer means room on its server. */
  lemma FreeHomeMeansRoom(lim: Limits, n: Net, j: nat, b: nat, buffers: nat, c: nat)
    requires Safe(lim, n) && 0 < lim.servers && lim.load == c && AtHome(n.remote, lim.servers)
    requires (forall j | j in n.remote :: n.remote[j].buffer < buffers) && b < buffers <= lim.servers * c
    requires Fresh(n, j) && BufferFree(n.remote, b)
    ensures Enabled(lim, n, Send(j, HomeSlot(b, lim.servers)))
    ensures AtHome(n.remote[j := HomeSlot(b, lim.servers)], lim.servers)
  {
    var slot := HomeSlot(b, lim.servers);
    var after := n.remote[j := slot];
    assert Injective(after);
    HomeLoad(after, lim.servers, c, slot.server);
    LoadAfterInsert(n.remote, j, slot, slot.server);
  }

  lemma HomeInherited(now: map<nat, Slot>, before: map<nat, Slot>, k: nat)
    requires 0 < k && now.Values <= before.Values && AtHome(before, k)
    ensures AtHome(now, k)
  {
    forall j | j in now ensures now[j] == HomeSlot(now[j].buffer, k) {
      assert now[j] in now.Values;
    }
  }
}
