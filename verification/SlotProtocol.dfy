/**
  The abstract protocol that every evaluation scheduler has to follow.

  A run is a sequence of events: a job is sent to a server through a message
  buffer, its result is received from that buffer, or the job is launched and
  completed on the scheduling processor itself.  `Legal` says which sequences
  are safe; the lemmas say what safety buys over a whole run.
 */
module SlotProtocol {
  import opened Common

  /** The server a job was sent to and the message buffer its result arrives in. */
  datatype Slot = Slot(server: nat, buffer: nat)

  datatype Event =
    | Send(job: nat, slot: Slot)
    | Recv(job: nat, slot: Slot)
    | Launch(job: nat)
    | Complete(job: nat)

  /** Number of servers, jobs one server may hold, local jobs (0: no limit), and local
      "servers" that jobs are assigned to by id (0: no static assignment). */
  datatype Limits = Limits(servers: nat, load: nat, local: nat, apart: nat)

  datatype Net = Net(remote: map<nat, Slot>, local: set<nat>, done: set<nat>)

  function AtServer(remote: map<nat, Slot>, s: nat): set<nat> {
    set j | j in remote && remote[j].server == s
  }

  function Load(remote: map<nat, Slot>, s: nat): nat {
    |AtServer(remote, s)|
  }

  ghost predicate BufferFree(remote: map<nat, Slot>, b: nat) {
    forall j | j in remote :: remote[j].buffer != b
  }

  predicate Fresh(n: Net, j: nat) {
    j !in n.remote && j !in n.local && j !in n.done
  }

  /** Two jobs share a local "server": their ids differ by a multiple of the number of local
      "servers" of all processors together. */
  ghost predicate SameServer(j: nat, k: nat, servers: int) {
    servers > 0 && (if j >= k then j - k else k - j) % servers == 0
  }

  ghost predicate Enabled(lim: Limits, n: Net, e: Event) {
    match e
    case Send(j, slot) =>
      && Fresh(n, j)
      && 1 <= slot.server <= lim.servers
      && Load(n.remote, slot.server) < lim.load
      && BufferFree(n.remote, slot.buffer)
    case Recv(j, slot) => j in n.remote && n.remote[j] == slot
    case Launch(j) =>
      && Fresh(n, j) && (lim.local == 0 || |n.local| < lim.local)
      && forall k | k in n.local :: !SameServer(j, k, lim.apart)
    case Complete(j) => j in n.local
  }

  function Next(n: Net, e: Event): Net {
    match e
    case Send(j, slot) => n.(remote := n.remote[j := slot])
    case Recv(j, _) => n.(remote := n.remote - {j}, done := n.done + {j})
    case Launch(j) => n.(local := n.local + {j})
    case Complete(j) => n.(local := n.local - {j}, done := n.done + {j})
  }

  function State(t: seq<Event>): Net {
    if t == [] then Net(map[], {}, {}) else Next(State(t[..|t|-1]), t[|t|-1])
  }

  ghost predicate Legal(lim: Limits, t: seq<Event>) {
    forall i | 0 <= i < |t| :: Enabled(lim, State(t[..i]), t[i])
  }

  /** What a safe protocol state looks like. */
  ghost predicate Safe(lim: Limits, n: Net) {
    && n.remote.Keys !! n.local && n.remote.Keys !! n.done && n.local !! n.done
    && Injective(n.remote)
    && (forall j | j in n.remote :: 1 <= n.remote[j].server <= lim.servers)
    && (forall s: nat :: Load(n.remote, s) <= lim.load)
    && (lim.local != 0 ==> |n.local| <= lim.local)
    && Apart(n.local, lim.apart)
  }

  ghost predicate Injective(remote: map<nat, Slot>) {
    forall j, k | j in remote && k in remote && remote[j].buffer == remote[k].buffer :: j == k
  }

  lemma LoadAfterInsert(remote: map<nat, Slot>, j: nat, slot: Slot, s: nat)
    requires j !in remote
    ensures Load(remote[j := slot], s) == Load(remote, s) + (if slot.server == s then 1 else 0)
  {
    var r := remote[j := slot];
    if slot.server == s {
      assert AtServer(r, s) == AtServer(remote, s) + {j};
    } else {
      assert AtServer(r, s) == AtServer(remote, s);
    }
  }

  lemma LoadAfterRemove(remote: map<nat, Slot>, j: nat, s: nat)
    requires j in remote
    ensures Load(remote - {j}, s) == Load(remote, s) - (if remote[j].server == s then 1 else 0)
  {
    var r := remote - {j};
    if remote[j].server == s {
      assert AtServer(r, s) == AtServer(remote, s) - {j};
    } else {
      assert AtServer(r, s) == AtServer(remote, s);
    }
  }

  /** No two local jobs belong to one local "server". */
  ghost predicate Apart(local: set<nat>, servers: nat) {
    forall j, k | j in local && k in local && j != k :: !SameServer(j, k, servers)
  }

  lemma StillApart(local: set<nat>, j: nat, servers: nat)
    requires Apart(local, servers)
    ensures Apart(local - {j}, servers)
    ensures (forall k | k in local :: !SameServer(j, k, servers)) ==> Apart(local + {j}, servers)
  {
    hide SameServer;
    forall k { SameBothWays(j, k, servers); }
  }

  lemma SameBothWays(j: nat, k: nat, servers: int)
    ensures SameServer(j, k, servers) == SameServer(k, j, servers)
  {}

  /** One enabled event keeps the state safe. */
  lemma StepSafe(lim: Limits, n: Net, e: Event)
    requires Safe(lim, n) && Enabled(lim, n, e)
    ensures Safe(lim, Next(n, e))
  {
    hide SameServer, Apart;
    StillApart(n.local, e.job, lim.apart);
    match e
    case Send(j, slot) =>
      forall s: nat ensures Load(Next(n, e).remote, s) <= lim.load {
        LoadAfterInsert(n.remote, j, slot, s);
      }
    case Recv(j, slot) =>
      forall s: nat ensures Load(Next(n, e).remote, s) <= lim.load {
        LoadAfterRemove(n.remote, j, s);
      }
    case Launch(j) =>
    case Complete(j) =>
  }

  lemma RemoteIsNotDone(lim: Limits, n: Net, id: nat)
    requires Safe(lim, n) && id in n.remote
    ensures id !in n.done && id !in n.local
  {}

  lemma LocalIsNotDone(lim: Limits, n: Net, id: nat)
    requires Safe(lim, n) && id in n.local
    ensures id !in n.done && id !in n.remote
  {}

  /** The slot of a job whose result came in can be given to any fresh job. */
  lemma SlotPasses(lim: Limits, n: Net, id: nat, next: nat)
    requires Safe(lim, n) && id in n.remote
    requires Fresh(Next(n, Recv(id, n.remote[id])), next)
    ensures Enabled(lim, Next(n, Recv(id, n.remote[id])), Send(next, n.remote[id]))
  {
    LoadAfterRemove(n.remote, id, n.remote[id].server);
  }

  lemma ExtendLegal(lim: Limits, t: seq<Event>, e: Event)
    requires Legal(lim, t) && Enabled(lim, State(t), e)
    ensures Legal(lim, t + [e]) && State(t + [e]) == Next(State(t), e)
  {
    var u := t + [e];
    assert u[..|u|-1] == t;
    forall i | 0 <= i < |u| ensures Enabled(lim, State(u[..i]), u[i]) {
      if i < |t| {
        assert u[..i] == t[..i];
      }
    }
  }

  lemma EmptySafe(lim: Limits)
    ensures Safe(lim, State([]))
  {
    forall s: nat ensures Load(State([]).remote, s) == 0 {
      assert AtServer(State([]).remote, s) == {};
    }
  }

  /** Every state a legal run passes through is safe: no two running jobs share a
      buffer, no server holds more than its load, no job is in two places. */
  lemma {:induction false} LegalRunsAreSafe(lim: Limits, t: seq<Event>, i: nat)
    requires Legal(lim, t) && i <= |t|
    ensures Safe(lim, State(t[..i]))
  {
    hide Safe, Next;
    if i == 0 {
      EmptySafe(lim);
    } else {
      LegalRunsAreSafe(lim, t, i - 1);
      assert t[..i][..i-1] == t[..i-1];
      StepSafe(lim, State(t[..i-1]), t[i-1]);
    }
  }

  predicate IsStart(e: Event) { e.Send? || e.Launch? }

  predicate IsEnd(e: Event) { e.Recv? || e.Complete? }

  predicate Matches(start: Event, end: Event) {
    && start.job == end.job
    && (match start
        case Send(_, slot) => end == Recv(end.job, slot)
        case Launch(_) => end.Complete?
        case _ => false)
  }

  /** The jobs whose results came back, in the order they came back. */
  function Completions(t: seq<Event>): seq<nat> {
    if t == [] then []
    else
      var e := t[|t|-1];
      Completions(t[..|t|-1]) + (if IsEnd(e) then [e.job] else [])
  }

  /** The jobs handed out, in the order they were handed out. */
  function Starts(t: seq<Event>): seq<nat> {
    if t == [] then []
    else
      var e := t[|t|-1];
      Starts(t[..|t|-1]) + (if IsStart(e) then [e.job] else [])
  }

  /** Conservation: no job is handed out twice, and the jobs handed out are exactly
      the ones that are running or done. */
  lemma {:induction false} StartsAreRunningOrDone(lim: Limits, t: seq<Event>)
    requires Legal(lim, t)
    ensures Distinct(Starts(t))
    ensures forall j :: j in Starts(t) <==> !Fresh(State(t), j)
  {
    hide Legal, Enabled, Next;
    if t != [] {
      var u, e := t[..|t|-1], t[|t|-1];
      LastEvent(lim, t);
      StartsAreRunningOrDone(lim, u);
      StartsNext(lim, State(u), e, Starts(u));
    }
  }

  lemma StartsNext(lim: Limits, n: Net, e: Event, starts: seq<nat>)
    requires Enabled(lim, n, e) && Distinct(starts) && forall j :: j in starts <==> !Fresh(n, j)
    ensures var more := starts + (if IsStart(e) then [e.job] else []);
            Distinct(more) && forall j :: j in more <==> !Fresh(Next(n, e), j)
  {}

  lemma LegalPrefix(lim: Limits, t: seq<Event>, k: nat)
    requires Legal(lim, t) && k <= |t|
    ensures Legal(lim, t[..k])
  {
    forall i | 0 <= i < k ensures Enabled(lim, State(t[..k][..i]), t[..k][i]) {
      assert t[..k][..i] == t[..i];
    }
  }

  lemma LastEvent(lim: Limits, t: seq<Event>)
    requires Legal(lim, t) && t != []
    ensures Legal(lim, t[..|t|-1]) && Enabled(lim, State(t[..|t|-1]), t[|t|-1])
  {
    LegalPrefix(lim, t, |t| - 1);
  }

  /** A result is received only after its job was started, and from the slot the
      job was sent through. */
  lemma {:induction false} EndMatchesStart(lim: Limits, t: seq<Event>, k: nat)
    requires Legal(lim, t) && k < |t| && IsEnd(t[k])
    ensures exists i :: 0 <= i < k && Matches(t[i], t[k])
  {
    assert Enabled(lim, State(t[..k]), t[k]);
    LegalPrefix(lim, t, k);
    var i := FindStart(lim, t[..k], t[k]);
    assert t[..k][i] == t[i];
  }

  lemma {:induction false} FindStart(lim: Limits, t: seq<Event>, e: Event) returns (i: nat)
    requires Legal(lim, t) && IsEnd(e) && Enabled(lim, State(t), e)
    ensures i < |t| && Matches(t[i], e)
    decreases |t|
  {
    hide Legal, Enabled, Matches;
    NothingToEnd(lim, t, e);
    var u, last := t[..|t|-1], t[|t|-1];
    if Matches(last, e) {
      i := |t| - 1;
    } else {
      LegalPrefix(lim, t, |t| - 1);
      StartedBefore(lim, State(u), last, e);
      i := FindStart(lim, u, e);
      assert u[i] == t[i];
    }
  }

  lemma NothingToEnd(lim: Limits, t: seq<Event>, e: Event)
    requires IsEnd(e) && Enabled(lim, State(t), e)
    ensures t != []
  {}

  /** An event other than the start of a job leaves the job's end as enabled as before. */
  lemma StartedBefore(lim: Limits, n: Net, last: Event, e: Event)
    requires IsEnd(e) && Enabled(lim, Next(n, last), e) && !Matches(last, e)
    ensures Enabled(lim, n, e)
  {}

  /** Each result comes back exactly once: the completion log lists the done jobs
      without repetition. */
  lemma {:induction false} CompletionsAreDone(lim: Limits, t: seq<Event>)
    requires Legal(lim, t)
    ensures Distinct(Completions(t))
    ensures forall j :: j in Completions(t) <==> j in State(t).done
  {
    hide Legal, Enabled, Safe, Next;
    if t != [] {
      var u, e := t[..|t|-1], t[|t|-1];
      LastEvent(lim, t);
      CompletionsAreDone(lim, u);
      LegalRunsAreSafe(lim, u, |u|);
      assert u[..|u|] == u;
      CompletionsNext(lim, State(u), e, Completions(u));
    }
  }

  lemma CompletionsNext(lim: Limits, n: Net, e: Event, done: seq<nat>)
    requires Safe(lim, n) && Enabled(lim, n, e) && Distinct(done) && forall j :: j in done <==> j in n.done
    ensures var more := done + (if IsEnd(e) then [e.job] else []);
            Distinct(more) && forall j :: j in more <==> j in Next(n, e).done
  {}

  /** What is done stays done, a job that was started is still under way or done, and a job
      that still runs remotely has kept its slot. */
  ghost predicate GoesOn(n: Net, n': Net) {
    && n.done <= n'.done && n.local <= n'.local + n'.done
    && (forall j | j in n.remote :: j in n'.done || (j in n'.remote && n'.remote[j] == n.remote[j]))
  }

  lemma EventGoesOn(lim: Limits, n: Net, u: Net, e: Event)
    requires GoesOn(n, u) && Enabled(lim, u, e)
    ensures GoesOn(n, Next(u, e))
  {
    hide Load, BufferFree;
  }

  /** A run that goes on: its log only grows, so what was handed out is not handed out again
      and no result is filed twice, and its state goes on. */
  lemma {:induction false} RunsContinue(lim: Limits, t: seq<Event>, t': seq<Event>)
    requires Legal(lim, t') && t <= t'
    ensures Legal(lim, t) && Starts(t) <= Starts(t') && Completions(t) <= Completions(t')
    ensures GoesOn(State(t), State(t'))
    decreases |t'|
  {
    hide GoesOn, Enabled, Next, Legal;
    if t == t' {
      GoesOnSelf(State(t));
    } else {
      var u := t'[..|t'|-1];
      assert t <= u;
      LastEvent(lim, t');
      RunsContinue(lim, t, u);
      EventGoesOn(lim, State(t), State(u), t'[|t'|-1]);
    }
  }

  lemma GoesOnSelf(n: Net)
    ensures GoesOn(n, n)
  {}

  /** From one run to a longer one every send passes on the slot of the receipt just
      before it, and nothing is launched or completed locally. */
  predicate Relays(t: seq<Event>, t': seq<Event>) {
    && t <= t'
    && forall i | |t| <= i < |t'| ::
         t'[i].Recv? || (t'[i].Send? && i > |t| && t'[i - 1].Recv? && t'[i - 1].slot == t'[i].slot)
  }

  lemma RelaysOn(t: seq<Event>, t': seq<Event>, t'': seq<Event>)
    requires Relays(t, t') && Relays(t', t'')
    ensures Relays(t, t'')
  {}

  /** From one run to a longer one jobs are only launched and completed locally. */
  predicate Locally(t: seq<Event>, t': seq<Event>) {
    t <= t' && forall i | |t| <= i < |t'| :: t'[i].Launch? || t'[i].Complete?
  }

  lemma LocallyOn(t: seq<Event>, t': seq<Event>, e: Event)
    ensures Locally(t, t)
    ensures Locally(t, t') && (e.Launch? || e.Complete?) ==> Locally(t, t' + [e])
  {}

  lemma LocallyExtends(t: seq<Event>, t': seq<Event>)
    requires Locally(t, t')
    ensures t <= t'
  {}

  lemma LocallyTwice(t: seq<Event>, t': seq<Event>, t'': seq<Event>)
    requires Locally(t, t') && Locally(t', t'')
    ensures Locally(t, t'')
  {}

  /** From one run to a longer one every send passes on the slot of the receipt just
      before it. */
  predicate Reuses(t: seq<Event>, t': seq<Event>) {
    && t <= t'
    && forall i | |t| <= i < |t'| && t'[i].Send? :: i > |t| && t'[i - 1].Recv? && t'[i - 1].slot == t'[i].slot
  }

  /** From one run to a longer one nothing more is sent. */
  predicate NoSends(t: seq<Event>, t': seq<Event>) {
    t <= t' && forall i | |t| <= i < |t'| :: !t'[i].Send?
  }

  lemma NoSendsOn(t: seq<Event>, t': seq<Event>, t'': seq<Event>, e: Event)
    ensures NoSends(t, t)
    ensures NoSends(t, t') && !e.Send? ==> NoSends(t, t' + [e])
    ensures NoSends(t, t') && NoSends(t', t'') ==> NoSends(t, t'')
    ensures Locally(t, t') ==> NoSends(t, t')
  {}

  lemma RelayThenLocal(t: seq<Event>, t': seq<Event>, t'': seq<Event>)
    requires Relays(t, t')
    ensures Reuses(t, t') && (Locally(t', t'') ==> Reuses(t, t''))
  {}

  lemma RelayNone(t: seq<Event>)
    ensures Relays(t, t)
  {}

  lemma RelayOne(t: seq<Event>, id: nat, slot: Slot)
    ensures Relays(t, t + [Recv(id, slot)])
  {}

  lemma RelayTwo(t: seq<Event>, t': seq<Event>, t'': seq<Event>, id: nat, next: nat, slot: Slot)
    requires t' == t + [Recv(id, slot)] && t'' == t' + [Send(next, slot)]
    ensures Relays(t, t'')
  {}

  /** A run stays legal when servers may hold more. */
  lemma MoreLoad(lim: Limits, t: seq<Event>, load: nat)
    requires Legal(lim, t) && lim.load <= load
    ensures Legal(lim.(load := load), t)
  {
    var more := lim.(load := load);
    forall i | 0 <= i < |t| ensures Enabled(more, State(t[..i]), t[i]) {
      assert Enabled(lim, State(t[..i]), t[i]);
    }
  }
}
