/**
  Schedulers and servers together: a run of the slot protocol on the scheduling processor
  and a run of the servers that exchange the same messages agree on what is in flight.
 */
module Network {
  import opened Common
  import P = SlotProtocol
  import S = Servers

  /** A job sent to a server, or its result received; servers are numbered from 0. */
  datatype Message = Out(job: nat, server: nat) | In(job: nat, server: nat)

  /** The messages of a scheduler's run. */
  function Messages(t: seq<P.Event>): seq<Message> {
    if t == [] then []
    else Messages(t[..|t|-1]) + Sends(t[|t|-1])
  }

  function Sends(e: P.Event): seq<Message> {
    match e
    case Send(j, slot) => if slot.server > 0 then [Out(j, slot.server - 1)] else []
    case Recv(j, slot) => if slot.server > 0 then [In(j, slot.server - 1)] else []
    case _ => []
  }

  /** The messages of the servers' run. */
  function Exchanges(u: seq<S.Step>): seq<Message> {
    if u == [] then []
    else Exchanges(u[..|u|-1]) + Exchange(u[|u|-1])
  }

  function Exchange(e: S.Step): seq<Message> {
    match e
    case SendJob(s, j) => [Out(j, s)]
    case Receive(s, j) => [In(j, s)]
    case _ => []
  }

  /** What a message changes in the set of jobs away at server s. */
  function Changed(away: set<nat>, more: seq<Message>, s: nat): set<nat> {
    if more == [] || more[0].server != s then away
    else if more[0].Out? then away + {more[0].job}
    else away - {more[0].job}
  }

  /** The jobs that went to a server and have not come back. */
  function Away(ms: seq<Message>, s: nat): set<nat> {
    if ms == [] then {} else Changed(Away(ms[..|ms|-1], s), [ms[|ms|-1]], s)
  }

  lemma AwayNext(ms: seq<Message>, more: seq<Message>, s: nat)
    requires |more| <= 1
    ensures Away(ms + more, s) == Changed(Away(ms, s), more, s)
  {
    if more == [] {
      assert ms + more == ms;
    } else {
      assert (ms + more)[..|ms + more|-1] == ms;
    }
  }

  /** The scheduler's map of running jobs holds exactly the jobs that are away. */
  lemma {:induction false} SchedulerAway(lim: P.Limits, t: seq<P.Event>, s: nat)
    requires P.Legal(lim, t)
    ensures P.AtServer(P.State(t).remote, s + 1) == Away(Messages(t), s)
  {
    if t == [] {
      assert P.AtServer(P.State(t).remote, s + 1) == {};
    } else {
      var v, e := t[..|t|-1], t[|t|-1];
      P.LegalPrefix(lim, t, |t| - 1);
      SchedulerAway(lim, v, s);
      P.LegalRunsAreSafe(lim, t, |t| - 1);
      AwayNext(Messages(v), Sends(e), s);
      SchedulerStep(lim, P.State(v), e, s);
    }
  }

  lemma SchedulerStep(lim: P.Limits, n: P.Net, e: P.Event, s: nat)
    requires P.Safe(lim, n) && P.Enabled(lim, n, e)
    ensures |Sends(e)| <= 1
    ensures P.AtServer(P.Next(n, e).remote, s + 1) == Changed(P.AtServer(n.remote, s + 1), Sends(e), s)
  {}

  /** On its way to the server, at work there, or on its way back. */
  function InFlight(l: S.Link): set<nat> {
    (if l.taken <= |l.sent| then S.Jobs(l.sent[l.taken..]) else {}) + l.active + l.returning
  }

  lemma LinkStep(c: nat, l: S.Link, e: S.Step)
    requires S.LinkOk(c, l) && S.Enabled(c, seq(e.server + 1, i => l), e)
    ensures InFlight(S.Move(l, e)) == Changed(InFlight(l), Exchange(e), e.server)
  {
    hide S.LinkOk, InFlight;
    assert seq(e.server + 1, i => l)[e.server] == l;
    match e
    case SendJob(_, j) => SentLink(c, l, j);
    case SendStop(_) => SentLink(c, l, 0);
    case Take(_) => TakenLink(c, l);
    case Finish(_, jobs) => FinishedLink(l, jobs);
    case Receive(_, j) => ReceivedLink(c, l, j);
    case Halt(_) => StoppedLink(l);
  }

  lemma SentLink(c: nat, l: S.Link, m: nat)
    requires S.LinkOk(c, l)
    ensures InFlight(l.(sent := l.sent + [m])) == if m == 0 then InFlight(l) else InFlight(l) + {m}
  {
    hide S.InOnePlace, S.DistinctMessages, S.TagOk, S.Jobs;
    assert (l.sent + [m])[l.taken..] == l.sent[l.taken..] + [m];
    S.JobsAppend(l.sent[l.taken..], m);
    OneMessage(m);
  }

  lemma OneMessage(m: nat)
    ensures S.Jobs([m]) == if m == 0 then {} else {m}
  {}

  lemma TakenLink(c: nat, l: S.Link)
    requires S.LinkOk(c, l) && l.taken < |l.sent|
    ensures InFlight(S.Move(l, S.Take(0))) == InFlight(l)
  {
    hide S.InOnePlace, S.DistinctMessages, S.TagOk, S.Jobs;
    S.HeadJob(l.sent, l.taken);
  }

  lemma FinishedLink(l: S.Link, jobs: set<nat>)
    requires jobs <= l.active
    ensures InFlight(S.Move(l, S.Finish(0, jobs))) == InFlight(l)
  {
    hide S.Jobs;
    assert l.active - jobs + (l.returning + jobs) == l.active + l.returning;
  }

  lemma ReceivedLink(c: nat, l: S.Link, j: nat)
    requires S.LinkOk(c, l) && j in l.returning
    ensures InFlight(S.Move(l, S.Receive(0, j))) == InFlight(l) - {j}
  {
    hide S.DistinctMessages, S.TagOk, S.Jobs;
  }

  lemma StoppedLink(l: S.Link)
    ensures InFlight(l.(stopped := true)) == InFlight(l)
  {}

  /** Everything in flight at a server is away, and nothing else. */
  lemma {:induction false} ServersAway(servers: nat, c: nat, u: seq<S.Step>, s: nat)
    requires S.Legal(servers, c, u) && s < servers
    ensures s < |S.Run(servers, u)| && InFlight(S.Run(servers, u)[s]) == Away(Exchanges(u), s)
  {
    if u == [] {
      assert S.Idle.sent[0..] == [] && S.Jobs([]) == {};
    } else {
      var v, e := u[..|u|-1], u[|u|-1];
      S.LegalPrefix(servers, c, u, |u| - 1);
      ServersAway(servers, c, v, s);
      S.RunsKeepOrder(servers, c, v);
      AwayNext(Exchanges(v), Exchange(e), s);
      ServersStep(c, S.Run(servers, v), e, s);
    }
  }

  lemma ServersStep(c: nat, links: seq<S.Link>, e: S.Step, s: nat)
    requires S.SystemOk(c, links) && S.Enabled(c, links, e) && s < |links|
    ensures |S.Next(links, e)| == |links| && |Exchange(e)| <= 1
    ensures InFlight(S.Next(links, e)[s]) == Changed(InFlight(links[s]), Exchange(e), s)
  {
    hide S.LinkOk, InFlight;
    if e.server == s { LinkStep(c, links[s], e); }
  }

  /** The two sides exchange the same messages. */
  ghost predicate Connected(lim: P.Limits, c: nat, t: seq<P.Event>, u: seq<S.Step>) {
    P.Legal(lim, t) && S.Legal(lim.servers, c, u) && Messages(t) == Exchanges(u)
  }

  /** What the scheduler believes to run on a server is what is in flight there. */
  lemma SidesAgree(lim: P.Limits, c: nat, t: seq<P.Event>, u: seq<S.Step>, s: nat)
    requires Connected(lim, c, t, u) && s < lim.servers
    ensures s < |S.Run(lim.servers, u)|
    ensures P.AtServer(P.State(t).remote, s + 1) == InFlight(S.Run(lim.servers, u)[s])
  {
    SchedulerAway(lim, t, s);
    ServersAway(lim.servers, c, u, s);
  }

  /** A scheduler that keeps to the servers' concurrency never has a job wait at a server:
      whenever a job is next in line it can be taken. */
  lemma NoJobWaits(lim: P.Limits, c: nat, t: seq<P.Event>, u: seq<S.Step>, s: nat)
    requires Connected(lim, c, t, u) && s < lim.servers && lim.load <= c && s < |S.Run(lim.servers, u)|
    requires var l := S.Run(lim.servers, u)[s]; l.taken < |l.sent| && l.sent[l.taken] != 0
    ensures S.Enabled(c, S.Run(lim.servers, u), S.Take(s))
  {
    hide *;
    SidesAgree(lim, c, t, u, s);
    ConnectedParts(lim, c, t, u);
    LoadKept(lim, t, s + 1);
    S.RunsKeepOrder(lim.servers, c, u);
    var links := S.Run(lim.servers, u);
    LinkAt(c, links, s);
    RoomForHead(c, links[s]);
    TakeHere(c, links, s);
  }

  lemma LoadKept(lim: P.Limits, t: seq<P.Event>, server: nat)
    requires P.Legal(lim, t)
    ensures |P.AtServer(P.State(t).remote, server)| <= lim.load
  {
    hide P.Legal, P.State;
    assert t[..|t|] == t;
    P.LegalRunsAreSafe(lim, t, |t|);
    assert P.Load(P.State(t).remote, server) <= lim.load;
  }

  lemma TakeHere(c: nat, links: seq<S.Link>, s: nat)
    requires s < |links| && links[s].taken < |links[s].sent| && links[s].sent[links[s].taken] != 0
    requires !links[s].stopped && links[s].tag != 0 && links[s].numActive < c
    ensures S.Enabled(c, links, S.Take(s))
  {}

  lemma RoomForHead(c: nat, l: S.Link)
    requires S.LinkOk(c, l) && |InFlight(l)| <= c && l.taken < |l.sent| && l.sent[l.taken] != 0
    ensures !l.stopped && l.tag != 0 && l.numActive < c
  {
    hide S.DistinctMessages;
    var j := l.sent[l.taken];
    assert l.sent[l.taken..][0] == j;
    assert j in S.Jobs(l.sent[l.taken..]);
    assert j !in l.active;
    SubsetSize(l.active + {j}, InFlight(l));
  }

  /** While the scheduler waits for a server, that server, or the line back, can always do
      something useful: no schedule and its servers wait for each other. */
  lemma NoDeadlock(lim: P.Limits, c: nat, t: seq<P.Event>, u: seq<S.Step>, s: nat)
    requires Connected(lim, c, t, u) && s < lim.servers && 1 <= c
    requires P.AtServer(P.State(t).remote, s + 1) != {}
    ensures exists e: S.Step :: e.server == s && S.Useful(e) && S.Enabled(c, S.Run(lim.servers, u), e)
  {
    hide *;
    SidesAgree(lim, c, t, u, s);
    ConnectedParts(lim, c, t, u);
    S.RunsKeepOrder(lim.servers, c, u);
    var links := S.Run(lim.servers, u);
    LinkAt(c, links, s);
    var e := UsefulStep(c, links[s], s);
    EnabledHere(c, links, e);
  }

  lemma ConnectedParts(lim: P.Limits, c: nat, t: seq<P.Event>, u: seq<S.Step>)
    requires Connected(lim, c, t, u)
    ensures P.Legal(lim, t) && S.Legal(lim.servers, c, u)
  {}

  lemma LinkAt(c: nat, links: seq<S.Link>, s: nat)
    requires S.SystemOk(c, links) && s < |links|
    ensures S.LinkOk(c, links[s])
  {}

  lemma UsefulStep(c: nat, l: S.Link, s: nat) returns (e: S.Step)
    requires S.LinkOk(c, l) && 1 <= c && InFlight(l) != {}
    ensures e.server == s && S.Useful(e) && !e.SendJob? && S.Enabled(c, seq(s + 1, i => l), e)
  {
    hide S.LinkOk, InFlight;
    var links := seq(s + 1, i => l);
    assert links[s] == l;
    S.StoppedIsIdle(c, l);
    if j :| j in l.returning {
      e := S.Receive(s, j);
    } else if l.active != {} {
      e := S.Finish(s, l.active);
    } else {
      e := S.Take(s);
      EmptyHanded(c, l);
    }
  }

  lemma EmptyHanded(c: nat, l: S.Link)
    requires S.LinkOk(c, l) && InFlight(l) != {} && l.active == {} && l.returning == {}
    ensures !l.stopped && l.tag != 0 && l.numActive == 0 && l.taken < |l.sent|
  {
    hide S.DistinctMessages, S.InOnePlace;
    assert l.sent[|l.sent|..] == [];
    assert S.Jobs([]) == {};
  }

  lemma EnabledHere(c: nat, links: seq<S.Link>, e: S.Step)
    requires e.server < |links| && !e.SendJob? && S.Enabled(c, seq(e.server + 1, i => links[e.server]), e)
    ensures S.Enabled(c, links, e)
  {
    assert seq(e.server + 1, i => links[e.server])[e.server] == links[e.server];
  }
}
