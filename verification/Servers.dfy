/**
  The scheduling processor and its evaluation servers as a message-passing system.
  Messages to a server arrive in the order they were sent; a message with tag 0 tells
  the server to stop.  Results travel back tagged with their job and may be received in
  any order.
 */
module Servers {
  import opened Common

  /** One server with everything exchanged with it so far.  Messages sent[taken..] are
      still on their way; `tag` is the tag of the last message taken, `answers` every
      result ever returned, `returning` those not yet received. */
  datatype Link = Link(
    sent: seq<nat>, taken: nat, active: set<nat>, numActive: nat, tag: nat,
    answers: multiset<nat>, returning: set<nat>, received: set<nat>, stopped: bool)

  datatype Step =
    | SendJob(server: nat, job: nat)
    | SendStop(server: nat)
    | Take(server: nat)
    | Finish(server: nat, jobs: set<nat>)
    | Receive(server: nat, job: nat)
    | Halt(server: nat)

  const Idle := Link([], 0, {}, 0, 1, multiset{}, {}, {}, false)

  predicate Stopping(l: Link) { 0 in l.sent }

  /** A job is sent to at most one server, at most once, and nothing follows a stop. */
  predicate Enabled(c: nat, links: seq<Link>, e: Step) {
    && e.server < |links|
    && var l := links[e.server];
       match e
       case SendJob(_, job) => job != 0 && !Stopping(l) && forall s | 0 <= s < |links| :: job !in links[s].sent
       case SendStop(_) => !Stopping(l)
       case Take(_) => !l.stopped && l.tag != 0 && l.numActive < c && l.taken < |l.sent|
       case Finish(_, jobs) => !l.stopped && l.numActive > 0 && jobs <= l.active
       case Receive(_, job) => job in l.returning
       case Halt(_) => !l.stopped && l.tag == 0 && l.numActive == 0
  }

  /** numActive is kept as the server keeps it: a counter beside the queue. */
  function Move(l: Link, e: Step): Link {
    match e
    case SendJob(_, job) => l.(sent := l.sent + [job])
    case SendStop(_) => l.(sent := l.sent + [0])
    case Take(_) =>
      if l.taken >= |l.sent| then l
      else if l.sent[l.taken] == 0 then l.(taken := l.taken + 1, tag := 0)
      else l.(taken := l.taken + 1, tag := l.sent[l.taken],
              active := l.active + {l.sent[l.taken]}, numActive := l.numActive + 1)
    case Finish(_, jobs) =>
      l.(active := l.active - jobs, numActive := if |jobs| <= l.numActive then l.numActive - |jobs| else 0,
         answers := l.answers + multiset(jobs), returning := l.returning + jobs)
    case Receive(_, job) => l.(returning := l.returning - {job}, received := l.received + {job})
    case Halt(_) => l.(stopped := true)
  }

  function Next(links: seq<Link>, e: Step): seq<Link> {
    if e.server < |links| then links[e.server := Move(links[e.server], e)] else links
  }

  function Run(servers: nat, t: seq<Step>): seq<Link> {
    if t == [] then seq(servers, i => Idle) else Next(Run(servers, t[..|t|-1]), t[|t|-1])
  }

  ghost predicate Legal(servers: nat, c: nat, t: seq<Step>) {
    forall i | 0 <= i < |t| :: Enabled(c, Run(servers, t[..i]), t[i])
  }

  /** The jobs among some messages. */
  function Jobs(messages: seq<nat>): set<nat> {
    set m | m in messages && m != 0
  }

  ghost predicate DistinctMessages(s: seq<nat>) {
    && (forall i, j | 0 <= i < j < |s| :: s[i] != s[j])
    && (forall i | 0 <= i < |s| && s[i] == 0 :: i == |s| - 1)
  }

  /** Every job is in exactly one of four places. */
  ghost predicate InOnePlace(all: set<nat>, transit: set<nat>, active: set<nat>, returning: set<nat>,
      received: set<nat>)
  {
    && all == transit + active + returning + received
    && transit !! active && transit !! returning && transit !! received
    && active !! returning && active !! received && returning !! received
  }

  /** A job sent is on its way, active, on its way back or received, and in one of these
      places only. */
  ghost predicate Conserved(l: Link) {
    && l.taken <= |l.sent|
    && InOnePlace(Jobs(l.sent), Jobs(l.sent[l.taken..]), l.active, l.returning, l.received)
  }

  ghost predicate TagOk(l: Link) {
    && (l.tag == 0 <==> l.taken == |l.sent| && Stopping(l))
    && (l.stopped ==> l.tag == 0 && l.active == {})
  }

  ghost predicate LinkOk(c: nat, l: Link) {
    && DistinctMessages(l.sent) && Conserved(l) && TagOk(l)
    && l.numActive == |l.active| <= c
    && l.answers == multiset(l.returning + l.received)
  }

  lemma SendKeeps(c: nat, l: Link, m: nat)
    requires LinkOk(c, l) && !Stopping(l) && m !in l.sent
    ensures LinkOk(c, l.(sent := l.sent + [m]))
  {
    hide InOnePlace, Jobs, DistinctMessages;
    assert (l.sent + [m])[l.taken..] == l.sent[l.taken..] + [m];
    JobsAppend(l.sent, m);
    JobsAppend(l.sent[l.taken..], m);
    Adds(Jobs(l.sent), Jobs(l.sent[l.taken..]), l.active, l.returning, l.received, Jobs([m]));
  }

  lemma JobsAppend(s: seq<nat>, m: nat)
    ensures Jobs(s + [m]) == Jobs(s) + Jobs([m])
    ensures m !in s ==> Jobs(s) !! Jobs([m])
    ensures DistinctMessages(s) && m !in s && 0 !in s ==> DistinctMessages(s + [m])
  {}

  lemma Adds(all: set<nat>, transit: set<nat>, active: set<nat>, returning: set<nat>, received: set<nat>,
      more: set<nat>)
    requires InOnePlace(all, transit, active, returning, received) && all !! more
    ensures InOnePlace(all + more, transit + more, active, returning, received)
  {}

  lemma Starts(all: set<nat>, transit: set<nat>, active: set<nat>, returning: set<nat>, received: set<nat>, m: nat)
    requires InOnePlace(all, {m} + transit, active, returning, received) && m !in transit
    ensures InOnePlace(all, transit, active + {m}, returning, received) && m !in active
  {}

  lemma Answers(all: set<nat>, transit: set<nat>, active: set<nat>, returning: set<nat>, received: set<nat>,
      jobs: set<nat>)
    requires InOnePlace(all, transit, active, returning, received) && jobs <= active
    ensures InOnePlace(all, transit, active - jobs, returning + jobs, received)
    ensures |active - jobs| == |active| - |jobs|
    ensures multiset(returning + jobs + received) == multiset(returning + received) + multiset(jobs)
  {
    FewerActive(active, jobs);
    MoreBack(returning + received, jobs);
    assert returning + jobs + received == (returning + received) + jobs;
  }

  lemma FewerActive(active: set<nat>, jobs: set<nat>)
    requires jobs <= active
    ensures |active - jobs| == |active| - |jobs|
  {
    assert active == active - jobs + jobs;
  }

  lemma MoreBack(back: set<nat>, jobs: set<nat>)
    requires back !! jobs
    ensures multiset(back + jobs) == multiset(back) + multiset(jobs)
  {}

  lemma Arrives(all: set<nat>, transit: set<nat>, active: set<nat>, returning: set<nat>, received: set<nat>, job: nat)
    requires InOnePlace(all, transit, active, returning, received) && job in returning
    ensures InOnePlace(all, transit, active, returning - {job}, received + {job})
    ensures returning - {job} + (received + {job}) == returning + received
  {}

  lemma TakeKeeps(c: nat, l: Link)
    requires LinkOk(c, l) && !l.stopped && l.tag != 0 && l.numActive < c && l.taken < |l.sent|
    ensures LinkOk(c, Move(l, Take(0)))
  {
    hide InOnePlace, Jobs, DistinctMessages;
    var m := l.sent[l.taken];
    var rest := l.sent[l.taken + 1..];
    HeadJob(l.sent, l.taken);
    if m != 0 {
      Starts(Jobs(l.sent), Jobs(rest), l.active, l.returning, l.received, m);
    }
  }

  lemma HeadJob(s: seq<nat>, k: nat)
    requires k < |s| && DistinctMessages(s)
    ensures s[k] != 0 ==> Jobs(s[k..]) == {s[k]} + Jobs(s[k + 1..]) && s[k] !in Jobs(s[k + 1..])
    ensures s[k] == 0 ==> Jobs(s[k..]) == Jobs(s[k + 1..]) && k == |s| - 1
    ensures k == |s| - 1 && 0 in s ==> s[k] == 0
  {
    assert s[k..] == [s[k]] + s[k + 1..];
  }

  lemma FinishKeeps(c: nat, l: Link, jobs: set<nat>)
    requires LinkOk(c, l) && !l.stopped && jobs <= l.active
    ensures LinkOk(c, Move(l, Finish(0, jobs)))
  {
    hide InOnePlace, Jobs, DistinctMessages;
    Answers(Jobs(l.sent), Jobs(l.sent[l.taken..]), l.active, l.returning, l.received, jobs);
  }

  lemma ReceiveKeeps(c: nat, l: Link, job: nat)
    requires LinkOk(c, l) && job in l.returning
    ensures LinkOk(c, Move(l, Receive(0, job)))
  {
    hide InOnePlace, Jobs, DistinctMessages;
    Arrives(Jobs(l.sent), Jobs(l.sent[l.taken..]), l.active, l.returning, l.received, job);
  }

  ghost predicate Separate(links: seq<Link>) {
    forall s, t | 0 <= s < t < |links| :: Jobs(links[s].sent) !! Jobs(links[t].sent)
  }

  ghost predicate SystemOk(c: nat, links: seq<Link>) {
    (forall s | 0 <= s < |links| :: LinkOk(c, links[s])) && Separate(links)
  }

  lemma StepKeeps(c: nat, links: seq<Link>, e: Step)
    requires SystemOk(c, links) && Enabled(c, links, e)
    ensures SystemOk(c, Next(links, e))
  {
    hide LinkOk, Jobs;
    var l := links[e.server];
    LinkStep(c, l, e);
    JobsAfter(l, e);
    var links' := Next(links, e);
    forall s, t | 0 <= s < t < |links'| ensures Jobs(links'[s].sent) !! Jobs(links'[t].sent) {
      if s == e.server {
        OtherJobs(links, e, t);
      } else if t == e.server {
        OtherJobs(links, e, s);
      }
    }
  }

  lemma OtherJobs(links: seq<Link>, e: Step, s: nat)
    requires s < |links| && e.server < |links| && s != e.server && Separate(links)
    requires e.SendJob? ==> e.job !in links[s].sent
    ensures Jobs(links[s].sent) !! Jobs(Move(links[e.server], e).sent)
  {
    JobsAfter(links[e.server], e);
  }

  lemma JobsAfter(l: Link, e: Step)
    ensures Jobs(Move(l, e).sent) == Jobs(l.sent) + (if e.SendJob? then Jobs([e.job]) else {})
  {
    if e.SendJob? {
      assert Jobs(l.sent + [e.job]) == Jobs(l.sent) + Jobs([e.job]);
    } else if e.SendStop? {
      assert Jobs(l.sent + [0]) == Jobs(l.sent);
    }
  }

  lemma LinkStep(c: nat, l: Link, e: Step)
    requires LinkOk(c, l) && Enabled(c, seq(e.server + 1, i => l), e)
    ensures LinkOk(c, Move(l, e))
  {
    hide LinkOk;
    match e
    case SendJob(_, job) =>
      assert seq(e.server + 1, i => l)[e.server] == l;
      SendKeeps(c, l, job);
    case SendStop(_) => SendKeeps(c, l, 0);
    case Take(_) => TakeKeeps(c, l);
    case Finish(_, jobs) => FinishKeeps(c, l, jobs);
    case Receive(_, job) => ReceiveKeeps(c, l, job);
    case Halt(_) => HaltKeeps(c, l);
  }

  lemma HaltKeeps(c: nat, l: Link)
    requires LinkOk(c, l) && l.tag == 0 && l.numActive == 0
    ensures LinkOk(c, l.(stopped := true))
  {}

  /** Every state of every run is in order: each server's counter equals its queue and is
      within the concurrency, and no job is lost, repeated or known to two servers. */
  lemma {:induction false} RunsKeepOrder(servers: nat, c: nat, t: seq<Step>)
    requires Legal(servers, c, t)
    ensures SystemOk(c, Run(servers, t)) && |Run(servers, t)| == servers
  {
    if t == [] {
      assert LinkOk(c, Idle) by {
        assert Jobs([]) == {} && Idle.sent[0..] == [];
        assert multiset{} == multiset(Idle.returning + Idle.received);
      }
    } else {
      var u := t[..|t|-1];
      LegalPrefix(servers, c, t, |t| - 1);
      RunsKeepOrder(servers, c, u);
      StepKeeps(c, Run(servers, u), t[|t|-1]);
    }
  }

  lemma LegalPrefix(servers: nat, c: nat, t: seq<Step>, k: nat)
    requires Legal(servers, c, t) && k <= |t|
    ensures Legal(servers, c, t[..k])
  {
    forall i | 0 <= i < k ensures Enabled(c, Run(servers, t[..k][..i]), t[..k][i]) {
      assert t[..k][..i] == t[..i];
    }
  }

  /** A job sent to a server is in exactly one of four places, and no other server ever
      gets it. */
  lemma WhereAJobIs(servers: nat, c: nat, t: seq<Step>, s: nat, job: nat)
    requires Legal(servers, c, t) && s < servers && job != 0
    requires s < |Run(servers, t)| && job in Run(servers, t)[s].sent
    ensures var l := Run(servers, t)[s];
            && l.taken <= |l.sent|
            && Here(job in l.sent[l.taken..]) + Here(job in l.active) + Here(job in l.returning)
              + Here(job in l.received) == 1
            && l.answers[job] == Here(job in l.returning) + Here(job in l.received)
    ensures forall o | 0 <= o < servers && o != s :: o < |Run(servers, t)| && job !in Run(servers, t)[o].sent
  {
    RunsKeepOrder(servers, c, t);
    hide Legal, Run;
    var links := Run(servers, t);
    assert LinkOk(c, links[s]);
    var l := links[s];
    assert job in Jobs(l.sent);
    assert job in l.sent[l.taken..] <==> job in Jobs(l.sent[l.taken..]);
    forall o | 0 <= o < servers && o != s ensures job !in links[o].sent {
      if o < s { assert Jobs(links[o].sent) !! Jobs(links[s].sent); }
      Listed(links[o].sent, job);
    }
  }

  lemma Listed(sent: seq<nat>, job: nat)
    requires job != 0
    ensures job in sent <==> job in Jobs(sent)
  {}

  /** A server that has stopped took every message and answered each job sent to it
      exactly once. */
  lemma StoppedAnsweredAll(servers: nat, c: nat, t: seq<Step>, s: nat)
    requires Legal(servers, c, t) && s < |Run(servers, t)| && Run(servers, t)[s].stopped
    ensures var l := Run(servers, t)[s];
            l.taken == |l.sent| && 0 in l.sent && l.active == {} && l.answers == multiset(Jobs(l.sent))
  {
    RunsKeepOrder(servers, c, t);
    var l := Run(servers, t)[s];
    assert LinkOk(c, l);
    assert l.sent[l.taken..] == [];
    assert Jobs([]) == {};
    assert Jobs(l.sent) == l.returning + l.received;
  }

  /** ... and it never does anything again. */
  lemma {:induction false} StoppedForGood(servers: nat, c: nat, t: seq<Step>, k: nat, s: nat)
    requires Legal(servers, c, t) && k <= |t| && s < servers
    requires s < |Run(servers, t[..k])| && Run(servers, t[..k])[s].stopped
    ensures s < |Run(servers, t)|
    ensures Run(servers, t)[s].stopped && Run(servers, t)[s].sent == Run(servers, t[..k])[s].sent
    ensures Run(servers, t)[s].answers == Run(servers, t[..k])[s].answers
    decreases |t|
  {
    hide SystemOk, Enabled, Next;
    if k == |t| {
      assert t[..k] == t;
    } else {
      var u := t[..|t|-1];
      assert u[..k] == t[..k];
      LegalPrefix(servers, c, t, |t| - 1);
      StoppedForGood(servers, c, u, k, s);
      RunsKeepOrder(servers, c, u);
      StoppedStep(c, Run(servers, u), t[|t|-1], s);
    }
  }

  lemma StoppedStep(c: nat, links: seq<Link>, e: Step, s: nat)
    requires SystemOk(c, links) && Enabled(c, links, e) && s < |links| && links[s].stopped
    ensures |Next(links, e)| == |links|
    ensures Next(links, e)[s].stopped && Next(links, e)[s].sent == links[s].sent
    ensures Next(links, e)[s].answers == links[s].answers
  {
    hide SystemOk, Stopping;
    StoppedIsStopping(c, links, s);
    if e.server == s {
      match e
      case Receive(_, job) =>
    }
  }

  lemma StoppedIsStopping(c: nat, links: seq<Link>, s: nat)
    requires SystemOk(c, links) && s < |links| && links[s].stopped
    ensures Stopping(links[s])
  {
    hide DistinctMessages, Conserved, Separate, Jobs;
    assert LinkOk(c, links[s]);
  }

  /** A step of a server or a receipt that gets something done. */
  predicate Useful(e: Step) {
    e.Take? || e.Receive? || e.Halt? || (e.Finish? && e.jobs != {})
  }

  function Work(l: Link): nat {
    3 * (if l.taken <= |l.sent| then |l.sent| - l.taken else 0) + 2 * |l.active| + |l.returning|
      + (if l.stopped then 0 else 1)
  }

  function TotalWork(links: seq<Link>): nat {
    if links == [] then 0 else TotalWork(links[..|links|-1]) + Work(links[|links|-1])
  }

  lemma WorkShrinks(c: nat, l: Link, e: Step)
    requires LinkOk(c, l) && Enabled(c, seq(e.server + 1, i => l), e) && Useful(e)
    ensures Work(Move(l, e)) < Work(l)
  {
    hide DistinctMessages, Jobs, InOnePlace, LinkOk;
    assert seq(e.server + 1, i => l)[e.server] == l;
    match e
    case Take(_) => TakeSizes(c, l);
    case Finish(_, jobs) => FinishSizes(c, l, jobs);
    case Receive(_, job) =>
      assert |l.returning - {job}| == |l.returning| - 1;
    case Halt(_) =>
  }

  lemma TakeSizes(c: nat, l: Link)
    requires LinkOk(c, l) && l.taken < |l.sent|
    ensures |l.active + {l.sent[l.taken]}| <= |l.active| + 1
  {}

  lemma FinishSizes(c: nat, l: Link, jobs: set<nat>)
    requires LinkOk(c, l) && jobs <= l.active
    ensures |l.active - jobs| == |l.active| - |jobs| && |l.returning + jobs| == |l.returning| + |jobs|
  {
    hide DistinctMessages, Jobs, TagOk;
    Answers(Jobs(l.sent), Jobs(l.sent[l.taken..]), l.active, l.returning, l.received, jobs);
    Disjoint(Jobs(l.sent), Jobs(l.sent[l.taken..]), l.active, l.returning, l.received);
    assert |l.returning + jobs| == |l.returning| + |jobs|;
  }

  lemma Disjoint(all: set<nat>, transit: set<nat>, active: set<nat>, returning: set<nat>, received: set<nat>)
    requires InOnePlace(all, transit, active, returning, received)
    ensures active !! returning
  {}

  lemma {:induction false} TotalAfter(links: seq<Link>, s: nat, l: Link)
    requires s < |links|
    ensures TotalWork(links[s := l]) == TotalWork(links) - Work(links[s]) + Work(l)
  {
    var last := |links| - 1;
    if s == last {
      assert links[s := l][..last] == links[..last];
    } else {
      assert links[s := l][..last] == links[..last][s := l];
      TotalAfter(links[..last], s, l);
    }
  }

  /** From any state the servers can do only so much: with nothing new sent, at most
      TotalWork steps remain. */
  lemma {:induction false} RunsEnd(servers: nat, c: nat, t: seq<Step>, k: nat)
    requires Legal(servers, c, t) && k <= |t| && forall i | k <= i < |t| :: Useful(t[i])
    ensures |t| - k + TotalWork(Run(servers, t)) <= TotalWork(Run(servers, t[..k]))
    decreases |t|
  {
    hide SystemOk, TotalWork, Next, Enabled;
    if k == |t| {
      assert t[..k] == t;
    } else {
      var u, e := t[..|t|-1], t[|t|-1];
      assert u[..k] == t[..k];
      LegalPrefix(servers, c, t, |t| - 1);
      RunsEnd(servers, c, u, k);
      RunsKeepOrder(servers, c, u);
      var links := Run(servers, u);
      TotalShrinks(c, links, e);
    }
  }

  lemma TotalShrinks(c: nat, links: seq<Link>, e: Step)
    requires SystemOk(c, links) && Enabled(c, links, e) && Useful(e)
    ensures TotalWork(Next(links, e)) < TotalWork(links)
  {
    hide LinkOk, Separate, Work;
    WorkShrinks(c, links[e.server], e);
    TotalAfter(links, e.server, Move(links[e.server], e));
  }

  /** When the stop messages are out and no useful step is left, every server has stopped
      and every job sent was received.  With RunsEnd: every run of useful steps leads
      there, so nothing deadlocks. */
  lemma NothingLeftMeansFinished(servers: nat, c: nat, t: seq<Step>, s: nat)
    requires Legal(servers, c, t) && c >= 1 && s < |Run(servers, t)| && Stopping(Run(servers, t)[s])
    requires forall e | Useful(e) :: !Enabled(c, Run(servers, t), e)
    ensures Run(servers, t)[s].stopped && Run(servers, t)[s].received == Jobs(Run(servers, t)[s].sent)
  {
    hide LinkOk, Jobs, Stopping, TagOk, Legal, Run;
    RunsKeepOrder(servers, c, t);
    var links := Run(servers, t);
    var l := links[s];
    StoppedIsIdle(c, l);
    assert Useful(Finish(s, l.active)) <==> l.active != {};
    forall j ensures j !in l.returning {
      assert Useful(Receive(s, j));
    }
    assert Useful(Take(s)) && Useful(Halt(s));
    NothingLeft(c, l);
  }

  lemma NothingLeft(c: nat, l: Link)
    requires LinkOk(c, l) && c >= 1 && Stopping(l) && l.active == {} && l.returning == {}
    requires !(!l.stopped && l.tag != 0 && l.numActive < c && l.taken < |l.sent|)
    requires !(!l.stopped && l.tag == 0 && l.numActive == 0)
    ensures l.stopped && l.received == Jobs(l.sent)
  {
    assert l.sent[|l.sent|..] == [] && Jobs([]) == {};
  }

  lemma StoppedIsIdle(c: nat, l: Link)
    requires LinkOk(c, l)
    ensures l.active != {} ==> !l.stopped && l.numActive > 0
  {}

  /** Where the first stop message is. */
  function FirstStop(inbox: seq<nat>): (k: nat)
    requires 0 in inbox
    ensures k < |inbox| && inbox[k] == 0 && forall i | 0 <= i < k :: inbox[i] != 0
  {
    if inbox[0] == 0 then 0 else 1 + FirstStop(inbox[1..])
  }

  /** serve_evaluations_synch: one blocking receive and one answer at a time.  Every job
      before the stop message is answered, in order. */
  method ServeEvaluationsSynch(inbox: seq<nat>) returns (answers: seq<nat>)
    requires 0 in inbox
    ensures answers == inbox[..FirstStop(inbox)]
  {
    var taken, currEvalId := 0, 1;
    answers := [];
    ghost var stop := FirstStop(inbox);
    while currEvalId != 0
      invariant if currEvalId != 0 then taken <= stop && answers == inbox[..taken] else answers == inbox[..stop]
      decreases currEvalId != 0, |inbox| - taken
    {
      currEvalId := inbox[taken];
      taken := taken + 1;
      if currEvalId != 0 {
        answers := answers + [currEvalId];
      }
    }
  }

  /** What the jobs a server has taken are doing. */
  ghost predicate Serving(inbox: seq<nat>, taken: nat, active: set<nat>, answers: multiset<nat>) {
    && taken <= |inbox|
    && multiset(inbox[..taken]) == multiset(active) + answers
  }

  lemma ServeNext(inbox: seq<nat>, taken: nat, active: set<nat>, answers: multiset<nat>)
    requires Serving(inbox, taken, active, answers) && taken < |inbox| && Distinct(inbox)
    ensures Serving(inbox, taken + 1, active + {inbox[taken]}, answers) && inbox[taken] !in active
  {
    var m := inbox[taken];
    assert inbox[..taken + 1] == inbox[..taken] + [m];
    assert m !in inbox[..taken];
    assert m !in multiset(inbox[..taken]);
    assert multiset(inbox[..taken])[m] == multiset(active)[m] + answers[m];
    assert multiset(active + {m}) == multiset(active) + multiset{m};
  }

  lemma ServeDone(inbox: seq<nat>, taken: nat, active: set<nat>, answers: multiset<nat>, jobs: set<nat>)
    requires Serving(inbox, taken, active, answers) && jobs <= active
    ensures Serving(inbox, taken, active - jobs, answers + multiset(jobs)) && |active - jobs| == |active| - |jobs|
  {
    assert active == (active - jobs) + jobs;
    assert |(active - jobs) + jobs| == |active - jobs| + |jobs|;
    assert multiset((active - jobs) + jobs) == multiset(active - jobs) + multiset(jobs);
  }

  /** Step 2 of the server loop: take and launch the messages that have arrived, within
      the concurrency limit. */
  method TakeMessages(inbox: seq<nat>, arrived: nat, start: nat, tag: nat, active: set<nat>, numActive: nat, c: nat,
      ghost answers: multiset<nat>)
    returns (taken: nat, tag': nat, active': set<nat>, numActive': nat)
    requires 0 in inbox && Distinct(inbox) && start <= FirstStop(inbox) + Here(tag == 0)
    requires tag == 0 ==> start == FirstStop(inbox) + 1
    requires Serving(inbox, start - Here(tag == 0), active, answers) && numActive == |active| <= c
    ensures start <= taken <= FirstStop(inbox) + Here(tag' == 0)
    ensures tag' == 0 ==> taken == FirstStop(inbox) + 1
    ensures Serving(inbox, taken - Here(tag' == 0), active', answers) && numActive' == |active'| <= c
    ensures tag' == 0 || numActive' == c || taken >= arrived
    ensures taken == start ==> active' == active
  {
    hide Serving, Distinct;
    taken, tag', active', numActive' := start, tag, active, numActive;
    var flag := true;
    while flag && tag' != 0 && numActive' < c
      invariant start <= taken <= FirstStop(inbox) + Here(tag' == 0)
      invariant tag' == 0 ==> taken == FirstStop(inbox) + 1
      invariant Serving(inbox, taken - Here(tag' == 0), active', answers) && numActive' == |active'| <= c
      invariant !flag ==> taken >= arrived
      invariant taken == start ==> active' == active
      decreases flag, c - numActive', tag' != 0
    {
      flag := taken < arrived;
      if flag {
        tag' := inbox[taken];
        taken := taken + 1;
        if tag' != 0 {
          ServeNext(inbox, taken - 1, active', answers);
          active', numActive' := active' + {tag'}, numActive' + 1;
        }
      }
    }
  }

  /** What one round of the server loop finds: how many messages have arrived by then and
      which jobs are reported complete. */
  datatype Visit = Visit(arrived: nat, ready: set<nat>)

  /** Every message is there and every job completes at once. */
  ghost predicate Prompt(inbox: seq<nat>, visits: seq<Visit>) {
    forall i | 0 <= i < |visits| :: visits[i].arrived >= |inbox| && forall j | j in inbox :: j in visits[i].ready
  }

  /** serve_evaluations_asynch, for every pattern of arrivals and completions: the jobs taken
      are at any time those active or answered, within the concurrency; a server that stops
      has answered each job before the stop message exactly once; and when messages and
      completions are there it stops after at most one round per message. */
  method ServeEvaluationsAsynch(inbox: seq<nat>, c: nat, visits: seq<Visit>)
    returns (answers: multiset<nat>, stopped: bool, ghost taken: nat, ghost left: set<nat>)
    requires 0 in inbox && Distinct(inbox) && 1 <= c
    ensures stopped ==> answers == multiset(inbox[..FirstStop(inbox)])
    ensures |left| <= c && taken <= FirstStop(inbox) && multiset(inbox[..taken]) == multiset(left) + answers
    ensures stopped ==> taken == FirstStop(inbox) && left == {}
    ensures Prompt(inbox, visits) && |visits| > FirstStop(inbox) ==> stopped
  {
    hide Distinct;
    var pos, tag, numActive := 0, 1, 0;
    var active: set<nat> := {};
    answers := multiset{};
    assert inbox[..0] == [];
    var i := 0;
    while i < |visits|
      invariant i <= |visits| && InRound(inbox, pos, tag, active, numActive, c, answers)
      invariant Prompt(inbox, visits) ==> active == {} && tag != 0 && i <= pos
    {
      pos, tag, active, numActive, answers := ServeRound(inbox, visits[i], pos, tag, active, numActive, c, answers);
      if tag == 0 && numActive == 0 {
        return answers, true, FirstStop(inbox), {};
      }
      i := i + 1;
    }
    stopped, taken, left := false, pos - Here(tag == 0), active;
  }

  /** The state of a server between rounds. */
  ghost predicate InRound(inbox: seq<nat>, pos: nat, tag: nat, active: set<nat>, numActive: nat, c: nat,
      answers: multiset<nat>)
    requires 0 in inbox
  {
    && pos <= FirstStop(inbox) + Here(tag == 0) && (tag == 0 ==> pos == FirstStop(inbox) + 1)
    && Serving(inbox, pos - Here(tag == 0), active, answers) && numActive == |active| <= c
  }

  /** One round: take messages, then return what is complete. */
  method ServeRound(inbox: seq<nat>, visit: Visit, pos: nat, tag: nat, active: set<nat>, numActive: nat, c: nat,
      answers: multiset<nat>)
    returns (pos': nat, tag': nat, active': set<nat>, numActive': nat, answers': multiset<nat>)
    requires 0 in inbox && Distinct(inbox) && 1 <= c && InRound(inbox, pos, tag, active, numActive, c, answers)
    ensures InRound(inbox, pos', tag', active', numActive', c, answers') && pos <= pos'
    ensures visit.arrived >= |inbox| && active == {} && tag != 0 ==> tag' == 0 || pos < pos'
    ensures (forall j | j in inbox :: j in visit.ready) ==> active' == {}
  {
    hide Serving, Distinct;
    var arrived := if visit.arrived <= |inbox| then visit.arrived else |inbox|;
    pos', tag', active', numActive' := TakeMessages(inbox, arrived, pos, tag, active, numActive, c, answers);
    active', numActive', answers' := ReturnReady(inbox, pos' - Here(tag' == 0), active', numActive', answers,
      visit.ready);
  }

  /** Step 3 of the server loop: answer what is complete. */
  method ReturnReady(inbox: seq<nat>, ghost taken: nat, active: set<nat>, numActive: nat, answers: multiset<nat>,
      ready: set<nat>)
    returns (active': set<nat>, numActive': nat, answers': multiset<nat>)
    requires Serving(inbox, taken, active, answers) && numActive == |active|
    ensures Serving(inbox, taken, active', answers') && numActive' == |active'| <= numActive
    ensures active' == active - ready
    ensures (forall j | j in inbox :: j in ready) ==> active' == {}
  {
    hide Serving;
    active', numActive', answers' := active, numActive, answers;
    TakenOnly(inbox, taken, active, answers);
    if numActive > 0 {
      var completed := ready * active;
      ServeDone(inbox, taken, active, answers, completed);
      numActive' := numActive - |completed|;
      answers', active' := answers + multiset(completed), active - completed;
    }
  }

  /** A server is only ever busy with jobs it was sent. */
  lemma TakenOnly(inbox: seq<nat>, taken: nat, active: set<nat>, answers: multiset<nat>)
    requires Serving(inbox, taken, active, answers)
    ensures forall j | j in active :: j in inbox
  {
    forall j | j in active ensures j in inbox {
      assert multiset(inbox[..taken])[j] == multiset(active)[j] + answers[j];
      assert j in inbox[..taken];
    }
  }
}
