/**
  The schedulers that evaluate jobs on the scheduling processor, blocking and
  nonblocking, with and without static assignment of jobs to local "servers".
 */
module LocalSchedulers {
  import opened Common
  import opened SlotProtocol
  import opened Bookkeeping

  ghost predicate AllFresh(jobs: set<nat>, n: Net) {
    jobs !! n.remote.Keys && jobs !! n.local && jobs !! n.done
  }

  ghost predicate Started(local: seq<nat>, pos: nat, n: Net)
    requires pos <= |local|
  {
    forall p | 0 <= p < pos :: !Fresh(n, local[p])
  }

  /** Nothing more can be launched: the limit is reached, or whatever is pending
      waits for its "server". */
  ghost predicate Exhausted(b: EvalBookkeeping, local: seq<nat>)
    reads b
  {
    |b.active| == b.concurrency || forall p | 0 <= p < |local| :: b.LeftBehind(local[p], b.net)
  }

  /** assign_asynch_local_queue: the first pass of a blocking local schedule.  The
      source aborts when local jobs are still active. */
  method AssignAsynchLocalQueue(b: EvalBookkeeping, local: seq<nat>, ghost jobs: set<nat>) returns (pos: nat)
    requires b.Valid() && b.active == {}
    requires Ascending(local) && Lists(local, jobs) && jobs <= b.queued && AllFresh(jobs, b.net)
    modifies b`trace, b`net, b`active, b`busy
    ensures Locally(old(b.trace), b.trace)
    ensures b.Valid() && pos <= |local|
    ensures b.net.done == old(b.net.done) && b.net.remote == old(b.net.remote) && b.active <= jobs
    ensures !b.StaticLimited() ==> Started(local, pos, b.net)
    ensures Dealt(b, local, pos, 0) && b.OneEach()
    ensures b.active == Served({}, local, {}, b.staticLocal, b.concurrency, b.concurrency * b.numServers)
    ensures b.concurrency > 0 && Consecutive(local) ==> b.active == FirstOf(local, b.concurrency)
  {
    hide EvalBookkeeping.Valid, SameServer, EvalBookkeeping.OneEach, Served, EvalBookkeeping.LeftBehind, ServedOne,
      Consecutive, FirstOf, AllFresh, Ascending, Lists, Locally, Dealt, Started;
    StartedNext(local, 0, b.net, b.net);
    LocallyOn(b.trace, b.trace, Launch(0));
    b.Facts();
    ListedIn(local, jobs);
    ghost var m := b.concurrency * b.numServers;
    ServedNext({}, local, {}, b.staticLocal, b.concurrency, m, 0);
    pos := 0;
    while pos < |local|
      invariant Locally(old(b.trace), b.trace)
      invariant b.Valid() && pos <= |local| && b.net.local == b.active
      invariant b.net.done == old(b.net.done) && b.net.remote == old(b.net.remote)
      invariant b.active == Served({}, local[..pos], {}, b.staticLocal, b.concurrency, m)
      invariant b.active <= jobs && forall p | pos <= p < |local| :: local[p] !in b.active
      invariant b.concurrency == 0
                || (if b.StaticLimited() then |b.active| < b.concurrency else |b.active| <= b.concurrency)
      invariant !b.StaticLimited() ==> pos == |b.active| && Started(local, pos, b.net)
      invariant b.StaticLimited() ==> forall p | 0 <= p < pos :: b.LeftBehind(local[p], b.net)
    {
      var id := local[pos];
      ghost var n, log := b.net, b.trace;
      ServedNext({}, local, {}, b.staticLocal, b.concurrency, m, pos);
      StillFresh(local, jobs, old(b.net), n, pos);
      if b.StaticLimited() {
        LaunchIfFree(b, id);
        LocallyTwice(old(b.trace), log, b.trace);
        b.StillLeftBehind(local, 0, pos, n);
        if |b.active| == b.concurrency {
          ServedFull({}, local, {}, b.staticLocal, b.concurrency, m, pos + 1);
          FirstServed(b, local, pos);
          return;
        }
      } else if b.concurrency == 0 || pos < b.concurrency {
        LaunchFree(b, id);
        LocallyTwice(old(b.trace), log, b.trace);
        StartedNext(local, pos, n, b.net);
      } else {
        ServedFull({}, local, {}, b.staticLocal, b.concurrency, m, pos);
        FirstServed(b, local, pos);
        return;
      }
      pos := pos + 1;
    }
    ServedNext({}, local, {}, b.staticLocal, b.concurrency, m, pos);
    FirstServed(b, local, pos);
  }

  lemma StillFresh(local: seq<nat>, jobs: set<nat>, before: Net, n: Net, pos: nat)
    requires Ascending(local) && Lists(local, jobs) && AllFresh(jobs, before) && pos < |local|
    requires n.done == before.done && n.remote == before.remote
    requires forall p | pos <= p < |local| :: local[p] !in n.local
    ensures local[pos] in jobs && forall p | pos <= p < |local| :: Fresh(n, local[p])
    ensures forall p | pos < p < |local| :: local[p] != local[pos]
  {}

  /** Launch a job of a free "server"; with static assignment. */
  method LaunchIfFree(b: EvalBookkeeping, id: nat)
    requires b.Valid() && b.StaticLimited() && id in b.queued && Fresh(b.net, id) && |b.active| < b.concurrency
    modifies b`trace, b`net, b`active, b`busy
    ensures Locally(old(b.trace), b.trace) && b.Valid() && b.net.local == b.active && old(b.net).local == old(b.active)
    ensures b.net.done == old(b.net.done) && b.net.remote == old(b.net.remote) && b.LeftBehind(id, b.net)
    ensures old(b.active) <= b.active <= old(b.active) + {id} && |b.active| <= b.concurrency
    ensures b.active == ServedOne(old(b.active), id, {}, b.staticLocal, b.concurrency, b.concurrency * b.numServers)
  {
    hide EvalBookkeeping.Valid, SameServer, EvalBookkeeping.OneEach, Locally;
    LocallyOn(b.trace, b.trace, Launch(id));
    b.Facts();
    b.ServerTaken(id);
    if Residue(id, b.Modulus()) !in b.busy {
      b.LaunchQueued(id);
      b.ActiveIsLocal();
    }
  }

  /** Launch a job without static assignment. */
  method LaunchFree(b: EvalBookkeeping, id: nat)
    requires b.Valid() && !b.StaticLimited() && id in b.queued && Fresh(b.net, id)
    requires b.concurrency == 0 || |b.active| < b.concurrency
    modifies b`trace, b`net, b`active, b`busy
    ensures Locally(old(b.trace), b.trace) && b.Valid() && b.net.local == b.active && !Fresh(b.net, id)
    ensures b.net == old(b.net).(local := b.active)
    ensures b.active == old(b.active) + {id} && |b.active| == |old(b.active)| + 1
    ensures b.active == ServedOne(old(b.active), id, {}, b.staticLocal, b.concurrency, b.concurrency * b.numServers)
  {
    hide EvalBookkeeping.Valid, SameServer, EvalBookkeeping.OneEach, Locally;
    LocallyOn(b.trace, b.trace, Launch(id));
    b.Facts();
    b.LaunchQueued(id);
    b.ActiveIsLocal();
  }

  lemma StartedNext(local: seq<nat>, pos: nat, n: Net, n': Net)
    requires n.local <= n'.local && n.remote == n'.remote && n.done == n'.done
    ensures Started(local, 0, n)
    ensures pos < |local| && Started(local, pos, n) && !Fresh(n', local[pos]) ==> Started(local, pos + 1, n')
  {}

  lemma FirstServed(b: EvalBookkeeping, local: seq<nat>, pos: nat)
    requires if b.StaticLimited() then Exhausted(b, local)
             else
               && pos <= |local| && pos == |b.active| && (pos < |local| ==> b.concurrency != 0 && pos == b.concurrency)
               && forall p | pos <= p < |local| :: Fresh(b.net, local[p])
    requires b.Valid() && b.active == Served({}, local, {}, b.staticLocal, b.concurrency, b.concurrency * b.numServers)
    ensures Dealt(b, local, pos, 0)
    ensures b.OneEach()
    ensures b.concurrency > 0 && Consecutive(local) ==> b.active == FirstOf(local, b.concurrency)
  {
    hide EvalBookkeeping.Valid, SameServer, EvalBookkeeping.OneEach, Served, Consecutive, FirstOf, Exhausted;
    b.ServersApart();
    if b.concurrency > 0 && Consecutive(local) {
      b.SomeServer();
      MulMonotone(1, b.numServers, b.concurrency);
      ServedConsecutive(local, {}, b.staticLocal, b.concurrency, b.concurrency * b.numServers);
    }
  }

  /** Distinct ids that all lie in a set cannot outnumber it. */
  lemma {:induction false} NoMoreThan(q: seq<nat>, s: set<nat>)
    requires Ascending(q) && forall p | 0 <= p < |q| :: q[p] in s
    ensures |q| <= |s|
  {
    if q != [] {
      var last := q[|q|-1];
      NoMoreThan(q[..|q|-1], s - {last});
    }
  }

  /** The jobs of a local schedule that are done so far, and what is true of them. */
  ghost predicate Progress(jobs: set<nat>, before: Net, n: Net, done: set<nat>) {
    && n.local <= jobs && done <= jobs && n.remote == before.remote
    && n.done == before.done + done && done !! before.done && done !! n.local
    && jobs !! n.remote.Keys && jobs !! before.done
  }

  /** What the iterator of a local schedule guarantees.  With stratification nothing
      more can be launched; without, the queue is dealt out in order and the limit is
      used as long as jobs remain. */
  ghost predicate Dealt(b: EvalBookkeeping, local: seq<nat>, pos: nat, recv: nat)
    reads b
  {
    if b.StaticLimited() then Exhausted(b, local)
    else
      && pos <= |local| && pos == |b.active| + recv
      && (pos < |local| ==> b.concurrency != 0 && |b.active| == b.concurrency)
      && (forall p | pos <= p < |local| :: Fresh(b.net, local[p]))
  }

  /** wait_local_evaluations is never asked to wait for nothing: while a result is
      missing, some job is active. */
  lemma SomethingActive(b: EvalBookkeeping, local: seq<nat>, jobs: set<nat>, pos: nat, before: Net, done: set<nat>)
    requires b.Valid() && Ascending(local) && Lists(local, jobs) && |done| < |local|
    requires Progress(jobs, before, b.net, done)
    requires Dealt(b, local, pos, |done|)
    ensures b.active != {}
  {
    if b.active == {} {
      if b.StaticLimited() {
        assert b.busy == {};
        NoMoreThan(local, done);
      }
    }
  }

  lemma ProgressStarts(jobs: set<nat>, before: Net, n: Net)
    requires AllFresh(jobs, before) && n.local <= jobs && n.remote == before.remote && n.done == before.done
    ensures Progress(jobs, before, n, {})
  {}

  lemma ProgressEnds(jobs: set<nat>, before: Net, n: Net, done: set<nat>)
    requires Progress(jobs, before, n, done) && |done| >= |jobs|
    ensures n.local == {} && n.done == before.done + jobs && n.remote == before.remote
  {
    SameSize(done, jobs);
  }

  lemma ProgressStep(local: seq<nat>, jobs: set<nat>, before: Net, n: Net, n': Net, done: set<nat>, completed: set<nat>)
    requires Progress(jobs, before, n, done) && (forall p | 0 <= p < |local| :: local[p] in jobs)
    requires n'.remote == n.remote && completed <= n.local && completed !! n.done && n'.done == n.done + completed
    requires n'.local !! n'.done && (forall j | j in n'.local && j !in n.local :: j in local)
    ensures Progress(jobs, before, n', done + completed) && done !! completed
  {}

  /** Launch the next jobs of an unstratified queue, one for each completion. */
  method LaunchNext(b: EvalBookkeeping, local: seq<nat>, start: nat, completed: nat) returns (pos: nat)
    requires b.Valid() && start <= |local|
    requires !b.StaticLimited() && (b.concurrency == 0 || |b.active| + completed <= b.concurrency)
    requires forall p | start <= p < |local| :: Fresh(b.net, local[p]) && local[p] in b.queued
    requires Ascending(local)
    modifies b`trace, b`net, b`active, b`busy
    ensures Locally(old(b.trace), b.trace)
    ensures b.Valid() && start <= pos <= |local|
    ensures b.net.done == old(b.net.done) && b.net.remote == old(b.net.remote)
    ensures old(b.active) <= b.active && forall j | j in b.active && j !in old(b.active) :: j in local
    ensures |b.active| - |old(b.active)| == pos - start <= completed
    ensures pos < |local| ==> pos - start == completed
    ensures forall p | pos <= p < |local| :: Fresh(b.net, local[p])
  {
    hide EvalBookkeeping.Valid, Locally, EvalBookkeeping.OneEach;
    LocallyOn(b.trace, b.trace, Launch(0));
    LimitFacts(b);
    pos := start;
    while pos < |local| && pos - start < completed
      invariant Locally(old(b.trace), b.trace)
      invariant b.Valid() && start <= pos <= |local| && pos - start <= completed
      invariant b.net.done == old(b.net.done) && b.net.remote == old(b.net.remote)
      invariant old(b.active) <= b.active && forall j | j in b.active && j !in old(b.active) :: j in local
      invariant |b.active| - |old(b.active)| == pos - start
      invariant forall p | pos <= p < |local| :: Fresh(b.net, local[p])
    {
      LimitFacts(b);
      LocallyOn(old(b.trace), b.trace, Launch(local[pos]));
      b.LaunchQueued(local[pos]);
      pos := pos + 1;
    }
  }

  lemma LimitFacts(b: EvalBookkeeping)
    requires b.Valid()
    ensures b.net.local == b.active
  {}

  /** File a set of completions and refill the freed places. */
  method FileAndRefill(b: EvalBookkeeping, local: seq<nat>, start: nat, ghost recv: nat, completed: set<nat>)
    returns (pos: nat)
    requires b.Valid() && completed != {} && completed <= b.active
    requires Ascending(local) && (forall p | 0 <= p < |local| :: local[p] in b.queued)
    requires Dealt(b, local, start, recv)
    modifies b`trace, b`net, b`active, b`busy, b`raw
    ensures Locally(old(b.trace), b.trace)
    ensures b.Valid() && b.net.local == b.active && Dealt(b, local, pos, recv + |completed|)
    ensures b.net.remote == old(b.net.remote) && b.net.done == old(b.net.done) + completed
    ensures completed !! old(b.net.done) && b.net.local !! b.net.done
    ensures forall j | j in b.active && j !in old(b.active) :: j in local
  {
    hide EvalBookkeeping.Valid, Ascending, EvalBookkeeping.LeftBehind, Grows, Locally, Served, EvalBookkeeping.OneEach;
    b.Facts();
    b.ProcessCompleted(completed);
    b.Facts();
    ghost var log := b.trace;
    assert old(b.active) == b.active + completed && |old(b.active)| == |b.active| + |completed|;
    if b.StaticLimited() {
      pos := b.FillLocal(local, 0);
    } else {
      pos := LaunchNext(b, local, start, |completed|);
    }
    LocallyTwice(old(b.trace), log, b.trace);
    b.Facts();
  }

  lemma {:induction false} IdsOf(q: seq<nat>) returns (ids: set<nat>)
    requires Ascending(q)
    ensures Lists(q, ids) && forall j | j in ids :: j in q
  {
    if q == [] {
      ids := {};
    } else {
      var last := q[|q|-1];
      ids := IdsOf(q[..|q|-1]);
      assert last !in ids;
      ids := ids + {last};
      forall i | 0 <= i < |q| ensures q[i] in ids {
        if i < |q| - 1 { assert q[..|q|-1][i] == q[i]; }
      }
    }
  }

  /** asynchronous_local_evaluations: for every pattern of completions each job of the
      queue is launched once and its result filed once. */
  method AsynchronousLocalEvaluations(b: EvalBookkeeping, local: seq<nat>, ghost jobs: set<nat>)
    requires b.Valid() && b.active == {}
    requires Ascending(local) && Lists(local, jobs) && jobs <= b.queued && AllFresh(jobs, b.net)
    modifies b`trace, b`net, b`active, b`busy, b`raw
    ensures Locally(old(b.trace), b.trace)
    ensures b.Valid() && b.active == {}
    ensures b.net.done == old(b.net.done) + jobs && b.net.remote == old(b.net.remote)
  {
    hide EvalBookkeeping.Valid, Lists, Ascending, Progress, Dealt, Locally, Served, FirstOf, Consecutive,
      EvalBookkeeping.OneEach, AllFresh;
    ghost var before := b.net;
    ghost var done: set<nat> := {};
    var pos := AssignAsynchLocalQueue(b, local, jobs);
    b.Facts();
    ListedIn(local, jobs);
    ProgressStarts(jobs, before, b.net);
    var recv := 0;
    while recv < |local|
      invariant Locally(old(b.trace), b.trace)
      invariant b.Valid() && b.net.local == b.active
      invariant Progress(jobs, before, b.net, done) && recv == |done|
      invariant Dealt(b, local, pos, recv)
    {
      ghost var prior, log := b.net, b.trace;
      SomethingActive(b, local, jobs, pos, before, done);
      assert b.active <= b.active;
      var completed: set<nat> :| completed != {} && completed <= b.active;
      pos := FileAndRefill(b, local, pos, recv, completed);
      LocallyTwice(old(b.trace), log, b.trace);
      ProgressStep(local, jobs, before, prior, b.net, done, completed);
      assert |done + completed| == |done| + |completed|;
      recv, done := recv + |completed|, done + completed;
    }
    ProgressEnds(jobs, before, b.net, done);
  }

  /** synchronous_local_evaluations: evaluate the jobs of a queue one after the other. */
  method SynchronousLocalEvaluations(b: EvalBookkeeping, local: seq<nat>, ghost jobs: set<nat>)
    requires b.Valid() && b.active == {}
    requires Ascending(local) && Lists(local, jobs) && jobs <= b.queued && AllFresh(jobs, b.net)
    modifies b`trace, b`net, b`active, b`busy, b`raw
    ensures InSequence(old(b.trace), b.trace, local, |local|)
    ensures b.Valid() && b.active == {}
    ensures b.net.done == old(b.net.done) + jobs && b.net.remote == old(b.net.remote)
  {
    hide EvalBookkeeping.Valid, Ascending, Lists, AllFresh, Evaluated, InSequence;
    SequenceStarts(b.trace, local);
    b.ActiveIsLocal();
    NoneEvaluated(local, jobs);
    var i := 0;
    ghost var done: set<nat> := {};
    while i < |local|
      invariant InSequence(old(b.trace), b.trace, local, i)
      invariant i <= |local| && b.Valid() && b.active == {} && b.net.local == old(b.net).local
      invariant b.net.done == old(b.net.done) + done && b.net.remote == old(b.net.remote)
      invariant Evaluated(local, jobs, done, i)
    {
      NextEvaluated(local, jobs, done, i, old(b.net), b.net);
      ghost var log := b.trace;
      EvaluateOne(b, local[i]);
      SequenceNext(old(b.trace), log, local, i);
      done := done + {local[i]};
      i := i + 1;
    }
    AllEvaluated(local, jobs, done);
  }

  /** The first i jobs of a queue were evaluated one after the other, in queue order. */
  ghost predicate InSequence(t: seq<Event>, t': seq<Event>, local: seq<nat>, i: nat) {
    && t <= t' && i <= |local| && |t'| == |t| + 2 * i
    && forall p | 0 <= p < i ::
         t'[|t| + 2 * p] == Launch(local[p]) && t'[|t| + 2 * p + 1] == Complete(local[p])
  }

  lemma SequenceStarts(t: seq<Event>, local: seq<nat>)
    ensures InSequence(t, t, local, 0)
  {}

  lemma SequenceNext(t: seq<Event>, t': seq<Event>, local: seq<nat>, i: nat)
    requires InSequence(t, t', local, i) && i < |local|
    ensures InSequence(t, t' + [Launch(local[i])] + [Complete(local[i])], local, i + 1)
  {}

  lemma SequenceIsLocal(t: seq<Event>, t': seq<Event>, local: seq<nat>, i: nat)
    requires InSequence(t, t', local, i)
    ensures Locally(t, t')
  {
    forall k | |t| <= k < |t'| ensures t'[k].Launch? || t'[k].Complete? {
      var p := (k - |t|) / 2;
      assert t'[|t| + 2 * p] == Launch(local[p]) && t'[|t| + 2 * p + 1] == Complete(local[p]);
    }
  }

  /** The jobs done are those of the first i places of the queue. */
  ghost predicate Evaluated(local: seq<nat>, jobs: set<nat>, done: set<nat>, i: nat) {
    done <= jobs && |done| == i && forall j, p | j in done && i <= p < |local| :: j < local[p]
  }

  lemma NoneEvaluated(local: seq<nat>, jobs: set<nat>)
    ensures Evaluated(local, jobs, {}, 0)
  {}

  lemma NextEvaluated(local: seq<nat>, jobs: set<nat>, done: set<nat>, i: nat, before: Net, n: Net)
    requires Evaluated(local, jobs, done, i) && Ascending(local) && Lists(local, jobs) && i < |local|
    requires AllFresh(jobs, before) && n == before.(done := before.done + done)
    ensures local[i] in jobs && Fresh(n, local[i]) && Evaluated(local, jobs, done + {local[i]}, i + 1)
  {}

  lemma AllEvaluated(local: seq<nat>, jobs: set<nat>, done: set<nat>)
    requires Evaluated(local, jobs, done, |local|) && Lists(local, jobs)
    ensures done == jobs
  {
    SameSize(done, jobs);
  }

  /** Evaluate one job. */
  method EvaluateOne(b: EvalBookkeeping, job: nat)
    requires b.Valid() && b.active == {} && job in b.queued && Fresh(b.net, job)
    modifies b`trace, b`net, b`active, b`busy, b`raw
    ensures b.trace == old(b.trace) + [Launch(job)] + [Complete(job)]
    ensures b.Valid() && b.active == {}
    ensures b.net == old(b.net).(done := old(b.net).done + {job})
  {
    hide EvalBookkeeping.Valid;
    b.ActiveIsLocal();
    b.NothingBusy();
    b.LaunchQueued(job);
    b.ProcessAsynchLocal(job);
  }

  lemma ListedIn(q: seq<nat>, s: set<nat>)
    requires Lists(q, s)
    ensures forall p | 0 <= p < |q| :: q[p] in s
    ensures |q| == |s|
  {}

  /** assign_asynch_local_queue_nowait: add to a set of active jobs, up to the limit. */
  method AssignAsynchLocalQueueNowait(b: EvalBookkeeping, local: seq<nat>) returns (pos: nat)
    requires b.Valid() && Ascending(local)
    requires forall p | 0 <= p < |local| :: local[p] in b.queued && (local[p] in b.active || Fresh(b.net, local[p]))
    modifies b`trace, b`net, b`active, b`busy
    ensures Locally(old(b.trace), b.trace)
    ensures b.Valid() && pos <= |local|
    ensures b.net.done == old(b.net.done) && b.net.remote == old(b.net.remote) && old(b.active) <= b.active
    ensures forall j | j in b.active && j !in old(b.active) :: j in local
    ensures forall p | 0 <= p < pos :: b.LeftBehind(local[p], b.net)
    ensures pos < |local| ==> b.concurrency != 0 && |b.active| == b.concurrency
    ensures b.OneEach()
    ensures b.active == Served(old(b.active), local, {}, b.staticLocal, b.concurrency, b.concurrency * b.numServers)
  {
    hide EvalBookkeeping.Valid, SameServer, EvalBookkeeping.OneEach, Served, EvalBookkeeping.LeftBehind, ServedOne,
      Ascending, Locally;
    b.Facts();
    b.ServersApart();
    ghost var m := b.concurrency * b.numServers;
    ServedNext(b.active, local, {}, b.staticLocal, b.concurrency, m, 0);
    LocallyOn(b.trace, b.trace, Launch(0));
    pos := 0;
    while pos < |local|
      invariant Locally(old(b.trace), b.trace)
      invariant b.Valid() && pos <= |local| && b.net.local == b.active && b.OneEach()
      invariant b.net.done == old(b.net.done) && b.net.remote == old(b.net.remote) && old(b.active) <= b.active
      invariant b.concurrency != 0 ==> |b.active| <= b.concurrency
      invariant forall j | j in b.active && j !in old(b.active) :: j in local
      invariant forall p | 0 <= p < |local| :: local[p] in b.active || Fresh(b.net, local[p])
      invariant forall p | 0 <= p < pos :: b.LeftBehind(local[p], b.net)
      invariant b.active == Served(old(b.active), local[..pos], {}, b.staticLocal, b.concurrency, m)
    {
      if b.concurrency != 0 && |b.active| >= b.concurrency {
        ServedFull(old(b.active), local, {}, b.staticLocal, b.concurrency, m, pos);
        return;
      }
      ghost var n, log := b.net, b.trace;
      ServedNext(old(b.active), local, {}, b.staticLocal, b.concurrency, m, pos);
      LaunchIfNew(b, local[pos]);
      LocallyTwice(old(b.trace), log, b.trace);
      b.StillLeftBehind(local, 0, pos, n);
      pos := pos + 1;
    }
    ServedNext(old(b.active), local, {}, b.staticLocal, b.concurrency, m, pos);
  }

  /** Launch a job that is not active, if its "server" is free. */
  method LaunchIfNew(b: EvalBookkeeping, id: nat)
    requires b.Valid() && id in b.queued && (id in b.active || Fresh(b.net, id))
    requires b.concurrency == 0 || |b.active| < b.concurrency
    modifies b`trace, b`net, b`active, b`busy
    ensures Locally(old(b.trace), b.trace) && b.Valid() && b.OneEach() && b.LeftBehind(id, b.net)
    ensures old(b.net).local == old(b.active) && b.net == old(b.net).(local := b.active)
    ensures old(b.active) <= b.active <= old(b.active) + {id} && (b.concurrency == 0 || |b.active| <= b.concurrency)
    ensures b.active == ServedOne(old(b.active), id, {}, b.staticLocal, b.concurrency, b.concurrency * b.numServers)
  {
    hide EvalBookkeeping.Valid, SameServer, EvalBookkeeping.OneEach, Locally;
    LocallyOn(b.trace, b.trace, Launch(id));
    b.Facts();
    b.ServersApart();
    if b.StaticLimited() { b.ServerTaken(id); }
    if id !in b.active && (!b.StaticLimited() || Residue(id, b.Modulus()) !in b.busy) {
      b.LaunchQueued(id);
      b.ActiveIsLocal();
    }
  }

  /** asynchronous_local_evaluations_nowait: launch, then poll once and backfill.  Over
      any sequence of calls the limit and the "server" bits are respected, and a call
      leaves a job pending only when the limit is reached or its "server" is busy. */
  method AsynchronousLocalEvaluationsNowait(b: EvalBookkeeping, ready: set<nat>)
    requires b.Valid() && b.running.Keys == {} && b.raw == {}
    modifies b`trace, b`net, b`active, b`busy, b`raw
    ensures old(b.trace) <= b.trace
    ensures b.Valid()
    ensures old(b.net.done) <= b.net.done && b.net.remote == old(b.net.remote)
    ensures b.raw == b.net.done - old(b.net.done) && Reports(b.raw, ready, old(b.active))
    ensures old(b.active) <= b.active + b.net.done
    ensures b.concurrency != 0 ==> |b.active| <= b.concurrency
    ensures Exhausted(b, b.queue)
  {
    hide EvalBookkeeping.Valid, Ascending, Lists, Exhausted, EvalBookkeeping.LeftBehind, Reports;
    b.NothingDoneQueued();
    QueueForNowait(b);
    ghost var done, was := b.net.done, b.active;
    b.Facts();
    ghost var log := b.trace;
    var pos := AssignAsynchLocalQueueNowait(b, b.queue);
    LocallyExtends(log, b.trace);
    b.Facts();
    b.QueuedSets();
    ghost var waiting := b.active;
    PollActive(b, pos, ready);
    PollReports(done, b.net.done, was, waiting, b.active, ready, b.queued);
    b.NewResults(done);
    b.Facts();
  }

  lemma PollReports(done: set<nat>, done': set<nat>, was: set<nat>, waiting: set<nat>, active: set<nat>,
      ready: set<nat>, queued: set<nat>)
    requires done' == done + ready * waiting && was <= waiting <= active + done' && waiting <= queued && waiting !! done
    ensures done <= done' && done' - done <= queued && was <= active + done' && Reports(done' - done, ready, was)
  {}

  /** Poll the active jobs once and backfill. */
  method PollActive(b: EvalBookkeeping, start: nat, ready: set<nat>)
    requires b.Valid() && start <= |b.queue| && forall p | 0 <= p < start :: b.LeftBehind(b.queue[p], b.net)
    requires start < |b.queue| ==> b.concurrency != 0 && |b.active| == b.concurrency
    modifies b`trace, b`net, b`active, b`busy, b`raw
    ensures old(b.trace) <= b.trace
    ensures b.Valid() && Exhausted(b, b.queue) && b.net.remote == old(b.net.remote)
    ensures b.net.done == old(b.net.done) + ready * old(b.active)
    ensures old(b.active) <= b.active + b.net.done
  {
    hide Consistent, Safe, Legal, State, BitsMatch, Grows;
    b.ActiveIsLocal();
    ghost var n := b.net;
    var pos, completed := b.TestLocalBackfill(start, ready);
    b.ActiveIsLocal();
    GrowsLocal(n, b.net);
    if completed > 0 && pos == |b.queue| { StillBehind(b, n, start); }
  }

  lemma GrowsLocal(n: Net, n': Net)
    requires Grows(n, n')
    ensures n.local <= n'.local + n'.done && n.done <= n'.done
  {}

  lemma QueueForNowait(b: EvalBookkeeping)
    requires b.Valid() && b.running.Keys == {} && b.raw == {}
    ensures Ascending(b.queue)
    ensures forall p | 0 <= p < |b.queue| ::
              b.queue[p] in b.queued && (b.queue[p] in b.active || Fresh(b.net, b.queue[p]))
  {
    hide Safe, Legal, State, BitsMatch;
    forall p | 0 <= p < |b.queue| ensures b.queue[p] in b.active || Fresh(b.net, b.queue[p]) {
      PendingIsFresh(b.queue, b.queued, b.net, b.raw, b.active, b.running, b.buffers, b.queue[p]);
    }
  }

  /** What was placed stays placed. */
  lemma StillBehind(b: EvalBookkeeping, n: Net, mid: nat)
    requires Grows(n, b.net) && mid <= |b.queue|
    requires !b.StaticLimited() ==> forall p | 0 <= p < mid :: !Fresh(n, b.queue[p])
    ensures !b.StaticLimited() ==> forall p | 0 <= p < mid :: b.LeftBehind(b.queue[p], b.net)
  {}
}
