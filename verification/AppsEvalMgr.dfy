/**
  The HOPSPACK evaluation manager on top of the engine: it bounds the evaluations in
  progress, pairs engine ids with optimizer tags, and hands results out one at a time.
 */
module AppsEvalMgr {
  import opened Common

  type Point = seq<real>
  type Values = seq<real>

  function Drop<V>(m: map<nat, V>, k: nat): map<nat, V> {
    m - {k}
  }

  /** Engine ids and outstanding tags correspond one to one. */
  ghost predicate Tagged(tags: map<nat, nat>, outstanding: map<nat, Point>) {
    && (forall i | i in tags :: tags[i] in outstanding)
    && (forall i, j | i in tags && j in tags && tags[i] == tags[j] :: i == j)
    && (forall t | t in outstanding :: exists i :: i in tags && tags[i] == t)
  }

  lemma TaggedSubmit(tags: map<nat, nat>, outstanding: map<nat, Point>, id: nat, tag: nat, x: Point)
    requires Tagged(tags, outstanding) && id !in tags && tag !in outstanding
    ensures Tagged(tags[id := tag], outstanding[tag := x])
  {
    var tags', after := tags[id := tag], outstanding[tag := x];
    forall t | t in after ensures exists i :: i in tags' && tags'[i] == t {
      if t == tag {
        assert tags'[id] == tag;
      } else {
        var i :| i in tags && tags[i] == t;
        assert tags'[i] == t;
      }
    }
  }

  lemma TaggedRecv(tags: map<nat, nat>, outstanding: map<nat, Point>, id: nat)
    requires Tagged(tags, outstanding) && id in tags
    ensures Tagged(Drop(tags, id), Drop(outstanding, tags[id]))
  {
    var tag := tags[id];
    forall t | t in Drop(outstanding, tag) ensures exists i :: i in Drop(tags, id) && Drop(tags, id)[i] == t {
      var i :| i in tags && tags[i] == t;
      assert i in Drop(tags, id);
    }
  }

  /** The job of a tag under its engine id; a buffered response belongs to its job. */
  ghost predicate Paired(tags: map<nat, nat>, running: map<nat, Point>, buffer: map<nat, Values>,
      outstanding: map<nat, Point>, f: Point -> Values)
  {
    && Tagged(tags, outstanding) && tags.Keys == running.Keys + buffer.Keys && running.Keys !! buffer.Keys
    && (forall i | i in tags :: tags[i] in outstanding)
    && (forall i | i in running :: running[i] == outstanding[tags[i]])
    && (forall i | i in buffer :: buffer[i] == f(outstanding[tags[i]]))
  }

  lemma PairedSubmit(tags: map<nat, nat>, running: map<nat, Point>, buffer: map<nat, Values>,
      outstanding: map<nat, Point>, f: Point -> Values, id: nat, tag: nat, x: Point)
    requires Paired(tags, running, buffer, outstanding, f) && id !in tags && tag !in outstanding
    ensures Paired(tags[id := tag], running[id := x], buffer, outstanding[tag := x], f)
  {
    hide Tagged;
    TaggedSubmit(tags, outstanding, id, tag, x);
  }

  lemma PairedBuffer(tags: map<nat, nat>, running: map<nat, Point>, buffer: map<nat, Values>,
      outstanding: map<nat, Point>, f: Point -> Values, done: set<nat>)
    requires Paired(tags, running, buffer, outstanding, f) && done <= running.Keys
    ensures Paired(tags, running - done, buffer + (map i | i in done :: f(running[i])), outstanding, f)
  {}

  lemma HasTag(tags: map<nat, nat>, running: map<nat, Point>, buffer: map<nat, Values>, outstanding: map<nat, Point>,
      f: Point -> Values, id: nat)
    requires Paired(tags, running, buffer, outstanding, f) && id in buffer
    ensures id in tags
  {}

  lemma PairedRecv(tags: map<nat, nat>, running: map<nat, Point>, buffer: map<nat, Values>,
      outstanding: map<nat, Point>, f: Point -> Values, id: nat, tag: nat)
    requires Paired(tags, running, buffer, outstanding, f) && id in buffer && (id in tags ==> tag == tags[id])
    ensures id in tags && tag in outstanding && buffer[id] == f(outstanding[tag])
    ensures Paired(Drop(tags, id), running, Drop(buffer, id), Drop(outstanding, tag), f)
  {
    hide Tagged;
    TaggedRecv(tags, outstanding, id);
    DistinctTags(tags, outstanding, id);
  }

  lemma DistinctTags(tags: map<nat, nat>, outstanding: map<nat, Point>, id: nat)
    requires Tagged(tags, outstanding) && id in tags
    ensures forall i | i in tags && i != id :: tags[i] != tags[id]
  {}

  /** The workers in use are those with a tag outstanding, and every tag submitted is
      outstanding or was returned. */
  ghost predicate Tally(used: nat, total: nat, outstanding: map<nat, Point>, submitted: multiset<nat>,
      returned: multiset<nat>)
  {
    used == |outstanding| <= total && submitted == returned + multiset(outstanding.Keys)
  }

  lemma InUse(used: nat, total: nat, outstanding: map<nat, Point>, submitted: multiset<nat>, returned: multiset<nat>)
    requires Tally(used, total, outstanding, submitted, returned)
    ensures used == |outstanding|
  {}

  lemma TallySubmit(used: nat, total: nat, outstanding: map<nat, Point>, submitted: multiset<nat>,
      returned: multiset<nat>, tag: nat, x: Point)
    requires Tally(used, total, outstanding, submitted, returned) && tag !in outstanding && used < total
    ensures Tally(used + 1, total, outstanding[tag := x], submitted + multiset{tag}, returned)
  {
    assert outstanding[tag := x].Keys == outstanding.Keys + {tag};
  }

  lemma TallyRecv(used: nat, total: nat, outstanding: map<nat, Point>, submitted: multiset<nat>,
      returned: multiset<nat>, tag: nat)
    requires Tally(used, total, outstanding, submitted, returned) && tag in outstanding
    ensures used > 0 && Tally(used - 1, total, Drop(outstanding, tag), submitted, returned + multiset{tag})
  {
    assert Drop(outstanding, tag).Keys == outstanding.Keys - {tag};
    assert outstanding.Keys == Drop(outstanding, tag).Keys + {tag};
  }

  /** Synchronous evaluations wait under their tags. */
  ghost predicate Waiting(functionList: map<nat, Values>, outstanding: map<nat, Point>, f: Point -> Values) {
    functionList.Keys == outstanding.Keys && forall t | t in functionList :: functionList[t] == f(outstanding[t])
  }

  lemma WaitingSubmit(functionList: map<nat, Values>, outstanding: map<nat, Point>, f: Point -> Values, tag: nat,
      x: Point)
    requires Waiting(functionList, outstanding, f)
    ensures Waiting(functionList[tag := f(x)], outstanding[tag := x], f)
  {}

  lemma WaitingRecv(functionList: map<nat, Values>, outstanding: map<nat, Point>, f: Point -> Values, tag: nat)
    requires Waiting(functionList, outstanding, f) && tag in functionList
    ensures tag in outstanding && functionList[tag] == f(outstanding[tag])
    ensures Waiting(Drop(functionList, tag), Drop(outstanding, tag), f)
  {}

  ghost predicate IdsUpTo(tags: map<nat, nat>, n: nat) {
    forall i | i in tags :: 1 <= i <= n
  }

  lemma IdsSubmit(tags: map<nat, nat>, n: nat, tag: nat)
    requires IdsUpTo(tags, n)
    ensures n + 1 !in tags && IdsUpTo(tags[n + 1 := tag], n + 1)
  {}

  lemma IdsRecv(tags: map<nat, nat>, n: nat, id: nat)
    requires IdsUpTo(tags, n) && id in tags
    ensures id > 0 && IdsUpTo(Drop(tags, id), n)
  {}

  class EvalManager {
    const numWorkersTotal: nat
    const modelAsynchFlag: bool
    const blockingSynch: bool
    const f: Point -> Values             // what the model computes

    var numWorkersUsed: nat
    var tagList: map<nat, nat>           // engine id to tag
    var dakotaResponseMap: map<nat, Values>
    var functionList: map<nat, Values>   // by tag, synchronous evaluations
    var evaluationId: nat                // of the model
    var running: map<nat, Point>         // evaluations the model has not returned yet

    ghost var outstanding: map<nat, Point>  // tags submitted and not returned
    ghost var submitted: multiset<nat>
    ghost var returned: multiset<nat>

    ghost predicate Valid()
      reads this
    {
      && Tally(numWorkersUsed, numWorkersTotal, outstanding, submitted, returned) && IdsUpTo(tagList, evaluationId)
      && (if modelAsynchFlag then Paired(tagList, running, dakotaResponseMap, outstanding, f)
          else Waiting(functionList, outstanding, f))
    }

    constructor (workers: nat, asynch: bool, blocking: bool, f: Point -> Values)
      ensures Valid() && numWorkersTotal == workers && modelAsynchFlag == asynch && blockingSynch == blocking
      ensures outstanding == map[] && submitted == multiset{} && returned == multiset{}
    {
      numWorkersTotal, modelAsynchFlag, blockingSynch, this.f := workers, asynch, blocking, f;
      numWorkersUsed, evaluationId, tagList, dakotaResponseMap, functionList, running := 0, 0, map[], map[], map[],
        map[];
      outstanding, submitted, returned := map[], multiset{}, multiset{};
    }

    method IsReadyForWork() returns (ready: bool)
      requires Valid()
      ensures ready <==> |outstanding| < numWorkersTotal
    {
      hide Paired;
      ready := numWorkersUsed < numWorkersTotal;
    }

    /** submit: accepted exactly when a worker is free. */
    method Submit(tag: nat, x: Point) returns (ok: bool)
      requires Valid() && tag !in outstanding
      modifies this
      ensures Valid() && ok == (|old(outstanding)| < numWorkersTotal)
      ensures outstanding == if ok then old(outstanding)[tag := x] else old(outstanding)
      ensures submitted == if ok then old(submitted) + multiset{tag} else old(submitted)
      ensures returned == old(returned)
    {
      hide Paired, Tally, Waiting, IdsUpTo, Drop;
      InUse(numWorkersUsed, numWorkersTotal, outstanding, submitted, returned);
      if numWorkersUsed >= numWorkersTotal { return false; }
      ghost var before := outstanding;
      Occupy(tag, x);
      if modelAsynchFlag {
        IdsSubmit(tagList, evaluationId, tag);
        evaluationId := evaluationId + 1;
        PairedSubmit(tagList, running, dakotaResponseMap, before, f, evaluationId, tag, x);
        running := running[evaluationId := x];
        tagList := tagList[evaluationId := tag];
      } else {
        WaitingSubmit(functionList, before, f, tag, x);
        functionList := functionList[tag := f(x)];
      }
      ok := true;
    }

    /** One more worker is in use, for a new tag. */
    method Occupy(ghost tag: nat, ghost x: Point)
      requires Tally(numWorkersUsed, numWorkersTotal, outstanding, submitted, returned)
      requires tag !in outstanding && numWorkersUsed < numWorkersTotal
      modifies `numWorkersUsed, `outstanding, `submitted
      ensures Tally(numWorkersUsed, numWorkersTotal, outstanding, submitted, returned)
      ensures outstanding == old(outstanding)[tag := x] && submitted == old(submitted) + multiset{tag}
    {
      hide Tally;
      TallySubmit(numWorkersUsed, numWorkersTotal, outstanding, submitted, returned, tag, x);
      numWorkersUsed := numWorkersUsed + 1;
      outstanding, submitted := outstanding[tag := x], submitted + multiset{tag};
    }

    /** A worker is free again: the result of its tag is handed out. */
    method Release(ghost tag: nat)
      requires Tally(numWorkersUsed, numWorkersTotal, outstanding, submitted, returned) && tag in outstanding
      modifies `numWorkersUsed, `outstanding, `returned
      ensures Tally(numWorkersUsed, numWorkersTotal, outstanding, submitted, returned)
      ensures outstanding == Drop(old(outstanding), tag) && returned == old(returned) + multiset{tag}
    {
      hide Tally, Drop;
      TallyRecv(numWorkersUsed, numWorkersTotal, outstanding, submitted, returned, tag);
      numWorkersUsed := numWorkersUsed - 1;
      outstanding, returned := Drop(outstanding, tag), returned + multiset{tag};
    }

    /** The model's synchronize and synchronize_nowait: all evaluations in progress or those
        that are ready, each returned once. */
    method Synchronize(ready: set<nat>)
      requires Valid() && modelAsynchFlag && dakotaResponseMap == map[]
      modifies `running, `dakotaResponseMap
      ensures Valid() && old(running).Keys == running.Keys + dakotaResponseMap.Keys
      ensures dakotaResponseMap.Keys == if blockingSynch then old(running).Keys else old(running).Keys * ready
    {
      hide Paired, Tally, IdsUpTo, Drop;
      var done := if blockingSynch then running.Keys else running.Keys * ready;
      PairedBuffer(tagList, running, dakotaResponseMap, outstanding, f, done);
      dakotaResponseMap := dakotaResponseMap + (map i | i in done :: f(running[i]));
      running := running - done;
    }

    /** recv: one finished evaluation under its own tag with its own values, or 0 when
        nothing is finished.  `ready` are the evaluations whose results have arrived.  The
        branch for a response without a tag cannot be reached. */
    method Recv(ready: set<nat>) returns (id: nat, tag: nat, values: Values)
      requires Valid()
      modifies this
      ensures Valid() && submitted == old(submitted)
      ensures id != 0 ==> tag in old(outstanding) && values == f(old(outstanding)[tag])
      ensures outstanding == if id != 0 then Drop(old(outstanding), tag) else old(outstanding)
      ensures returned == if id != 0 then old(returned) + multiset{tag} else old(returned)
      ensures id == 0 && (blockingSynch || !modelAsynchFlag) ==> outstanding == map[]
      ensures modelAsynchFlag && old(dakotaResponseMap) != map[] ==> id != 0 && id in old(dakotaResponseMap)
      ensures modelAsynchFlag ==> forall k | k in old(dakotaResponseMap) :: id <= k
      ensures modelAsynchFlag && id != 0 ==> id in old(tagList) && tag == old(tagList)[id]
      ensures modelAsynchFlag && !blockingSynch && old(dakotaResponseMap) == map[] ==>
                (id == 0 <==> old(running).Keys * ready == {})
    {
      hide Paired, Tally, Waiting, IdsUpTo, Drop;
      id, tag, values := 0, 0, [];
      if modelAsynchFlag {
        if dakotaResponseMap == map[] { Synchronize(ready); }
        if dakotaResponseMap != map[] {
          id := Least(dakotaResponseMap.Keys);
          HasTag(tagList, running, dakotaResponseMap, outstanding, f, id);
          tag := tagList[id];
          values := RecvBuffered(id, tag);
        } else {
          NothingLeft(tagList, running, dakotaResponseMap, outstanding, f);
        }
      } else if functionList != map[] {
        tag := Least(functionList.Keys);
        values := RecvWaiting(tag);
        id := tag + 1;
      } else {
        NoneWaiting(functionList, outstanding, f);
      }
    }

    /** Hand out the result of a synchronous evaluation. */
    method RecvWaiting(tag: nat) returns (values: Values)
      requires Valid() && !modelAsynchFlag && tag in functionList
      modifies `functionList, `numWorkersUsed, `outstanding, `returned
      ensures Valid() && tag in old(outstanding) && values == f(old(outstanding)[tag])
      ensures outstanding == Drop(old(outstanding), tag) && returned == old(returned) + multiset{tag}
    {
      hide Paired, Tally, Waiting, IdsUpTo, Drop;
      WaitingRecv(functionList, outstanding, f, tag);
      values := functionList[tag];
      functionList := Drop(functionList, tag);
      Release(tag);
    }

    /** Hand out a buffered response. */
    method RecvBuffered(id: nat, tag: nat) returns (values: Values)
      requires Valid() && modelAsynchFlag && id in dakotaResponseMap && id in tagList && tag == tagList[id]
      modifies `dakotaResponseMap, `tagList, `numWorkersUsed, `outstanding, `returned
      ensures Valid() && id != 0
      ensures tag in old(outstanding) && values == f(old(outstanding)[tag])
      ensures outstanding == Drop(old(outstanding), tag) && returned == old(returned) + multiset{tag}
    {
      hide Paired, Tally, Waiting, IdsUpTo, Drop;
      values := dakotaResponseMap[id];
      PairedRecv(tagList, running, dakotaResponseMap, outstanding, f, id, tag);
      IdsRecv(tagList, evaluationId, id);
      dakotaResponseMap, tagList := Drop(dakotaResponseMap, id), Drop(tagList, id);
      Release(tag);
    }
  }

  lemma NoneWaiting(functionList: map<nat, Values>, outstanding: map<nat, Point>, f: Point -> Values)
    requires Waiting(functionList, outstanding, f) && functionList == map[]
    ensures outstanding == map[]
  {
    assert outstanding.Keys == {};
  }

  lemma NothingLeft(tags: map<nat, nat>, running: map<nat, Point>, buffer: map<nat, Values>,
      outstanding: map<nat, Point>, f: Point -> Values)
    requires Paired(tags, running, buffer, outstanding, f) && buffer == map[]
    ensures running == map[] ==> outstanding == map[]
  {
    if running == map[] {
      assert outstanding.Keys == {};
    }
  }
}
