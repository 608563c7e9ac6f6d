# Evaluation scheduling in Dakota: a Dafny model

Dakota hands simulation requests to `ApplicationInterface`. The interface looks each request up in
an evaluation cache and in the queue of pending jobs, runs what is new on local processes or on
message-passing servers under one of several schedulers, and hands the results back by evaluation
id. This project models that engine, its blocking and nonblocking schedulers, the server loops on
the other end, and several smaller algorithms that sit around it, and proves what holds over every
run of them.

How the parts fit together:

- `SlotProtocol` is the reference protocol: a run is a sequence of sends, receipts, launches and
  completions, and `Legal` says which runs are safe. `Bookkeeping` holds the shared queues and maps
  as a class, with the event log of everything that was sent and received; each scheduler is a
  method over that class. Every operation and every scheduler keeps the log a legal run and extends
  it, so the protocol's results hold over any number of calls (`SlotProtocol.RunsContinue`).
- `SlotAllocator`, `NowaitPlacement`, `HomeSlots` and `PeerDeal` hold the buffer numbering and the
  round-robin arithmetic. `MasterDynamic`, `MasterNowait`, `PeerDynamic`, `PeerNowait`,
  `PeerStatic`, `PeerStaticNowait` and `LocalSchedulers` are the schedulers.
- `Servers` is the system of scheduling processor and servers as a message-passing state machine,
  together with the two server loops. `Network` connects it with `SlotProtocol`: a scheduler's run
  and a servers' run that exchange the same messages agree on what is in flight.
- `Responses`, `EngineSpec` and `Engine` are the cache and duplicate detection: `EngineSpec` on
  values, `Engine` with the shared response objects of the source. `Session` puts an engine and any
  of the schedulers together.
- `Continuation`, `AppsEvalMgr`, `DesignSizing`, `BestSolutions`, `Batches`, `PopCounts` and
  `CrossValidation` stand apart from the engine. `Common` holds what several modules share.

Whatever comes from outside is chosen freely: which requests have completed, in which order, what a
local poll reports, whether an evaluation fails. A property therefore holds for every such choice.
Loops that poll without waiting are given the sequence of what their polls find, for every such
sequence; they say what is true when it runs out, and how long it may have to be. Evaluation ids,
counters and buffer numbers are natural numbers. Each scheduler is modelled in the configurations
the source dispatches to it: message passing with a concurrency of at least one, at least two peers
for the peer schedulers, and the peer dynamic scheduler only without static assignment of local jobs
(`src/ApplicationInterface.cpp` lines 741-746 and 851-856).

Four things the source's behaviour does not bear out are stated exactly rather than assumed away:

- A cached response is copied by position, but a match only compares which derivative variables are
  present. Results are those of a plain evaluation exactly when the active sets in use are
  compatible (`Responses.UpdateIsEvaluation`, `EngineSpec.CompatibleIffRefines`;
  `Responses.PermutedDerivatives` is an instance that goes wrong).
- The nonblocking peer static scheduler numbers buffers in two ways that agree only with one place
  per peer, one remote peer or at most one job (`PeerStaticNowait.FirstPassStrata`); otherwise a
  buffer that still awaits a result can be given away (`PeerStaticNowait.BufferCollision`, and
  `PeerStaticNowait.CollisionChoice` for the placement code making that choice).
- The range copy of `synchronize_batches` gives each batch its own responses exactly when no other
  evaluation came back in between (`Batches.PiecesMatchIff`, `Batches.BatchAnalyzer.Synchronize`);
  `Batches.DisturbedRound` logs sample 3 with response 2.
- Pop counts are taken from the responses while the points added may come from cached records, which
  the lookup of the current run finds by id alone. After an append a pop is possible and restores
  the data exactly when the two balance (`PopCounts.AppendPopRestores`); `PopCounts.LeavesAPoint`
  and `PopCounts.LosesAPoint` are the two ways it goes wrong.

## Model

| member | source | states |
|---|---|---|
| `SlotProtocol.LegalRunsAreSafe` | src/ApplicationInterface.hpp:514-550 | in every state of a legal run no job is in two places, no two running jobs share a buffer, server loads and the local limit are respected, and with static assignment no two local jobs have ids that differ by a multiple of the number of local "servers" |
| `SlotProtocol.StartsAreRunningOrDone` | src/ApplicationInterface.hpp:514-550 | no job is handed out twice, and the jobs handed out are exactly those running or done |
| `SlotProtocol.EndMatchesStart` | src/ApplicationInterface.cpp:2909-2940 | every result comes from the slot its job was sent through, or from a local launch of the same job |
| `SlotProtocol.CompletionsAreDone` | src/ApplicationInterface.cpp:2909-2985 | each result is filed exactly once |
| `SlotProtocol.RunsContinue` | src/ApplicationInterface.hpp:514-550 | as the event log grows from call to call, jobs already handed out or filed stay so and in order, what is done stays done, and a job that still runs remotely keeps its slot |
| `SlotProtocol.SlotPasses` | src/ApplicationInterface.cpp:1408-1434 | the slot of a job that came back can be given to any fresh job without breaking the limits |
| `SlotProtocol.MoreLoad` | src/ApplicationInterface.cpp:1061-1089 | a legal run stays legal when servers may hold more jobs, so a static schedule of any length may follow any earlier run |
| `Bookkeeping.SettleOne` | src/ApplicationInterface.cpp:1438-1450 | carrying out one deferred replacement leaves the stale map one step closer to the true map |
| `Bookkeeping.EvalBookkeeping.SendEvaluation` | src/ApplicationInterface.hpp:648-689 | a send is a protocol step: fresh job, free buffer, room on the server |
| `Bookkeeping.EvalBookkeeping.ReceiveEvaluation` | src/ApplicationInterface.cpp:2909-2940 | the result in a buffer is filed under the job that owns the buffer |
| `Bookkeeping.EvalBookkeeping.LaunchAsynchLocal` | src/ApplicationInterface.hpp:692-721 | a launch is a protocol step and enters the job in the active queue |
| `Bookkeeping.EvalBookkeeping.ProcessAsynchLocal` | src/ApplicationInterface.cpp:2943-2971 | files a result once, and frees the one "server" bit of that job, so bits and active residues stay in one-to-one correspondence |
| `Bookkeeping.EvalBookkeeping.LaunchQueued` | src/ApplicationInterface.cpp:1493-1503 | launching stays within the concurrency and claims a free "server" bit: afterwards bit r is set exactly when some active job j has (j - 1) mod (concurrency * N) = r, and no two active jobs share one |
| `Bookkeeping.EvalBookkeeping.TestReceivesBackfill` | src/ApplicationInterface.cpp:1390-1453 | exactly the arrived jobs are filed, in the order of their ids; every freed slot goes at once to the next pending job in queue order and to no other, and jobs from the iterator on are untouched; jobs that stay running keep their slots, no slot is lost while jobs are pending, the event log is extended by just these receipts and sends, and the deferred map update gives the true running map |
| `Bookkeeping.EvalBookkeeping.ScanArrivals` | src/ApplicationInterface.cpp:1403-1436 | during the scan the stale map, the noted replacements and the true map stay related, successors are fresh and pairwise distinct, and each send reuses the slot of the receipt before it |
| `Bookkeeping.EvalBookkeeping.TakeArrival` | src/ApplicationInterface.cpp:1409-1434 | one arrival is filed and its slot passes to exactly one pending job, or to none when the queue is exhausted |
| `Bookkeeping.EvalBookkeeping.ReplaceRunning` | src/ApplicationInterface.cpp:1438-1450 | the loop over the noted replacements turns the stale map into the true one |
| `Bookkeeping.EvalBookkeeping.TestLocalBackfill` | src/ApplicationInterface.cpp:1456-1509 | exactly the reported local jobs are filed; the jobs active afterwards are those that offering the queue first come, first served gives, never two of one "server", up to the limit |
| `Bookkeeping.EvalBookkeeping.FillLocal` | src/ApplicationInterface.cpp:1484-1505 | the launch loop serves the queue first come, first served: it leaves a job behind only when it is placed, an active job has its "server", or the limit is reached |
| `Bookkeeping.ServedConsecutive` | src/ApplicationInterface.cpp:1364-1386 | of consecutive ids, first come, first served launches the first ones up to the limit, with or without static assignment |
| `Bookkeeping.ServedWhy` | src/ApplicationInterface.cpp:1364-1386 | a job is passed over only when the limit is reached, or when an active job, or one before it in the queue, has its "server" |
| `Bookkeeping.EvalBookkeeping.ProcessCompleted` | src/ApplicationInterface.cpp:1284-1289 | files each reported completion once and removes exactly these jobs from the active queue |
| `Bookkeeping.EvalBookkeeping.Enqueue` | src/ApplicationInterface.cpp:493-500 | a new job joins the ordered queue without disturbing what is running |
| `Bookkeeping.EvalBookkeeping.Retire` | src/ApplicationInterface.cpp:940-957 | after hand-back the queue is the old one without the returned jobs, in order |
| `LocalSchedulers.AssignAsynchLocalQueue` | src/ApplicationInterface.cpp:1323-1387 | the first pass serves the queue first come, first served, up to the limit and never two jobs of one "server"; of consecutive ids it launches the first min(concurrency, jobs) |
| `LocalSchedulers.SomethingActive` | src/ApplicationInterface.cpp:1266-1289 | the wait for local evaluations is never entered with nothing active while a result is missing |
| `LocalSchedulers.AsynchronousLocalEvaluations` | src/ApplicationInterface.cpp:1239-1320 | for every completion pattern, with or without static assignment and for any increasing ids, the event log is extended by launches and completions only, to a legal run in which each job ran once; nothing stays active and nothing else is touched |
| `LocalSchedulers.SynchronousLocalEvaluations` | src/ApplicationInterface.cpp:2101-2123 | evaluates exactly the jobs of the local queue, one after the other in queue order |
| `LocalSchedulers.AssignAsynchLocalQueueNowait` | src/ApplicationInterface.cpp:2047-2093 | adds to the active jobs first come, first served, up to the limit and never two jobs of one "server" |
| `LocalSchedulers.AsynchronousLocalEvaluationsNowait` | src/ApplicationInterface.cpp:2016-2045 | over any sequence of calls limit and bits are kept, exactly the ready jobs are returned, and a call ends with the limit reached or every job placed or waiting for its "server" |
| `SlotAllocator.FreeBufferMeansRoom` | src/ApplicationInterface.cpp:1593-1611 | a free buffer in a server's stratum means the server has room |
| `SlotAllocator.LeastLoadedHasRoom` | src/ApplicationInterface.cpp:1583-1592 | with fewer jobs than places the least loaded server has room (pigeonhole) |
| `SlotAllocator.CapacityBound` | src/ApplicationInterface.cpp:1529-1532 | no safe state has more running jobs than servers times load |
| `SlotAllocator.LeastLoaded` | src/ApplicationInterface.cpp:1584-1591 | the search returns the first server of minimal load, also when it stops early |
| `SlotAllocator.FirstFree` | src/ApplicationInterface.cpp:1595-1600 | finds the first free buffer of a range, or the range is used up |
| `NowaitPlacement.RoundRobinInjective` | src/ApplicationInterface.cpp:1549-1560 | first-pass slots lie in their strata and no two jobs share one |
| `NowaitPlacement.RoundRobin` | src/ApplicationInterface.cpp:1544-1561 | the first pass sends exactly the given stretch of the queue, the i-th job to server i mod k + 1 through its buffer i / k, within strata and limits; each job goes to the first server with the least to do, and no server ends up with two more than another |
| `NowaitPlacement.CollectServerJobs` | src/ApplicationInterface.cpp:1565-1570 | rebuilds, for each server, exactly the buffers its running jobs hold |
| `NowaitPlacement.PlaceOnServer` | src/ApplicationInterface.cpp:1592-1611 | a server with room always has a free buffer in its stratum, so the abort is not reached; the job is sent through the first one, and the placement keeps strata and limits |
| `MasterNowait.FillGaps` | src/ApplicationInterface.cpp:1562-1614 | every job the iterator passes is running, each new one was sent to the first server with the least to do at that moment, and it stops early only when all places are taken |
| `MasterNowait.MasterDynamicNowait` | src/ApplicationInterface.cpp:1524-1631 | injectivity, strata and load limits are kept and the event log is extended to a legal run over every sequence of calls; every new job goes to the first server with the least to do, in a first pass with loads differing by at most one, and later sends only reuse freed slots; every running job whose result is ready is returned and nothing else, and a job waits only when every place is taken |
| `HomeSlots.HomeLoad` | src/ApplicationInterface.cpp:1011-1020 | with a fixed server per buffer no server holds more than its share of the buffers |
| `MasterDynamic.Round` | src/ApplicationInterface.cpp:1008-1021 | for any set of completed requests in any order, each result is received once, its buffer reused for the next job in queue order, and the send counter is min(jobs, first sends + receipts) |
| `MasterDynamic.SomeRequestActive` | src/ApplicationInterface.cpp:1005-1009 | while a result is missing some request is active, so the wait has something to wait for |
| `MasterDynamic.WaitSome` | src/ApplicationInterface.cpp:1008-1010 | waitsome returns a nonempty choice of distinct active requests |
| `MasterDynamic.ReceiveAll` | src/ApplicationInterface.cpp:1026-1036 | when all jobs fit the first pass, receiving in queue order pairs each buffer with its job |
| `MasterDynamic.MasterDynamicSchedule` | src/ApplicationInterface.cpp:974-1041 | the event log is extended to a legal run, so every job is sent once and received once also over several calls; the first jobs go out through the buffers of their positions to the servers in turn, later ones in queue order through the buffer just freed; exactly the queued jobs become done, and no server holds more than its concurrency |
| `PeerDeal.SendNumbering` | src/ApplicationInterface.cpp:1080-1089 | consecutive send numbers wrap around the remote peers as i % N does |
| `PeerDeal.SharesBalanced` | src/ApplicationInterface.cpp:1063-1089 | peer loads differ by at most one and the local share is the smallest |
| `PeerDeal.Deal` | src/ApplicationInterface.cpp:1080-1089 | after dealing i jobs, floor(i/N) are local, the rest were sent through consecutive buffers, each peer holds its exact share, and each position's server and buffer are known |
| `PeerDeal.ClippedCounts` | src/ApplicationInterface.cpp:1686-1712 | the counts clipped to the capacities are those the i % N loop deals out, for all jobs, peers and concurrency |
| `PeerStatic.Collect` | src/ApplicationInterface.cpp:1125-1138 | the retrieval loop pairs every buffer with the job and server of the send loop |
| `PeerStatic.PeerStaticSchedule` | src/ApplicationInterface.cpp:1061-1145 | floor(J/N) jobs are evaluated locally, those at every N-th position, the others go to the remote peers in turn through consecutive buffers and are collected; buffers stay in bounds and exactly the queued jobs become done, for any number of jobs per server |
| `PeerDynamic.SomethingRuns` | src/ApplicationInterface.cpp:1215-1221 | something is running at every loop head with fewer receipts than jobs |
| `PeerDynamic.FirstPass` | src/ApplicationInterface.cpp:1167-1209 | the first pass deals the first N*c jobs out to the peers in turn, launches those of the scheduling processor, and establishes the loop invariant: all places taken or all jobs placed |
| `PeerDynamic.Round` | src/ApplicationInterface.cpp:1216-1221 | keeps the loop invariant (jobs before the shared iterator are running or done, and all N*c places are taken while a job is pending); for every poll, exactly the running jobs it finds complete come in, the receive count grows by their number, and every job sent gets the slot of the job received just before it |
| `PeerDynamic.HitsCount` | src/ApplicationInterface.cpp:1215-1221 | in a run of the loop with k polls that each find something running complete, at least k results came in |
| `PeerDynamic.AllIn` | src/ApplicationInterface.cpp:1215-1221 | the loop exits with exactly as many receipts as jobs and nothing running |
| `PeerDynamic.PeerDynamicSchedule` | src/ApplicationInterface.cpp:1165-1227 | the first N*c jobs are dealt out to the peers in turn; for every sequence of polls the finished loop has run each job exactly once and received as many results as jobs; the event log at each loop head extends the one before it by what the poll found, each send reusing the slot just freed, and has every place on every peer taken while a job is pending; if the polls run out the invariant holds and something is still running; it finishes within as many polls as jobs whenever each poll finds at least one running job complete |
| `PeerNowait.ChoiceFits` | src/ApplicationInterface.cpp:1920-1938 | the choice between the local queue and the least loaded peer always picks one with room |
| `PeerNowait.PlaceOne` | src/ApplicationInterface.cpp:1908-1966 | every job visited while there is room is running, active or planned; a new one stays local only if fewer jobs are active or planned than every peer has, and otherwise is sent to the first peer with the least to do, which has no more than that |
| `PeerNowait.FillGaps` | src/ApplicationInterface.cpp:1908-1966 | at every moment of the walk over the queue the choice between the local queue and the peers follows the loads at that moment, and the walk stops early only when every place is taken |
| `PeerNowait.FirstPassCounts` | src/ApplicationInterface.cpp:1863-1866 | either all jobs or all places are assigned in the first pass |
| `PeerNowait.PlanLaunched` | src/ApplicationInterface.cpp:1968-1969 | every job planned locally is launched |
| `PeerNowait.PeerDynamicNowait` | src/ApplicationInterface.cpp:1834-1992 | over every sequence of calls no job is both local and remote, local and remote capacities and strata are kept, the event log is extended to a legal run and the abort is not reached; in a first pass the head of the queue stays local and the rest is dealt out evenly, later every new job goes where the loads at that moment say, and what the poll sends only reuses freed slots; every waiting job that is ready is returned and nothing else, and a job waits only when every place on every peer is taken |
| `PeerStaticNowait.FirstPassStrata` | src/ApplicationInterface.cpp:1700-1712 | first-pass buffers lie in the strata of the backfill if and only if there is one place per peer, one remote peer, or at most one job |
| `PeerStaticNowait.BufferCollision` | src/ApplicationInterface.cpp:1754-1785 | in every other configuration a legal run leads to a state where server 1 has room, the first buffer of its stratum that it does not use belongs to a running job of server 2, and sending through it breaks the protocol |
| `PeerStaticNowait.CollisionChoice` | src/ApplicationInterface.cpp:1735-1785 | the placement code, run on that state, picks the buffer of the running job |
| `PeerStaticNowait.AgreesWithDeal` | src/ApplicationInterface.cpp:1751-1753 | for consecutive ids the peer a job's id selects is the one the first pass deals it to: the job at position p belongs to peer (p+1) mod N |
| `PeerStaticNowait.SpreadOverPeers` | src/ApplicationInterface.cpp:1751-1753 | N consecutive ids belong to N different peers |
| `PeerStaticNowait.FirstPass` | src/ApplicationInterface.cpp:1684-1723 | deals min(N*c, jobs) jobs, the job at position p to peer (p+1) mod N and to no other, within the strata, and evaluates or launches the local share; jobs beyond the capacity are left alone |
| `PeerStaticNowait.PlaceAll` | src/ApplicationInterface.cpp:1724-1789 | every new job j of the whole queue goes to peer (j - ref + 1) mod N, 0 being the scheduling processor, and to no other, or that peer is full; no job takes a place that an earlier job of the queue waits for, and nothing that ran is disturbed |
| `PeerStaticNowait.NothingToPlace` | src/ApplicationInterface.cpp:1725 | when the placement is skipped, because every job runs or every place is taken, every job is placed or its peer is full already |
| `PeerStaticNowait.PlaceAndLaunch` | src/ApplicationInterface.cpp:1684-1797 | the reference id is the first of the queue when nothing runs and is kept otherwise; whichever branch is taken, every job goes to its own peer or finds it full, and those of the scheduling processor are evaluated, or launched unless the limit is reached or a job before it has its "server" |
| `PeerStaticNowait.PollJobs` | src/ApplicationInterface.cpp:1799-1809 | exactly the polled jobs that are ready come in, each send reuses the slot just freed; the results of the call are these and, with blocking evaluations, the local share |
| `PeerStaticNowait.PlaceNew` | src/ApplicationInterface.cpp:1748-1786 | a job goes to its own peer when that has room, within strata and limits |
| `PeerStaticNowait.PeerStaticNowaitSchedule` | src/ApplicationInterface.cpp:1651-1817 | where the numberings agree, over every sequence of calls: strata, capacities and the protocol are kept; in the state the event log reached after placement every new job j was sent to peer (j - ref + 1) mod N and to no other, or finds that peer full, and no job has overtaken one that waits for the same peer; from the poll on a job is sent only through the slot just freed; every waiting job that is ready is returned, and beyond ready jobs only, with blocking local evaluations, exactly the local share evaluated in the call |
| `Servers.RunsKeepOrder` | src/ApplicationInterface.cpp:2307-2400 | in every state of every run each server's counter equals its queue and is within the concurrency, and jobs are conserved |
| `Servers.WhereAJobIs` | src/ApplicationInterface.cpp:2307-2400 | a job sent is in exactly one of on its way, active, on its way back and received, was answered at most once, and no other server gets it |
| `Servers.StoppedAnsweredAll` | src/ApplicationInterface.cpp:2324-2397 | a server that stopped took every message and answered every job exactly once |
| `Servers.StoppedForGood` | src/ApplicationInterface.cpp:2397-2400 | a stopped server stays stopped, gets nothing more and answers nothing more |
| `Servers.RunsEnd` | src/ApplicationInterface.cpp:2324-2397 | with nothing new sent only boundedly many useful steps remain |
| `Servers.NothingLeftMeansFinished` | src/ApplicationInterface.cpp:2480-2529 | once the stop message is out and no useful step is left, the server has stopped and all its results were received: no deadlock |
| `Servers.ServeEvaluationsSynch` | src/ApplicationInterface.cpp:2182-2249 | answers exactly the jobs before the stop message, in order |
| `Servers.ServeEvaluationsAsynch` | src/ApplicationInterface.cpp:2307-2400 | for every pattern of arrivals and completions a server that stops answered each job before the stop message exactly once; at any time the jobs taken are those active or answered, within the concurrency; with prompt arrivals and completions it stops after at most one round per message |
| `Network.SidesAgree` | src/ApplicationInterface.hpp:648-689 | for every run of a scheduler and of the servers with the same messages, the jobs the scheduler holds for a server are exactly those on their way to it, at work there or on their way back |
| `Network.NoJobWaits` | src/ApplicationInterface.cpp:2338-2344 | under a scheduler that keeps to the concurrency the server never has to make a job wait: it can always take the one next in line |
| `Network.NoDeadlock` | src/ApplicationInterface.cpp:2307-2400 | while a scheduler has a job at a server, the server or the line back can take a useful step |
| `Responses.MatchUpdates` | src/PRPMultiIndex.hpp:38-75 | a match never makes the update abort for want of data |
| `Responses.UpdateIsEvaluation` | src/DakotaResponse.cpp:1311-1392 | copying by position from a right response to a matching active set gives, for every simulation, a right response if and only if the shared derivative variables are listed in the same places |
| `Responses.OnlyRightData` | src/DakotaResponse.cpp:1311-1392 | the right response holds a value for every value bit, a gradient entry for every gradient bit and derivative variable and a Hessian entry for every Hessian bit and pair of them, each as the simulation computes it for these variables, and nothing else; an evaluation is this response and the only one |
| `Responses.UpdateCopies` | src/DakotaResponse.cpp:1311-1392 | an update yields exactly the items whose bits are set, each as it is at the same position of the source |
| `Responses.PermutedDerivatives` | src/DakotaResponse.cpp:1361-1386 | a record with derivatives for variables 1 and 2 gives the derivative for variable 1 to a request for variable 2 alone |
| `EngineSpec.RunsAreOrdered` | src/ApplicationInterface.cpp:397-574 | over every sequence of calls each issued id is in exactly one of history duplicates, queue duplicates, queue and returned, every queue duplicate has a live original that covers it, and positive cache ids are distinct |
| `EngineSpec.AnchoredStep` | src/ApplicationInterface.cpp:871-957 | an original and its duplicates leave in the same call |
| `EngineSpec.ReturnedOnce` | src/ApplicationInterface.cpp:940-957 | a returned id stays returned with the same response and is never returned again |
| `EngineSpec.BlockingReturnsAll` | src/ApplicationInterface.cpp:698-773 | a blocking synchronization returns every issued id and leaves the queue and both duplicate maps empty |
| `EngineSpec.PromoteKeepsContents` | src/ApplicationInterface.cpp:628-638 | promoting a restart record keeps the cache contents |
| `EngineSpec.CacheOnlyGrows` | src/ApplicationInterface.cpp:589-660 | no call removes anything from the cache |
| `EngineSpec.CacheIdsStep` | src/ApplicationInterface.cpp:628-638 | promotion and filing keep positive ids distinct and out of the queue |
| `EngineSpec.RunsRefine` | src/ApplicationInterface.cpp:397-957 | from any sound restart cache and with compatible active sets, every id gets back the plain evaluation of its own variables and active set |
| `EngineSpec.CompatibleIffRefines` | src/ApplicationInterface.cpp:622-657 | all runs are faithful if and only if the active sets in use are compatible |
| `EngineSpec.NewIffUncovered` | src/ApplicationInterface.cpp:622-657 | over every run with the cache on, an asynchronous request becomes a new job if and only if no earlier request and no restart record has the same variables and a covering active set |
| `EngineSpec.NothingRunsTwice` | src/ApplicationInterface.cpp:622-657 | over every run with the cache on, a request covered by a finished evaluation or a restart record is never queued or run again, nor is one covered by a request still under way queued |
| `EngineSpec.HitReissues` | src/ApplicationInterface.cpp:626-638 | a hit on a restart record gives that one record the id of the evaluation, with the same contents, and no other record has that id; the others are as they were, and a hit on any other record changes nothing |
| `Engine.Rep.UpdateFrom` | src/DakotaResponse.cpp:1311-1392 | fills a response object with exactly the items whose bits are set, each as it is at the same position of the other object |
| `Engine.EvalEngine.FindInCache` | src/PRPMultiIndex.hpp:240-257 | finds a record with the same variables and a covering active set, exactly when there is one |
| `Engine.EvalEngine.FindInQueue` | src/PRPMultiIndex.hpp:452-468 | finds a queued job with the same variables and a covering active set, exactly when there is one |
| `Engine.EvalEngine.AddHistory` | src/ApplicationInterface.cpp:622-644 | keeps a copy for the new id; a restart record that is hit, and no other record, gets the new id, which no other record has |
| `Engine.EvalEngine.MapAsynch` | src/ApplicationInterface.cpp:397-660 | an asynchronous request is a history duplicate exactly when a cache record covers it, a queue duplicate exactly when only a queued job does, and a new job otherwise; it is filed in that one place, and no other response object is disturbed |
| `Engine.EvalEngine.MapSynch` | src/ApplicationInterface.cpp:397-574 | a synchronous request is answered from the cache exactly when a record covers it, and by evaluation otherwise |
| `Engine.EvalEngine.FileResults` | src/ApplicationInterface.cpp:2909-2971 | queue entry, result and cache record of a finished job are one object that holds the right response to its request |
| `Engine.EvalEngine.FillDuplicates` | src/ApplicationInterface.cpp:871-886 | exactly the duplicates of finished originals are filled, each from its own original |
| `Engine.EvalEngine.SynchronizeNowait` | src/ApplicationInterface.cpp:819-957 | hands out one object per finished job, filled duplicate and history duplicate, each holding the result for its id, and leaves the rest in place |
| `Engine.EvalEngine.Synchronize` | src/ApplicationInterface.cpp:698-815 | the same for the whole queue, after which queue and duplicate maps are empty |
| `Session.ScheduleNowait` | src/ApplicationInterface.cpp:842-861 | each of the four nonblocking schedulers returns every job that was waiting and is ready, returns only ready ones unless it evaluates its local share blocking, keeps or renews the reference id, and is ready for the next call |
| `Session.ScheduleAll` | src/ApplicationInterface.cpp:731-751 | each of the four blocking schedules, when it finishes, has filed exactly the queued jobs; only the polling one can be left unfinished, and not when each of as many polls as jobs finds something running complete |
| `Session.Interface.Map` | src/ApplicationInterface.cpp:397-574 | a request gets the next id and, with the cache on, enters the scheduler's queue if and only if no earlier request and no restart record covers it |
| `Session.Interface.MapNow` | src/ApplicationInterface.cpp:501-527 | a synchronous request returns the right response to it: every item asked for, as the simulation computes it at its point, and nothing else |
| `Session.Interface.SynchronizeNowait` | src/ApplicationInterface.cpp:819-957 | through schedulers, cache and duplicates: the map handed out holds exactly the ids returned by this call, among them every job that was running and is ready, every history duplicate, and a queue duplicate exactly when its original is in it; every response in it is the right one for its own request |
| `Session.Interface.Synchronize` | src/ApplicationInterface.cpp:698-815 | with every scheduler, the map handed out holds exactly the ids issued and not returned before, each with the right response to its request, and nothing is outstanding |
| `Continuation.Continue` | src/ApplicationInterface.cpp:2822-2902 | for every pattern of failures, in exact arithmetic, the walk ends; each trial is the point 1/2^(failures+1) of the way beyond the last success and never beyond the target, success means the first successful evaluation at exactly the target, and giving up means exactly ten failures |
| `Continuation.HalvingDoubles` | src/ApplicationInterface.cpp:2875-2880 | after halving, 2m+1 steps remain where m remained |
| `AppsEvalMgr.EvalManager.IsReadyForWork` | src/APPSEvalMgr.cpp:35-40 | ready exactly when fewer tags are outstanding than there are workers |
| `AppsEvalMgr.EvalManager.Submit` | src/APPSEvalMgr.cpp:47-83 | accepted exactly when a worker is free; workers in use equal outstanding tags and never exceed the total |
| `AppsEvalMgr.EvalManager.Recv` | src/APPSEvalMgr.cpp:89-167 | returns an outstanding tag with the values of its own point, once; a buffered response, the one with the least id, is handed out before anything is asked for; buffered responses always have a tag; with blocking synchronization 0 means nothing is outstanding, and with nonblocking synchronization that nothing was buffered and nothing in progress is ready |
| `DesignSizing.PrimeAbove` | src/DDACEDesignCompExp.cpp:397-410 | above every bound there is a number without proper divisors, so the search ends |
| `DesignSizing.IsUsable` | src/DDACEDesignCompExp.cpp:382-388 | the divisor loop accepts 4 and the numbers without a proper divisor of at least 2 |
| `DesignSizing.ResolveOrthogonalArray` | src/DDACEDesignCompExp.cpp:366-414 | a request that fits is kept, otherwise the least usable symbol count whose square covers the samples is taken; a request without samples is an error |
| `DesignSizing.ResolvedFits` | src/DDACEDesignCompExp.cpp:378-414 | the result is usable, a multiple of the squared symbols and never fewer samples than requested |
| `DesignSizing.ResolvedMeans` | src/DDACEDesignCompExp.cpp:378-414 | in terms of divisors: a request whose symbols are 4 or have no proper divisor and whose samples are a multiple of their square is kept; any other gets the square of a symbol count below which every count whose square suffices has a proper divisor and is not 4 |
| `DesignSizing.ResolvedOnce` | src/DDACEDesignCompExp.cpp:378-414 | the resolution is unique, and applying it twice equals applying it once |
| `DesignSizing.ResolveLatinHypercube` | src/DDACEDesignCompExp.cpp:415-427 | samples are rounded up to a multiple of the symbols, by less than one symbol count |
| `DesignSizing.LatinHypercubeOnce` | src/DDACEDesignCompExp.cpp:415-427 | that multiple is unique, so resolving again changes nothing |
| `BestSolutions.TopIsUnique` | src/DakotaAnalyzer.cpp:773-842 | the first entries of the stable sort by violation, objective and arrival are uniquely determined |
| `BestSolutions.BestFirst` | src/DakotaAnalyzer.cpp:773-842 | the first entry is the best point: no point violates the constraints less, none that violates them as much has a smaller objective, and of equals it came first |
| `BestSolutions.OfferKeepsTop` | src/DakotaAnalyzer.cpp:822-841 | one update keeps the map equal to the first entries of the stable sort |
| `BestSolutions.OfferFollowsKeys` | src/COLINOptimizer.cpp:1088-1111 | which points a map keeps, and in which order, depends on the keys only |
| `BestSolutions.BestTracker.UpdateBest` | src/DakotaAnalyzer.cpp:811-842 | after any sequence of evaluations the map is exactly the first numFinalSolutions entries of the stable sort, and its first entry has the least violation and, for that violation, the least objective |
| `BestSolutions.CollectFinal` | src/COLINOptimizer.cpp:1088-1111 | the two maps stay in lockstep: the i-th variables and response come from the same point, and the points are the best ones |
| `BestSolutions.PostRun` | src/COLINOptimizer.cpp:1088-1140 | the i-th entries delivered are the variables of the i-th best point and its response, or, with a recast objective, only its constraint values written over what the array held; entries beyond the points found are unchanged |
| `BestSolutions.ConstraintViolation` | src/DakotaAnalyzer.cpp:747-769 | for any bounds the violation is the sum of the squared distances to the bounds and targets, so it is zero exactly when every constraint is met |
| `BestSolutions.OneConstraint` | src/DakotaAnalyzer.cpp:755-769 | a missed target or bound contributes the square of the distance to it |
| `Batches.PiecesMatchIff` | src/DakotaAnalyzer.cpp:341-397 | each piece has exactly its batch's ids if and only if nothing foreign came back in between |
| `Batches.NextBatchForeign` | src/DakotaAnalyzer.cpp:276-338 | a new batch keeps the batches free of foreign evaluations if and only if they were and nobody else issued one since the last batch |
| `Batches.ForeignBetween` | src/DakotaAnalyzer.cpp:341-397 | batches [1] and [3] of the evaluations 1, 2, 3 meet every condition but that one |
| `Batches.SynchronizeBatches` | src/DakotaAnalyzer.cpp:341-397 | the pieces are the ranges of the full map from the first to the last id of each batch |
| `Batches.BatchAnalyzer.EvaluateBatch` | src/DakotaAnalyzer.cpp:276-338 | each sample is filed under the id of its own evaluation, batches stay in order, and they stay clean if and only if they were and nothing else was issued since the last one |
| `Batches.BatchAnalyzer.Synchronize` | src/DakotaAnalyzer.cpp:341-397 | over every sequence of submissions, evaluations by others, synchronizations and clearings: every sample is logged with the response of its own evaluation if and only if no evaluation by someone else lies between the batches of the round |
| `Batches.BatchAnalyzer.Clear` | src/DakotaAnalyzer.hpp:300-304 | after clearing the next round starts without batches and clean, whatever is still in progress |
| `Batches.DisturbedRound` | src/DakotaAnalyzer.cpp:276-397 | submit, an evaluation by someone else, submit, synchronize: the sample of evaluation 3 is logged with the response of evaluation 2 |
| `Batches.LogResponseMap` | src/DakotaAnalyzer.hpp:395-426 | with equal keys every sample is paired with its own response |
| `PopCounts.KeyInverse` | src/ApproximationInterface.hpp:352-418 | the map from response sets to keys is one-to-one where it does not abort |
| `PopCounts.WhichEntry` | src/ApproximationInterface.hpp:352-418 | which entry of a request vector feeds a function's data under a key: response set q under key q, under the last key only the first set in a recursive emulation, and with one key the first set |
| `PopCounts.WhichKey` | src/ApproximationInterface.hpp:352-418 | which key a response set is stored under, and for which sets the source aborts |
| `PopCounts.AddPoint` | src/ApproximationInterface.cpp:737-838 | the strided loops append the point to exactly the cells its record has data for; only nonzero entries need a key |
| `PopCounts.ReachingInOrder` | src/ApproximationInterface.cpp:439-566 | the points reach a cell in the order they are appended |
| `PopCounts.UpdatePopCounts` | src/ApproximationInterface.cpp:841-875 | pushes, for every cell the request vectors cover, the number of responses that ask for it |
| `PopCounts.Surfaces.Append` | src/ApproximationInterface.cpp:439-566 | appends points in order and pushes one count per covered cell |
| `PopCounts.Surfaces.Pop` | src/ApproximationInterface.hpp:447-461 | removes the counted points, as far as there are any, and the count from every covered cell |
| `PopCounts.AppendPopRestores` | src/ApproximationInterface.cpp:439-566 | after an append, every count can be popped and popping restores the data, if and only if records and requests balance; the counts are restored always |
| `PopCounts.BalancedPoppable` | src/ApproximationInterface.cpp:439-566 | after a balanced append every cell holds at least the points its count says |
| `PopCounts.Unbalanced` | src/ApproximationInterface.cpp:679-702 | a record with data its response did not ask for, or without data it asked for, does not balance |
| `PopCounts.LeavesAPoint` | src/ApproximationInterface.cpp:439-566 | a record with more data than the response asked for: append and pop leave a point behind |
| `PopCounts.LosesAPoint` | src/ApproximationInterface.cpp:439-566 | a record with less data than the response asked for: append and pop remove a point that was there before |
| `PopCounts.SamePatternBalanced` | src/ApproximationInterface.cpp:737-875 | records with the same nonzero pattern as their requests balance |
| `CrossValidation.FoldsCover` | src/ActiveSubspaceModel.cpp:963-966 | the fold sizes add up to the number of samples |
| `CrossValidation.ExactlyOneFold` | src/ActiveSubspaceModel.cpp:967-1002 | every sample is in exactly one test fold |
| `CrossValidation.FoldSizes` | src/ActiveSubspaceModel.cpp:963-966 | computes n/k for each fold and one more for the first n%k |
| `CrossValidation.BuildFold` | src/ActiveSubspaceModel.cpp:969-1002 | for every permutation all writes are in bounds, both sets end up full, and they hold, in increasing order, exactly the samples whose value in the permutation is inside and outside the range from j*(n/k) + min(j, n mod k) of the fold's size |

## Left out

- Packing, broadcasts and multiprocessor evaluation partitions: sends and receipts are abstract messages, and the peer server loops driven by broadcasts are not modelled.
- Algebraic mappings and the cached-response hand-back: modelled with no algebraic mappings and no cached responses.
- Tolerance-based cache lookup and a fixed active set vector: they deliberately give something other than a plain evaluation.
- Failure modes other than continuation: abort ends the program, recover substitutes configured values and retry repeats the same request, so none of them relates a result to its request.
- Records of other interfaces in the cache: only the records of the modelled interface appear, since a lookup never crosses interface ids.
- Ids of duplicates in the raw response map while schedulers run: a scheduler only looks up ids of queued jobs, so its model of the map holds those alone.
- A simulation that is not a function of the point and the requested quantities: results of repeated evaluations are taken to agree.
- Fixed integer widths: ids, counters and buffer indices do not wrap.
- Floating-point rounding and the snap to the target in `continuation`: arithmetic is over the reals.
- Bookkeeping.EvalBookkeeping.SendEvaluation: the packed variables and active set are not part of the message, since a scheduler never looks at them; in the blocking schedulers that keep only message requests, the model also enters the job in the running map, which holds the same information.
- Bookkeeping.EvalBookkeeping.ReceiveEvaluation: files the id; the response data that comes with it is filed by Engine.EvalEngine.FileResults, and Session.Interface puts the two together.
- Servers.ServeEvaluationsAsynch: follows a given finite sequence of polls, because the source's loop need not end when nothing arrives; progress over unbounded runs is stated by Servers.RunsEnd and Servers.NothingLeftMeansFinished. Messages carry ids and no response data.
- PeerDynamic.PeerDynamicSchedule: follows a given finite sequence of polls, because the source's loop has no bound and need not end when results stop coming.
- Session.Interface.SynchronizeNowait: with the peer static scheduler only where its two buffer numberings agree, because elsewhere a result can be lost (PeerStaticNowait.BufferCollision).
- Session.Interface.Synchronize: starts with nothing left running from a nonblocking call; the blocking schedulers dispatch the whole queue and know nothing of running jobs.
- PeerStaticNowait.PeerStaticNowaitSchedule: restricted to the configurations in which the two buffer numberings agree, for the same reason; which jobs wait is stated for the state before the poll, because the poll gives freed slots to any pending job.
- Resubmission of a batch under an id still in use: it replaces the samples filed under that id while their evaluations are still in progress, so these become evaluations by someone else.
- The array forms of the sample results in `log_response_map`: they file the same pairs by position instead of by id.
- BestSolutions.ConstraintViolation: the objective sums of compute_best_metrics are left out; the ordering takes any objective value, so how it is summed does not enter.
- PopCounts.Surfaces.Pop: the surrogate data library behind the pop is not part of this model; popping is modelled by its contract, one count per covered key, with the saved copies for a later push left out.
- Orthogonal-array sizing uses the exact ceiling of the square root, where the source rounds a floating-point root.
- The grid branch of the sample sizing rests on a floating-point power; the central composite and Box-Behnken branches set a fixed count from a formula, with nothing to resolve.
- Results databases, graphics, tabular and console output: they record what was computed and feed nothing back into scheduling or results.
