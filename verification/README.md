# Aegis-DPI: a verified model

Aegis-DPI reads a capture, decides packet by packet what may pass, and writes what
passes to another capture. One reader thread parses frames into jobs, load balancers
and fast-path workers spread them by a hash of the five-tuple, each worker keeps a
table of flows and reaches a verdict, and one writer thread writes the output. The
stages are joined by bounded blocking queues.

This project models that engine in Dafny and proves what its design promises, or
exactly when it keeps the promise.

- `Pipeline`, `PipelineOrder`, `PipelineRestarts`, `PipelineAccounts`: the threads as a
  system of steps, for any number of balancers and workers and any positive capacities.
  Every interleaving refines a sequential filter flow by flow, one that starts afresh
  where a table has forgotten the flow; every job is in exactly one place.
- `PipelineProgress`, `PipelineRuns`, `PipelineMemory`, `PipelineStop`, `PipelineHang`,
  `PipelineLoss`, `PipelineOneSlot`: every run that gives its threads their turns drains
  the engine before `stop`, and `stop` then ends unless it hangs; what a hang takes, what
  a `stop` that completes can lose, and runs on which it comes to that.
- `PipelineAlike`, `EngineLift`, `RealShutdown`: the same with the real tables, which evict
  and clean up as their size makes them: exactly when `stop` can hang, and exactly what it
  can lose.
- `QueueMonitor`: one queue down to its two condition variables, with barging threads,
  timeouts and spurious wakeups. No wakeup is lost, and it is said exactly when a thread
  leaves.
- `FlowVerdict`, `FastPath`, `ConnectionTable`, `Blocking`: the per-flow state machine,
  the fast path and the bounded table with eviction and cleanup, as classes proved
  against specifications on values, what holds of every run of those, and how long
  blocking lasts.
- `FlowHash`, `Dispatch`: 64-bit hash arithmetic and the two tiers of dispatch.
- `TlsClientHello`, `HttpHost`, `DnsQuery`, `PacketParser`, `Pcap`: decoders against
  grammars and against the encoders of `generate_test_pcap.py`.
- `Findings`: what the fast path finds in a payload, by those grammars.
- `Rules`, `RuleFile`, `IpText`, `AppSignatures`, `GeneratorHosts`: rules, their file format,
  the application signatures and the hosts of the generator.
- `Engine`, `EngineTables`, `EngineBlocking`, `EngineVerdicts`, `EngineShutdown`, `Stages`:
  the pipeline put together with the engine's dispatch, verdicts, tables, input and output
  file, and the bodies of its threads; which packets it drops, from the bytes of a frame and
  the rules as they were given to the verdict.
- `Types`, `Bits`, `Bytes`: shared values, bitwise operators and byte layouts.

Machine integers are bounded ranges of `int`, with wrap-around written out. A thread
step of the pipeline is one stretch of code between two points where the thread can be
held up or can look at a flag. The clock readings, the order in which hash maps are
walked, the entry that an eviction picks among equally old ones, and the random fields
of the generator are parameters.

A tuple counts as lost once some table has evicted its entry or cleaned it up. In the
pipeline a table may lose any entries at such moments; `EngineTables.RealRunIsRun` says
that a run with the real tables is a case of this, and `EngineTables.NothingLost` gives
a condition on the capture and the clock under which nothing is lost. The clock is steady:
no reading of a worker is before its last.

What a flow is let through depends on whether its entry lasts. A flow is remembered on a
run if its entry was created for its first packet and never again, and kept in a state if
it is remembered so far and its entry is in the table while packets of it are still to be
judged. A table has room if it can hold all tuples of the capture that its worker gets, as
for every capture with no more jobs than a table has entries. A capture of which nothing
is dropped needs none of this: what is lost of it, and when it hangs the engine, is the
same for tables of any size.

Waits end after 100 ms, so every run has turns that bring nothing. Progress is stated in
rounds: stretches of a run in which every thread gets a turn or is at some moment unable
to take one. Before `stop` begins the stopper need not get its turn.

## Where the code and its documentation disagree

- README.md:68 promises one worker for both directions of a connection. Hash and table
  are directional; the promise holds exactly when there are at most two workers
  (`Dispatch.DirectionsMeetIffTwoWorkers`).
- README.md:143 promises that blocking ends the whole connection. It ends one direction
  for as long as the flow's entry lives and no packet closes the connection with a
  payload of another kind. An eviction, or a cleanup after a pause of 301 seconds, makes
  the worker forget the flow, and the opposite direction is a flow of its own, in which
  a server's packets are not found out. `EngineBlocking.EngineBlockingIff` gives the
  exact condition, `EngineBlocking.BlockedFramesReopen`, `Blocking.ForgottenFlowGetsIn`
  and `Blocking.UnfoundDirectionPasses` the three ways through.
- README.md:143 also takes `.netflix` names for Netflix and `.googlevideo.` names for
  YouTube. "x.com" stands before "netflix" in the table, so no name with netflix.com is
  Netflix, and "google" stands before all YouTube signatures
  (`AppSignatures.NetflixDotComIsNotNetflix`, `AppSignatures.GoogleVideoIsGoogle`).
- src/main.cpp:14 calls domain rules a substring match. They match the whole name, or a
  suffix after a leading star (`Rules.SubstringRuleIff`).
- A capture in swapped byte order is written back under its swapped magic number with
  records in native order, and cannot be read again unless it is empty
  (`Pcap.OutputReadableIff`).
- `stop` clears the engine's flag before it joins the workers, so the writer can leave
  while workers still push, and balancers and workers leave with jobs in their own
  queues. So `stop` can hang for ever. If each packet of the capture is harmless by itself
  under the rules, it can do so exactly when more jobs are upstream of the output queue
  than that holds (`RealShutdown.AdmittedHangIff`), and from the start exactly when the
  capture has more than 10000 jobs (`EngineShutdown.EngineHangIff`), whatever size the
  tables are. With packets dropped, if the tables have room and all flows are kept, it can
  on a run that remembers all flows exactly when more jobs that are let through are still
  to come than the output queue holds (`RealShutdown.HangIff`). What is not written, in the
  writer's hand or in the output queue when `stop` begins can be lost by a `stop` that
  completes, and nothing else, under the same conditions
  (`EngineShutdown.EngineLosesHarmlessIff`, `EngineShutdown.EngineLosesIff`). The sleeps in
  `processFile` before it calls `stop` are no bound on the work left.

## Model

| member | source | states |
|---|---|---|
| FlowHash.CombineInjective | include/types.h:49-52 | a mixing step is injective in the state and in the value, modulo 2^64: equal results force the other argument to be equal |
| FlowHash.MulCancel | include/types.h:51 | multiplying by the odd constant can be undone modulo 2^64 |
| FlowHash.OneFieldApartNeverCollides | include/types.h:46-60 | two tuples that differ in exactly one field never have the same hash |
| FlowHash.HashLow | include/types.h:46-60 | for every k up to 64 the low k bits of the hash depend on nothing but the low k bits of the five fields |
| FlowHash.HashParity | include/types.h:46-60 | the lowest bit of the hash is the parity of the fields and the same for both directions |
| Dispatch.Balancer | src/load_balancer.cpp:82-86 | the balancer index is in range for every hash |
| Dispatch.WorkerOf | src/load_balancer.cpp:44-47 | the index of the worker within its balancer is in range for every hash |
| Dispatch.TwoTiersAreOne | src/load_balancer.cpp:44-86 | for all L, F >= 1 dividing and taking remainders in two tiers reaches worker h mod (L*F) |
| Dispatch.OneFeederPerWorker | src/load_balancer.cpp:58-68 | a worker's index names the one balancer that feeds it |
| Dispatch.WorkerSeesLowBits | src/load_balancer.cpp:44-86 | with L*F = 2^k workers the choice depends only on the low k bits of the fields |
| Dispatch.DirectionsMeetIffTwoWorkers | README.md:68 | for TCP and for UDP alike: both directions of every connection of that protocol reach one worker if and only if there are at most two workers in all |
| Dispatch.AssignQueues | src/load_balancer.cpp:58-68 | balancer i gets the queues numbered from i*F, F of them or as many as there are, for any counts |
| Dispatch.QueueRange | src/load_balancer.cpp:63-65 | the inner loop collects consecutive queue numbers up to the count or the end of the queues |
| Dispatch.AssignedQueueIsGlobalWorker | src/load_balancer.cpp:44-68 | the queue a balancer picks from its own list is that of the global worker index |
| QueueMonitor.EventKeeps | include/thread_safe_queue.h:26-106 | every push, pop, timeout, spurious wakeup, resumption and shutdown keeps the queue's invariant, with any number of threads and any choice of the thread notified |
| QueueMonitor.NoLostWakeup | include/thread_safe_queue.h:26-80 | at every point of every run sleeping consumers imply that the queue is no longer than the number of consumers notified and not yet back, sleeping producers that there are no more free slots than producers notified, and sleepers of both kinds never wait for each other; threads woken spuriously or by the clock do not count |
| QueueMonitor.BoundedFifo | include/thread_safe_queue.h:26-80 | at every point of every run the size is within the bound and the items handed out are a prefix of those accepted, the rest being the queue |
| QueueMonitor.AwakeConsumerTakes | include/thread_safe_queue.h:53-80 | a woken consumer takes the oldest item if there is one and leaves |
| QueueMonitor.AwakeProducerFills | include/thread_safe_queue.h:26-34 | a woken producer fills a free slot if there is one and leaves |
| QueueMonitor.ShutdownReleases | include/thread_safe_queue.h:101-106 | after a shutdown nobody sleeps, nothing more is accepted and every thread leaves at its next turn, consumers with an item while there is one |
| QueueMonitor.ConsumerLeavesIff | include/thread_safe_queue.h:53-80 | a consumer that looks at the queue, on its first look or on a later one, is done if and only if there is an item, a shutdown, or its deadline has passed; if there is nothing it gets nothing and changes nothing, else it gets the oldest item; one that is not done sleeps with the deadline it came with |
| QueueMonitor.ProducerLeavesIff | include/thread_safe_queue.h:26-34 | a producer is done if and only if there is a slot or a shutdown; its item is appended exactly if there is a slot and no shutdown, and nothing changes otherwise; one that is not done sleeps on its item |
| QueueMonitor.TryPushIff | include/thread_safe_queue.h:40-48 | an attempt to push appends exactly if there is a slot and no shutdown, and changes nothing otherwise |
| QueueMonitor.OthersStay | include/thread_safe_queue.h:26-106 | no event but a thread's own puts it to sleep, lets it leave, or changes its item or its deadline |
| QueueMonitor.WakesIff | include/thread_safe_queue.h:70 | the deadline of a thread can pass exactly while it sleeps with one, and wakes it; so does a spurious wakeup, which leaves the deadline as it is |
| QueueMonitor.DeadlineReleases | include/thread_safe_queue.h:68-80 | on every run, whatever happens in between: a consumer whose deadline has passed can always take its turn and is out after it, with the oldest item if there is one then, and otherwise with nothing and the queue as it was |
| QueueMonitor.PatientLeavesIff | include/thread_safe_queue.h:53-63 | on every run a consumer without a deadline is done if and only if there is an item or a shutdown |
| QueueMonitor.ThreadSafeQueue.PushOnce | include/thread_safe_queue.h:26-34 | one look under the lock: push, ignore after a shutdown, or wait |
| QueueMonitor.ThreadSafeQueue.TryPush | include/thread_safe_queue.h:40-48 | succeeds exactly when there is room and no shutdown, and then appends |
| QueueMonitor.ThreadSafeQueue.PopOnce | include/thread_safe_queue.h:53-63 | one look under the lock: take the first item, nothing after a shutdown, or wait |
| QueueMonitor.ThreadSafeQueue.PopAtDeadline | include/thread_safe_queue.h:68-80 | when the time is up the first item if there is one, else nothing |
| QueueMonitor.ThreadSafeQueue.Shutdown | include/thread_safe_queue.h:101-106 | sets the flag and leaves the items |
| Pipeline.AlwaysSound | src/dpi_engine.cpp:58-69 | on every run every job is where dispatch sends it, `stop` clears, shuts and joins in order, and no job is ever pushed on a queue that is shut |
| Pipeline.StepRoutes | src/dpi_engine.cpp:126-127 | every step keeps each job with the balancer and the worker of its tuple |
| Pipeline.StepInPhase | src/dpi_engine.cpp:58-69 | every step keeps flags, shut queues and exited threads in line with how far `stop` has come |
| PipelineOrder.StepInOrder | src/dpi_engine.cpp:115-128 | every step keeps, for each tuple, the order of creation from the reader through balancer and worker to the verdicts, and the order of verdicts through the output queue to the file |
| PipelineOrder.StepAsAlone | src/fast_path.cpp:44-56 | while no table has lost a tuple, every step keeps its entry equal to the state of a filter that sees this flow alone |
| PipelineOrder.JudgedEntry | src/fast_path.cpp:44-56 | a verdict changes the entry of its own tuple and of no other that is not evicted |
| PipelineOrder.AloneIsCausal | src/fast_path.cpp:44-56 | more packets never change what the sequential filter has let through |
| PipelineOrder.OutputRefinesFilter | src/dpi_engine.cpp:185-199 | on every interleaving the packets of a tuple that was never lost are written in order as a prefix of what a one-thread filter over that tuple's packets lets through |
| PipelineRestarts.StepKeepsTables | src/fast_path.cpp:44-56 | every step keeps each verdict explained by the flow's packets since its entry was last created, and each entry equal to the state they lead to |
| PipelineRestarts.OutputRefinesRestartingFilter | src/connection_tracker.cpp:12-32 | on every interleaving, for every flow and whatever tables evict or clean up: what is written is in order a prefix of what one thread lets through that starts afresh where the flow's entry was created anew, and all of it once nothing is on its way |
| PipelineOrder.QuietStopLosesNothing | src/dpi_engine.cpp:58-69 | if nothing is on its way when `stop` begins, the file holds the whole of what the filter lets through, at every later point |
| PipelineOrder.StopWaitsForWriter | src/dpi_engine.cpp:185-190 | if every job is judged and handed over when `stop` begins, then, however much is still queued, the file is whole when `stop` is done |
| PipelineAccounts.AlwaysBalanced | src/dpi_engine.cpp:119-127 | on every run, shutdown included: total = TCP + UDP = pending + judged, with TCP the number of TCP jobs, judged = forwarded + dropped, forwarded = written + queued + in a push + in the writer's hand, and every balancer's and worker's counters add up |
| PipelineAccounts.ExactlyOnce | src/dpi_engine.cpp:115-199 | every job occurs in the queues, hands, file and dropped packets together as often as it was created, and in no place but those of its own balancer and worker |
| PipelineProgress.StepWeighs | include/thread_safe_queue.h:26-80 | every step lowers a weight of jobs, threads and steps of `stop` still to come, except a turn round a loop that brings nothing, which leaves it as it is |
| PipelineProgress.MovesAreBounded | src/dpi_engine.cpp:46-69 | on every run, idle waits included, the steps that move a job, let a thread leave or take `stop` on are no more than the weight at its start |
| PipelineProgress.RunningReady | src/load_balancer.cpp:30-42 | before `stop`, whatever queues are full, as long as a frame is unread or a job in flight some thread can take a turn and moves something with its second at the latest |
| PipelineProgress.StoppingReady | src/dpi_engine.cpp:58-69 | after `stop` has begun the same holds unless `stop` is done or deadlocked, where deadlocked means: the writer has left, the output queue is full and open, and the thread being joined waits behind it |
| PipelineProgress.TwoRoundsMove | src/load_balancer.cpp:30-42 | two rounds, in each of which every thread gets a turn or is once unable to take one, move something if any thread can go on at their start |
| PipelineProgress.FairRunDrains | src/fast_path.cpp:28-42 | on every run, however long threads idle, as many rounds as twice the weight at their start leave nothing unread and nothing in flight, if `stop` has not begun |
| PipelineProgress.FairRunIsComplete | src/dpi_engine.cpp:77-97 | then every job is written or dropped, and the file is complete for every flow not lost |
| PipelineProgress.FairStopEnds | src/dpi_engine.cpp:58-69 | on every run, as many rounds as twice the weight once `stop` has begun bring it to its end or into a deadlock |
| PipelineProgress.DeadlockStays | src/dpi_engine.cpp:58-69 | no step of any thread ends a deadlock |
| PipelineProgress.DeadlockedForEver | src/dpi_engine.cpp:58-69 | on no run is `stop` ever done after a deadlock |
| PipelineStop.LeadsLater | src/dpi_engine.cpp:185-190 | whatever happens, the writer leaves nothing unwritten that was handed over before it left |
| PipelineStop.RunsUntilExhausted | src/dpi_engine.cpp:46-69 | from every reachable state, under any schedule that holds some threads back, the engine comes to a rest where no thread that may go on can |
| PipelineMemory.RememberedMatches | src/fast_path.cpp:44-56 | a flow that is remembered, that is whose entry was created anew for its first packet only, is judged as by a filter that sees it alone, whatever else tables lose |
| PipelineMemory.StepKeeps | src/connection_tracker.cpp:12-32 | a flow that is kept, that is remembered so far and with its entry in the table while packets of it are still to be judged, stays kept as long as its table loses nothing |
| PipelineMemory.UnlostIsKept | src/connection_tracker.cpp:12-32 | a flow that no table has lost is kept |
| PipelineAlike.ReachedIsHomed | src/dpi_engine.cpp:126-127 | on every run a table holds only tuples of the capture that dispatch sends to its worker |
| PipelineHang.RoomPreventsDeadlock | src/dpi_engine.cpp:185-199 | if no more jobs are upstream of the output queue when `stop` begins than it has room for, no run deadlocks |
| PipelineHang.StopCompletes | src/dpi_engine.cpp:58-69 | if so, then on every run, however long its threads idle, `stop` is done after as many rounds as twice the weight at their start |
| PipelineHang.FewLetThroughNeverHang | src/dpi_engine.cpp:185-199 | if the output queue holds all that is let through of the capture, no run that remembers all flows deadlocks |
| PipelineLoss.StoppedAccounts | src/fast_path.cpp:29 | when `stop` is done every job of the capture is written, dropped, or left behind in the queue of a balancer, of a worker or of the writer |
| Engine.EngineIsValid | src/dpi_engine.cpp:25-44 | the engine's own dispatch names an existing balancer and worker for every tuple |
| Engine.EngineDispatch | src/dpi_engine.cpp:25-44 | in the engine as built a tuple goes to the worker numbered by its hash modulo the number of workers, L*F, through the one balancer that feeds it, with the capacities given |
| Engine.TakePacket | src/dpi_engine.cpp:115-124 | a packet is skipped or becomes the job of the parser and `createPacketJob`; every job is TCP or UDP |
| Engine.ReadJobs | src/dpi_engine.cpp:115-128 | the reader's loop makes the jobs of the capture in order and counts packets, bytes, TCP and UDP, with total = TCP + UDP |
| Engine.JobsAreNumbered | src/dpi_engine.cpp:119 | job k has packet id k modulo 2^32, skipped packets not counted |
| Engine.JobsCarryPackets | src/dpi_engine.cpp:134-158 | every job carries the bytes and the time of a packet of the capture |
| Engine.AloneIsFilter | src/fast_path.cpp:44-56 | the pipeline's sequential fold is the flow filter of the verdict model |
| Engine.EngineRefinesFilter | src/dpi_engine.cpp:100-199 | for the engine's verdicts and input: what is written of a flow not lost is a prefix of what the verdicts on that flow alone let through, and all of it once nothing is on its way |
| Engine.BlockedFlowStaysOut | README.md:143 | once a packet of a flow is dropped and no later packet reopens the flow, nothing of that direction from that packet on is ever written, as long as no table loses it |
| EngineBlocking.EngineBlockingIff | README.md:143 | on every run of the engine, evictions and cleanups included: after a drop all later packets of both directions of the connection are dropped if and only if none of that direction gets in, by reopening its entry or by coming when it is gone, and the other direction is kept out by its own packets |
| EngineBlocking.StayingOutIsUnwritten | README.md:143 | what stays out so is not in the file |
| EngineBlocking.BlockedFramesReopen | src/fast_path.cpp:135-136 | two legal frames of one TCP connection, encoded, parsed and made jobs: the first is dropped as blocked HTTP, the second, a RST with a DNS query, is let through by the engine |
| EngineBlocking.ReopeningCaptureReopens | src/fast_path.cpp:135-136 | such a capture, for any addresses and times: one byte as payload, and then a RST with a query for a one-letter domain |
| EngineVerdicts.DroppedIffNamed | src/fast_path.cpp:44-56 | on every run of the engine, whatever its tables lose: a packet is dropped if and only if one of the rules given names its address, its port, or the application or the name that its flow holds with it |
| EngineVerdicts.WrittenIsUnnamed | src/fast_path.cpp:106-124 | a packet in the file was judged with nothing named: no rule names its address or port, nor what its flow held |
| EngineVerdicts.FirstOfFrameIff | src/fast_path.cpp:44-73 | a packet before which nothing was found in its flow, if its entry remembers any, is dropped if and only if a rule names its address, its port or what is to be found in the payload of its frame |
| EngineVerdicts.NamedHelloDroppedIff | src/fast_path.cpp:75-89 | end to end, for every ClientHello of the standards with a server name in a legal frame, whatever follows it, on any port: if nothing was found in its flow before, as in a handshake, or its entry is new, it is dropped if and only if a rule names its address, its port, the application of its name, or its name |
| EngineVerdicts.UnnamedHelloDroppedIff | src/fast_path.cpp:71-72 | the same for a ClientHello without a server name to port 443: address, port or HTTPS |
| EngineVerdicts.GeneratedHelloDroppedIff | generate_test_pcap.py:79-116 | the same for the generated messages, whatever name they are made for |
| EngineVerdicts.YouTubeIsDropped | src/main.cpp:18 | blocking YouTube as an application or by *.youtube.com drops the generated ClientHello for www.youtube.com on every run |
| Engine.BlockedAddressNeverWritten | src/rule_manager.cpp:140-148 | on every run, whatever is evicted or cleaned up, no packet from a blocked source address or to a blocked port is written |
| Engine.EngineOutputReadableIff | src/dpi_engine.cpp:201-220 | the file left behind reads back as exactly the packets written if and only if the input was in native byte order or nothing was written |
| Engine.FastPathIsPipeline | src/fast_path.cpp:44-56 | a packet processed on the full table, with its eviction, is one turn of the pipeline's worker: same verdict, same flows, same flow lost |
| Engine.CleanupIsPipeline | src/fast_path.cpp:31-34 | a cleanup of the full table is one idle turn of the pipeline's worker |
| EngineTables.RealRunIsRun | src/fast_path.cpp:28-56 | every run of the engine with its real bounded tables is a run of the pipeline whose workers lose exactly what those tables evict and clean up |
| EngineTables.TablesHaveHistories | src/fast_path.cpp:28-42 | on such a run every real table is the table of a worker with a history of its own, so that all laws of those hold for it |
| EngineTables.NothingLost | src/connection_tracker.cpp:12-32 | if the tables have room for every tuple of the capture, no packet carries FIN or RST and the clock stays within 300 seconds, no table ever loses a flow |
| EngineTables.RealEngineRefinesFilter | src/dpi_engine.cpp:100-199 | then the file is, flow by flow, a prefix of what the verdicts on that flow alone let through, and all of it once nothing is on its way |
| EngineLift.MoveExists | src/connection_tracker.cpp:128-138 | whatever its tables hold, the engine has a legal move for every thread that can take a turn: a full table always has an oldest entry to evict, and the clock need not go back |
| EngineLift.AdmittedLift | src/fast_path.cpp:28-56 | if nothing of the capture is dropped, the engine with tables of any size can follow every run of the pipeline whose tables lose nothing, and differs from it in the tables only, whatever it has to evict or clean up |
| EngineLift.RoomyLift | src/fast_path.cpp:28-56 | with packets dropped it can follow if each table has room for the tuples of the capture that its worker gets, and its verdicts are the same |
| RealShutdown.FewJobsHaveRoom | src/connection_tracker.cpp:12-32 | tables have room for every capture with no more jobs than a table has entries |
| RealShutdown.ForgetlessKeepsAll | src/connection_tracker.cpp:83-98 | on a run without FIN or RST that is over within 300 seconds, with that room, all flows are kept at every point |
| RealShutdown.AdmittedHangIff | src/dpi_engine.cpp:58-69 | over the runs with real tables of any size, for a capture of which nothing is dropped: from a state with all frames read and `stop` not begun a deadlock can be reached if and only if more jobs are upstream of the output queue than it holds |
| RealShutdown.HangFromStartIff | src/dpi_engine.cpp:11 | so from the start, with any numbers of threads and any capacities where the output queue holds no more than one balancer and one worker with theirs: such a capture can hang the engine if and only if it has more jobs than the output queue holds |
| RealShutdown.OneFlowHangIff | src/dpi_engine.cpp:58-69 | for such a capture of one flow and all capacities: the engine can hang if and only if the capture has more jobs than the output queue holds and that holds no more than one balancer and one worker with theirs |
| RealShutdown.HangIff | src/dpi_engine.cpp:58-69 | with packets dropped, tables with room for the capture and all flows kept: from such a state a deadlock on a run that remembers all flows can be reached if and only if the jobs still to come that the filter lets through are more than the output queue holds |
| RealShutdown.RealStretchHangs | src/dpi_engine.cpp:58-69 | from the start, with packets dropped and that room: if the last jobs of the capture fit into one balancer and one worker with their queues, and more of them are let through than the output queue holds, the engine can hang, whatever comes before them |
| RealShutdown.ShortHangIff | src/dpi_engine.cpp:58-69 | if the whole capture fits there, the engine can hang on a run that remembers all flows if and only if more of the capture is let through than the output queue holds |
| RealShutdown.AdmittedLeavesWholeIff | src/dpi_engine.cpp:58-69 | over the runs with real tables of any size, for a capture of which nothing is dropped, with one balancer for each worker and room for two jobs in the output queue: every `stop` that completes leaves the file with the whole of a flow if and only if the whole was written, in the writer's hand or in the output queue when `stop` began |
| RealShutdown.OneSlotForcesWrite | src/dpi_engine.cpp:185-190 | why room for two is asked for: with one slot a `stop` can begin with a flow not handed over, and yet every `stop` that completes writes it |
| RealShutdown.AdmittedLeavesAllIff | src/dpi_engine.cpp:58-69 | for such a capture and all capacities: every `stop` that completes leaves all its jobs in the file if and only if none was upstream of the output queue when `stop` began |
| RealShutdown.RealLosesFromStart | src/load_balancer.cpp:31 | with any numbers of threads, any capacities and tables of any size a completed `stop` with exactly one packet unwritten is reachable for every such capture that has a job |
| RealShutdown.LeftWholeIff | src/dpi_engine.cpp:185-190 | with packets dropped and tables of any size: once the writer has left, the file holds the whole of a flow on every run that remembers the flow if and only if the whole was handed over when `stop` began |
| RealShutdown.StopLeavesWholeIff | src/dpi_engine.cpp:58-69 | with packets dropped, tables with room for the capture and the flow kept, one balancer for each worker and room for two jobs in the output queue: every `stop` that completes on a run that remembers the flow leaves the whole of it in the file if and only if the whole was handed over when `stop` began |
| RealShutdown.StopLeavesAllIff | src/dpi_engine.cpp:58-69 | for all capacities, with that room and all flows kept: every `stop` that completes on a run that remembers all flows leaves the whole of all of them if and only if nothing that is let through was still to come when it began |
| RealShutdown.RealStretchLoses | src/load_balancer.cpp:31 | from the start, with packets dropped and that room: if the last jobs of the capture fit into one balancer and one worker with their queues and any of them is let through, a completed `stop` with a remembered flow not whole is reachable |
| EngineShutdown.HarmlessIff | src/fast_path.cpp:44-56 | with the engine's rules: nothing is dropped of a capture in any state that its packets lead a flow to if and only if each packet would be let through as the only one of its flow |
| EngineShutdown.EngineHangIff | src/dpi_engine.cpp:11 | with any numbers of balancers and workers, queues of 10000, tables of any size and a capture whose packets are each harmless by themselves: `stop` can hang for ever if and only if the capture has more than 10000 jobs |
| EngineShutdown.EngineShortHangIff | src/dpi_engine.cpp:11 | with any rules, tables with room for the capture and at most 20002 jobs: `stop` can hang on a run that remembers all flows if and only if more than 10000 jobs are let through |
| EngineShutdown.EngineLoses | src/dpi_engine.cpp:58-69 | with tables of any size and a capture whose packets are each harmless by themselves: `stop` can complete with exactly one packet unwritten as soon as there is one job |
| EngineShutdown.EngineLosesHarmlessIff | src/dpi_engine.cpp:58-69 | of such a capture, with all frames read and `stop` not begun: every completed `stop` leaves the file with the whole of a flow if and only if the whole was handed over by then |
| EngineShutdown.EngineLosesIff | src/dpi_engine.cpp:58-69 | for all rules, with tables that have room for the capture, all frames read, `stop` not begun and the flow kept: every `stop` that completes on a run that remembers the flow leaves the file with all that the verdicts let through of it if and only if all of it was handed over by then |
| Stages.LoadBalancer.Receive | src/load_balancer.cpp:31-35 | one wait takes the first job, if any, and counts it |
| Stages.LoadBalancer.Send | src/load_balancer.cpp:36-40 | the job goes to the worker its hash names and to no other; what was dispatched stays the sum over the workers |
| Stages.Output.WriteOutputHeader | src/dpi_engine.cpp:201-206 | appends the header to an open file, whatever it holds, and nothing to a closed one |
| Stages.Output.WriteOutputPacket | src/dpi_engine.cpp:208-220 | appends one record to an open file, header or not, and nothing to a closed one |
| Stages.FileIsCapture | src/dpi_engine.cpp:107 | if the header is put in first and only once, the file is the capture of the packets put in after it |
| Stages.Output.HandleOutput | src/dpi_engine.cpp:192-199 | counts a dropped packet, or counts a forwarded one once and tries to push it; `Stages.Output.RetryOutput` is a further try and counts nothing |
| Stages.Output.OutputThread | src/dpi_engine.cpp:185-190 | the writer's loop, whatever others push meanwhile and whenever the flag is cleared: what it takes and what is left over is all that came, in order, what it takes is written, and it leaves only at a test that finds the flag cleared and the queue empty |
| Stages.Output.DrainOutput | src/dpi_engine.cpp:185-190 | once the engine does not run and nobody pushes, the writer's loop writes all that is queued, in order, and ends |
| FastPath.ProcessIsStep | src/fast_path.cpp:44-56 | a packet moves its own entry by one step of the flow's state machine and gets that step's verdict |
| FastPath.ProcessIsolates | src/fast_path.cpp:44-56 | it leaves every other entry as it was, except for the one evicted |
| FastPath.ProcessCounts | src/connection_tracker.cpp:44-74 | it adds one packet and its size to the outbound counters, leaves the inbound ones, and moves the totals of entries seen and blocked accordingly |
| FastPath.ProcessedIsForwardedPlusDropped | src/fast_path.cpp:36-40 | on every run processed = forwarded + dropped at the head of the loop |
| FastPath.EntriesCountTheirPackets | src/fast_path.cpp:48 | on every run the outbound counters of a live entry are the number and total size of its tuple's packets since it was created; inbound counters stay 0 |
| FastPath.TableIsLru | src/connection_tracker.cpp:12-55 | under a strictly increasing clock the table holds exactly the tuples of a least-recently-used list driven by the same packets and cleanups, in the order of their times |
| FastPath.EvictsLeastRecent | src/connection_tracker.cpp:128-138 | a packet evicts exactly the least recently processed tuple, and only if it has no entry and the table is full |
| FastPath.EventIsOps | src/fast_path.cpp:44-56 | processing a packet is a sequence of table operations |
| FastPath.WorkIsRun | src/fast_path.cpp:28-42 | a worker's run is a run of table operations |
| FastPath.WorkerBooks | src/connection_tracker.cpp:12-98 | on every run of a worker the table is bounded and keyed by its entries' tuples, entries seen = live + evicted + cleaned + cleared, and the classified count is the number of entries into CLASSIFIED |
| FastPath.BlockedAddressNeverPasses | src/fast_path.cpp:106-124 | after any history of a worker, evictions and cleanups included, a packet with a blocked source address or destination port is dropped |
| FastPath.FastPathProcessor.TryExtractSni | src/fast_path.cpp:75-89 | for every job: classifies the entry by the server name exactly when the port or length condition, the payload and the decoder allow |
| FastPath.FastPathProcessor.TryExtractHttpHost | src/fast_path.cpp:91-104 | for every job: classifies the entry by the Host header exactly on port 80 with a host found |
| FastPath.FastPathProcessor.InspectPayload | src/fast_path.cpp:58-73 | TLS, HTTP, DNS and port fallbacks in the source's order |
| Findings.FindingIff | src/fast_path.cpp:58-104 | what is found in any payload, if and only if, by the grammars: the server name a ClientHello carries, on port 443 or from 50 bytes on; else the first Host value, on port 80; else the longest run of labels, to or from port 53; else HTTP on port 80 and HTTPS on 443; else nothing |
| Findings.FreshDroppedIff | src/fast_path.cpp:44-56 | a packet without an entry is dropped if and only if a rule names its address, its port or what is to be found in it |
| Findings.FirstFoundIff | src/fast_path.cpp:44-56 | as long as nothing was found in a flow, what it holds with its next packet is named by a rule if and only if the packet is |
| Findings.FirstFilteredIff | src/fast_path.cpp:44-56 | the same for the first packet of the sequential filter |
| Findings.NamedHelloFinds | src/fast_path.cpp:75-89 | in every ClientHello of the standards with a server name that name is found, on any port, and nothing else |
| Findings.UnnamedHelloFinds | src/fast_path.cpp:58-73 | in one without a server name nothing is found but what the port says, if neither port is 53 |
| Findings.GeneratedHelloFinds | generate_test_pcap.py:79-116 | in a generated ClientHello the name it was made for is found, on any port |
| Findings.GeneratedRequestFinds | generate_test_pcap.py:119-120 | in a generated request to port 80 its host is found |
| FastPath.FastPathProcessor.CheckRules | src/fast_path.cpp:106-124 | drops and blocks the entry if and only if the rules block its address, port, application or domain |
| FastPath.FastPathProcessor.ProcessPacket | src/fast_path.cpp:44-56 | the whole new table and the verdict are those of the specification that the laws above are about; the victim is an oldest entry |
| FastPath.FastPathProcessor.Turn | src/fast_path.cpp:36-40 | one turn with a job: counters and table move as the worker's specification says |
| FastPath.FastPathProcessor.IdleTurn | src/fast_path.cpp:31-34 | one turn without a job: a cleanup with 300 seconds |
| ConnectionTable.AlwaysConsistent | src/connection_tracker.cpp:12-32 | over every run of table operations every key is its entry's tuple and there are at most max(1, max_connections) entries |
| ConnectionTable.SeenAreAccountedFor | src/connection_tracker.cpp:12-98 | over every run of table operations total seen = live + evicted + cleaned + cleared |
| ConnectionTable.ClassifiedCountStep | src/connection_tracker.cpp:57-66 | the classified count goes up by one exactly when some entry enters CLASSIFIED, and no two do at once |
| ConnectionTable.ClassifiedCountsEntries | src/connection_tracker.cpp:57-66 | over every run the classified count is the number of entries into CLASSIFIED |
| ConnectionTable.BlockedCountsBlocks | src/connection_tracker.cpp:68-74 | the blocked count is the number of times an entry was blocked |
| ConnectionTable.TimesAre | src/connection_tracker.cpp:22-55 | on every run a live entry holds the clock when it was last created and when a packet was last counted on it |
| ConnectionTable.ClosedGoes | src/connection_tracker.cpp:76-98 | an entry that was closed is gone after the next cleanup, and no other is touched by closing it |
| ConnectionTable.CountersCount | src/connection_tracker.cpp:44-55 | over every run the four counters of a live entry are the packets and bytes of its tuple by direction since it was created |
| ConnectionTable.CountingIsLru | src/connection_tracker.cpp:12-55 | looking up and counting a packet is one touch of a bounded least-recently-used list, and the victim is its head |
| ConnectionTable.CleanupKeepsRecency | src/connection_tracker.cpp:83-98 | a cleanup takes the stale and closed tuples out of the list and keeps the order of the rest |
| ConnectionTable.ConnectionTracker.EvictOldest | src/connection_tracker.cpp:128-138 | removes one entry that no other was seen before, whatever the order in which the map is walked, and nothing from an empty table |
| ConnectionTable.ConnectionTracker.GetOrCreateConnection | src/connection_tracker.cpp:12-32 | the whole new table: an existing entry, or a new one after an eviction from a full table |
| ConnectionTable.ConnectionTracker.GetConnection | src/connection_tracker.cpp:34-42 | the entry of the tuple, else that of the reverse tuple, else none |
| ConnectionTable.ConnectionTracker.UpdateConnection | src/connection_tracker.cpp:44-55 | time and counters by direction; nothing without an entry |
| ConnectionTable.ConnectionTracker.UpdateTcpState | src/fast_path.cpp:126-137 | handshake marks, ESTABLISHED from NEW only, CLOSED on RST or on ACK after FIN from any state |
| ConnectionTable.ConnectionTracker.ClassifyConnection | src/connection_tracker.cpp:57-66 | sets application, name, state and count unless already CLASSIFIED |
| ConnectionTable.ConnectionTracker.BlockConnection | src/connection_tracker.cpp:68-74 | sets BLOCKED and DROP and counts |
| ConnectionTable.ConnectionTracker.CloseConnection | src/connection_tracker.cpp:76-81 | sets CLOSED if there is an entry |
| ConnectionTable.ConnectionTracker.CleanupStale | src/connection_tracker.cpp:83-98 | the loop keeps exactly the entries that are neither older than the timeout in whole seconds nor CLOSED, and returns how many went |
| ConnectionTable.StaleIff | src/connection_tracker.cpp:88-89 | an entry is removed if and only if it is CLOSED or was last seen a full second more than the timeout ago |
| ConnectionTable.ConnectionTracker.Clear | src/connection_tracker.cpp:120-122 | empties the table and keeps the totals |
| FlowVerdict.BlockedAddressAlwaysDrops | src/rule_manager.cpp:143-144 | a blocked source address or destination port drops the packet in every state of the flow |
| FlowVerdict.BlocksIffNamed | src/fast_path.cpp:106-124 | the rules block a flow with what it holds if and only if one of them names its source address, its destination port, or that |
| FlowVerdict.NewRuleBlocks | src/fast_path.cpp:106-124 | one more rule blocks just what it names on top of what was blocked |
| FlowVerdict.TcpStepIs | src/fast_path.cpp:126-137 | what a flags byte does, by its bits 1, 2, 4 and 16: the three marks, ESTABLISHED, CLOSED, and nothing else |
| FlowVerdict.ActionIff | src/connection_tracker.cpp:68-74 | the action noted in a flow is DROP if and only if one of its packets was dropped |
| FlowVerdict.StateOrder | src/fast_path.cpp:126-137 | no step leads back to NEW, and ESTABLISHED is entered from NEW only |
| FlowVerdict.BlockedForCauseKept | src/fast_path.cpp:50-55 | a BLOCKED flow is always one that the rules block for what it holds, and a packet is dropped exactly when the flow ends up BLOCKED |
| FlowVerdict.ForwardAfterDropIff | src/fast_path.cpp:49-55 | the packet after a drop is forwarded if and only if it is TCP, closes the flow and carries a payload that is classified as something not blocked |
| FlowVerdict.FinSeenIff | src/fast_path.cpp:134 | the FIN mark is set if and only if some packet of the flow carried FIN |
| FlowVerdict.MarksIff | src/fast_path.cpp:127-130 | the two handshake marks are set if and only if some packet of the flow carried SYN without ACK, or SYN with ACK |
| FlowVerdict.EstablishedStepIff | src/fast_path.cpp:131-133 | a NEW flow becomes ESTABLISHED if and only if the packet has ACK, both marks are then set, it does not close the flow, and it is neither classified nor blocked |
| FlowVerdict.EstablishedNeedsBoth | src/fast_path.cpp:126-137 | since a flow is one direction, it is ESTABLISHED only if that direction carried both a SYN and a SYN with ACK, so an ordinary handshake never gets there |
| FlowVerdict.BlockingPersistsIff | src/fast_path.cpp:44-56 | for one direction and as long as its entry lives: after a drop all later packets are dropped if and only if none of them closes the connection with a payload classified as something not blocked |
| FlowVerdict.AfterHolds | src/connection_tracker.cpp:57-66 | after any packets of a flow, what it holds is the finding of the last packet whose finding it takes: the first packet's, a later one's if what is held is not blocked and was not found or the connection was closed since, or if what is held is blocked and that packet closes it; the flow is BLOCKED if what is held is blocked, and CLASSIFIED if it was found, is not blocked and nothing has closed the connection since |
| FlowVerdict.DroppedIffHeldBlocked | src/fast_path.cpp:49-55 | a packet is dropped if and only if the rules block what its flow holds, in this sense, with this packet |
| FlowVerdict.UdpBlockingIsFinal | src/fast_path.cpp:49-50 | a flow that is not TCP stays blocked after one drop |
| FlowVerdict.FilterGivesVerdicts | src/fast_path.cpp:44-56 | the actions of the sequential filter are the verdicts of the state machine at each index |
| FlowVerdict.FilterBlockingPersistsIff | src/fast_path.cpp:44-56 | the same if-and-only-if for the filter over the packets of one direction |
| Blocking.LogBlockingIff | README.md:143 | for one direction on any log of verdicts that tables with evictions and cleanups can give: after a drop all later packets are dropped if and only if none gets in, where a packet with a live entry gets in if it closes the connection and is found harmless, and one without an entry if it is harmless by itself |
| Blocking.DropsAtIff | src/fast_path.cpp:44-56 | on any such log a packet is dropped if and only if the rules block what its flow holds with it, of the packets since its entry was created |
| Blocking.DropsAtCases | src/fast_path.cpp:44-56 | with a new entry that is to say that it is not harmless by itself, and after a drop in the same entry that it does not get in |
| Blocking.ConnectionBlockingIff | README.md:143 | for both directions of a connection: after a drop in one of them all later packets of both are dropped if and only if none of that direction gets in, and of the other the rules block what its flow holds with its first later packet, and none after that gets in |
| Blocking.UnfoundDirectionPasses | README.md:143 | a direction in whose packets nothing is ever found passes entirely, whatever happened to the opposite one, unless its address, its port or what is unknown is blocked |
| Blocking.WorkerBlockingIff | src/fast_path.cpp:28-42 | the same if-and-only-if over every run of a worker with its evictions and cleanups |
| Blocking.LiveEntryIsAfter | src/connection_tracker.cpp:12-32 | over every run of a worker a live entry is the state that the packets of its tuple since its creation lead to from a fresh one |
| Blocking.CountersCountVerdicts | src/fast_path.cpp:36-40 | on every run of a worker its counters are the number of its verdicts, of those to forward and of those to drop |
| Blocking.EntryGoesIff | src/connection_tracker.cpp:83-138 | an entry goes if and only if a cleanup finds it CLOSED or last seen 301 seconds ago, or a packet without an entry evicts it |
| Blocking.ForgottenFlowGetsIn | src/fast_path.cpp:31-34 | a blocked flow that pauses for 301 seconds is forgotten by a cleanup: its next packet passes if and only if it is harmless by itself, without closing anything |
| FlowVerdict.BlockedFlowReopens | src/fast_path.cpp:135-136 | a flow that is dropped as HTTP and then forwarded: a RST with a DNS query as payload, for any addresses |
| TlsClientHello.FindServerName | src/sni_extractor.cpp:60-84 | the extension loop returns the first server_name found by the scan, with all reads in bounds, and ends |
| TlsClientHello.Extract | src/sni_extractor.cpp:31-85 | the decoder's offset arithmetic computes the specified name on every payload, with all reads in bounds |
| TlsClientHello.DecodeEncoded | src/sni_extractor.cpp:31-85 | for any session id, cipher suites, compression methods, other extensions, padding and trailing bytes, decoding an encoded ClientHello returns its name |
| TlsClientHello.ServerNameIffGrammar | src/sni_extractor.cpp:31-85 | the decoder returns a name if and only if the payload is a ClientHello of a lenient grammar whose first server_name extension reached is a host_name entry carrying it; the lengths of record, message, extension block and name list need not be true |
| TlsClientHello.ConformingDecodes | src/sni_extractor.cpp:31-85 | every ClientHello of the standards in one record (RFC 5246 sections 6.2.1, 7.4 and 7.4.1.2, RFC 6066 section 3), with true lengths and whatever follows, is decoded to its host name, or to nothing if it has no server_name |
| TlsClientHello.GeneratedHelloDecodes | generate_test_pcap.py:79-116 | the generator packs a name exactly when it has at most 65470 bytes, and then the decoder gives it back |
| HttpHost.Extract | src/sni_extractor.cpp:101-129 | the search loop returns the value of the first Host line that has one, with all reads in bounds |
| HttpHost.HostFromIsFirst | src/sni_extractor.cpp:107-128 | the result is the value at the first matching position that has a value, and there is none exactly when no position has one |
| HttpHost.HostIffGrammar | src/sni_extractor.cpp:91-129 | a host is returned if and only if the payload starts with one of the seven methods and its first Host line, the name in any mix of cases and then blanks, has that value up to its first colon |
| HttpHost.HostShape | src/sni_extractor.cpp:114-125 | an extracted host has no colon and no line break and does not start with a blank |
| HttpHost.GeneratedRequestDecodesIff | generate_test_pcap.py:119-120 | a generated request gives its host back if and only if the host is non-empty, starts with no blank and has no colon or line break |
| DnsQuery.ExtractQuery | src/sni_extractor.cpp:139-158 | the label loop computes the specified name, with all reads in bounds, and ends |
| DnsQuery.QueryNameIsLongestRun | src/sni_extractor.cpp:131-158 | a name is returned if and only if the header (RFC 1035 section 4.1.1) has no response bit and a question, and it is the dotted form of the longest non-empty run of complete labels behind it (sections 3.1 and 4.1.2) |
| DnsQuery.GeneratedQueryDecodesIff | generate_test_pcap.py:123-138 | a generated query gives its domain back if and only if every label has between 1 and 63 bytes |
| DnsQuery.LabelsSurvive | generate_test_pcap.py:131-135 | every non-empty list of dot-free labels of 1 to 63 bytes comes back as the dotted name |
| DnsQuery.SplitOfJoin | generate_test_pcap.py:133 | splitting the dotted form of dot-free labels gives the labels back |
| IpText.ParseIpLoop | src/rule_manager.cpp:7-22 | the loop computes the specified parse of any text |
| IpText.ParsePrinted | src/rule_manager.cpp:7-31 | parsing what was printed is the identity on all 2^32 addresses |
| IpText.PrintedDistinct | src/rule_manager.cpp:24-31 | different addresses print differently |
| IpText.PrintsWireOrder | src/rule_manager.cpp:24-31 | an address prints as its four bytes on the wire, in that order |
| IpText.PrintedExample | src/main.cpp:18 | 192.168.1.50, the address of the usage text, printed and parsed |
| IpText.ParseIgnores | src/rule_manager.cpp:11-19 | a character that is neither a digit nor a dot changes nothing, wherever it stands |
| IpText.ParseNumber | src/rule_manager.cpp:16-21 | a text without a dot is the number itself, for all numbers below 2^31, and above those, where the C++ is undefined, cut to 32 bits |
| PacketParser.RunEthernet | src/packet_parser.cpp:44-54 | writes the record and moves the offset as specified, reads in bounds |
| PacketParser.RunIPv4 | src/packet_parser.cpp:56-85 | version, header length and lengths checked in order; addresses become text |
| PacketParser.RunTcp | src/packet_parser.cpp:87-107 | ports, numbers, data offset and flags, refused when the header is short or cut off |
| PacketParser.RunUdp | src/packet_parser.cpp:109-121 | ports, refused when the header is cut off |
| PacketParser.ParsePacket | src/packet_parser.cpp:12-42 | the layers in sequence and the payload behind them, as the parse function says |
| PacketParser.BuildJob | src/dpi_engine.cpp:134-183 | the job as it is filled in step by step, with all reads in bounds on frames the parser accepted |
| PacketParser.OffsetsAgree | src/dpi_engine.cpp:163-180 | for every accepted frame the offset computed a second time is the parser's, so both see the same payload |
| PacketParser.TupleOnTheWire | src/dpi_engine.cpp:152-156 | the tuple holds the addresses and ports on the wire although the addresses travel as text |
| PacketParser.ParseEncoded | src/packet_parser.cpp:12-121 | the parser gives back the fields of any legal frame: any IHL and any TCP data offset |
| PacketParser.JobOfEncoded | src/dpi_engine.cpp:134-183 | building a frame (RFC 791 section 3.1, RFC 9293 section 3.1, RFC 768), parsing it and making a job is the identity on tuple, flags and payload |
| PacketParser.JobIffFrame | src/dpi_engine.cpp:116-119 | a capture becomes a job if and only if it is the encoding of a legal frame |
| PacketParser.GeneratedTcpPacket | generate_test_pcap.py:34-70 | a generated TCP packet becomes a job with the addresses, ports, flags and payload it was made for |
| PacketParser.GeneratedUdpPacket | generate_test_pcap.py:34-76 | a generated UDP packet becomes a job with the addresses, ports and payload it was made for |
| Pcap.PcapReader.Open | src/pcap_reader.cpp:13-44 | succeeds exactly on an open file with a complete header and one of the two magic numbers; swaps four fields and leaves the magic number |
| Pcap.OpensNativeIff | src/pcap_reader.cpp:22-30 | a file is opened with a header as native if and only if the magic number is 0xa1b2c3d4 and the file starts with that header, least significant bytes first |
| Pcap.OpensSwappedIff | src/pcap_reader.cpp:31-36 | for every header: a file is opened with it as swapped, with the swapped magic number and with time zone and accuracy left as they lie, if and only if the file starts with that header, most significant bytes first |
| Pcap.OpensIff | src/pcap_reader.cpp:22-41 | a file is refused if and only if it is shorter than a header or starts with neither byte order of 0xa1b2c3d4, and every file opened as swapped starts with a header, most significant bytes first, that says how |
| Pcap.PcapReader.Close | src/pcap_reader.cpp:46-51 | closes and forgets the byte order |
| Pcap.PcapReader.ReadNextPacket | src/pcap_reader.cpp:53-73 | returns the packet at the cursor and moves past it, or fails on a short or oversized record |
| Pcap.PcapReader.ReadAll | src/dpi_engine.cpp:115 | the reader's loop sees exactly the packets of the stream from the cursor on |
| Pcap.NextPacketIff | src/pcap_reader.cpp:53-73 | a packet is read if and only if a complete legal record stands at the cursor |
| Pcap.PacketsAreLongestRun | src/pcap_reader.cpp:53-73 | a list is what the reader returns if and only if it is the longest run of complete legal records |
| Pcap.SwapTwice | src/pcap_reader.cpp:80-86 | swapping four bytes twice is the identity |
| Pcap.NativeRoundTrip | src/dpi_engine.cpp:201-220 | for native order and packets of at most min(snaplen, 65535) bytes, reading what was written gives the same times and data in order, both lengths being the captured one |
| Pcap.SwappedRoundTrip | src/pcap_reader.cpp:31-73 | for every header and all records of at most min(snaplen, 65535) bytes, written most significant bytes first: the file is opened with versions, snaplen and network as meant, and the records are read back in order |
| Pcap.RecordsKeep | src/dpi_engine.cpp:208-220 | each record written keeps the time and the bytes of its packet, and has the captured length twice |
| Pcap.OutputReadableIff | src/pcap_reader.cpp:31-36 | the output for an opened input reads back if and only if the input was native or nothing was written: a swapped magic number goes out with records in native order |
| Pcap.PcapWriter.WritePacket | generate_test_pcap.py:21-28 | appends one record, or fails when time or length do not fit 32 bits; the clock ticks either way |
| Pcap.GeneratedHeaderBytes | generate_test_pcap.py:16-19 | the 24 bytes in front of every generated file |
| Pcap.GeneratedFileReadsBack | generate_test_pcap.py:10-28 | what the generator writes the reader gives back |
| AppSignatures.Search | src/types.cpp:108-121 | the two nested loops with their flag decide containment ignoring ASCII case |
| AppSignatures.SniToAppType | src/types.cpp:104-139 | the table, the later groups and the default in the source's order |
| AppSignatures.ContainsTransitive | src/types.cpp:108-121 | containment ignoring case is transitive |
| AppSignatures.FirstMatchIsFirst | src/types.cpp:123-127 | the first entry contained decides, if any is |
| AppSignatures.AppIgnoresCase | src/types.cpp:104-139 | hosts that differ in ASCII case only have the same application |
| AppSignatures.ShadowedEntryIsDead | src/types.cpp:123-127 | in any table, deleting an entry that contains an earlier one changes no result |
| AppSignatures.ReducedTableDecidesAlike | src/types.cpp:62-102 | without "googleapis", "yt3.ggpht", "cdninstagram" and "amazonaws" every host has the same application |
| AppSignatures.AppIff | src/types.cpp:62-136 | for each of the 17 applications with signatures: a host is taken for it if and only if it contains one of its signatures and none of those of the applications before it, with all 53 signatures in the source's order |
| AppSignatures.NoAppIff | src/types.cpp:104-139 | Unknown for the empty name and no other; HTTPS if and only if the name is not empty and contains no signature at all; never HTTP, DNS, TLS or QUIC |
| AppSignatures.EarlierDecides | src/types.cpp:123-136 | a signature of one application rules out all applications behind it |
| AppSignatures.NetflixDotComIsNotNetflix | src/types.cpp:83-85 | no host that contains netflix.com is Netflix |
| AppSignatures.MicrosoftDotComIsNotMicrosoft | src/types.cpp:84-92 | no host that contains microsoft.com is Microsoft |
| AppSignatures.GoogleVideoIsGoogle | README.md:143 | hosts with .googlevideo. are Google, so blocking YouTube does not match them |
| GeneratorHosts.GeneratorHosts | generate_test_pcap.py:151-175 | the application of each of the 18 hosts of the generator; www.netflix.com and www.microsoft.com are taken for Twitter, example.com and httpbin.org for HTTPS |
| Rules.RuleManager.BlockIp | src/rule_manager.cpp:46-49 | adds the address and nothing else |
| Rules.RuleManager.BlockIpText | src/rule_manager.cpp:51 | adds the address that the text parses to |
| Rules.RuleManager.UnblockIp | src/rule_manager.cpp:53-56 | removes the address and nothing else |
| Rules.RuleManager.BlockApp | src/rule_manager.cpp:72-75 | adds the application and nothing else |
| Rules.RuleManager.UnblockApp | src/rule_manager.cpp:77-80 | removes the application and nothing else |
| Rules.RuleManager.BlockDomain | src/rule_manager.cpp:93-97 | a name with a star is appended to the patterns, any other joins the exact domains |
| Rules.RuleManager.UnblockDomain | src/rule_manager.cpp:99-106 | removes the name from the domains and every copy from the patterns, keeping the order of the others |
| Rules.RuleManager.BlockPort | src/rule_manager.cpp:125-128 | adds the port and nothing else |
| Rules.RuleManager.UnblockPort | src/rule_manager.cpp:130-133 | removes the port and nothing else |
| Rules.RuleManager.ClearAll | src/rule_manager.cpp:199-204 | no rule is left |
| Rules.RuleManager.DomainBlocked | src/rule_manager.cpp:108-116 | the lookup and the pattern loop decide whether a domain is blocked; the empty name never is |
| Rules.RuleManager.Decide | src/rule_manager.cpp:140-148 | the first of address, port, application and domain that is blocked is the reason |
| Rules.NewRuleIff | src/rule_manager.cpp:140-148 | one more rule, an address, a port, an application or a domain, blocks exactly what was blocked before and what that rule names |
| Rules.BlockedIffNamed | src/rule_manager.cpp:140-148 | whatever rules were given in whatever order: a packet is blocked if and only if one of them names its source address, its destination port, its known application, or its non-empty name, by itself or as the rest behind a leading star |
| Rules.ReasonGiven | src/rule_manager.cpp:140-148 | the reason is the first that applies of address, port, application and domain, with its text |
| Rules.NothingIsBlocked | src/rule_manager.cpp:140-148 | no rules block nothing |
| Rules.UnblockUndoesBlock | src/rule_manager.cpp:93-106 | unblocking undoes blocking a domain if and only if it was in neither collection before |
| Rules.UnblockLeaves | src/rule_manager.cpp:99-116 | after unblocking a domain exactly those names are blocked that another domain rule names |
| Rules.ErasedInOrder | src/rule_manager.cpp:102-105 | unblocking takes every copy of the name out of the patterns and keeps the others in their order |
| Rules.StarPatternIff | src/rule_manager.cpp:33-44 | a pattern with a star in front matches exactly the names that end in the rest of it |
| Rules.RuleBlocksWhatItMatches | src/rule_manager.cpp:93-116 | after blocking a domain exactly those names are blocked that were blocked before or that the rule matches |
| Rules.SubstringRuleIff | src/main.cpp:14 | a domain rule blocks as a substring match if and only if it is the lone star |
| RuleFile.RestoredIff | src/rule_manager.cpp:159-197 | loading what was saved restores all four collections and the pattern list, in any order of the sets, if and only if all names are non-empty and free of white space |
| RuleFile.LinesOfRendered | src/rule_manager.cpp:178 | the lines read are those that end in a line break, and one more if anything is left behind the last |
| RuleFile.LastBreakIsOptional | src/rule_manager.cpp:178-195 | a last line without a line break is loaded like one with it |
| RuleFile.LineIff | src/rule_manager.cpp:179-182 | any line at all: with two words or more and no hash in front it is the entry of its first two words, and otherwise nothing |
| RuleFile.TypedAddress | src/rule_manager.cpp:184 | an IP line blocks the address that the word parses to |
| RuleFile.TypedApp | src/rule_manager.cpp:185-192 | an APP line blocks the application of that name and does nothing if there is none |
| RuleFile.TypedDomain | src/rule_manager.cpp:193 | a DOMAIN line blocks the domain |
| RuleFile.TypedPorts | src/rule_manager.cpp:194 | a PORT line blocks the number modulo 2^16, negative ones as well, and throws if it does not fit 32 bits |
| RuleFile.LoadedUpTo | src/rule_manager.cpp:172-197 | after a throw the rules are those of all lines in front of the one that throws |
| RuleFile.ProtocolsByName | src/types.cpp:27-54 | Unknown and the protocols by the names the loader takes, and no other names |
| RuleFile.FirstAppsByName | src/types.cpp:27-54 | Google to Netflix by their names |
| RuleFile.MoreAppsByName | src/types.cpp:27-54 | Amazon to TikTok by their names |
| RuleFile.LastAppsByName | src/types.cpp:27-54 | Spotify to Cloudflare by their names |
| RuleFile.AppNamesDistinct | src/types.cpp:27-54 | different applications have different names |
| RuleFile.LoadSavedLine | src/rule_manager.cpp:159-197 | a saved line is loaded as the entry that was saved |
| RuleFile.SaveRules | src/rule_manager.cpp:159-170 | writes the lines of addresses, applications, domains with patterns, and ports, in some order of each set |
| RuleFile.LoadRules | src/rule_manager.cpp:172-197 | a missing file changes nothing; otherwise the rules are those of all lines, or of those before the first port that is no number, where loading throws |
| RuleFile.LoadEntryInto | src/rule_manager.cpp:182-194 | one line: comments, short lines and unknown words change nothing |
| RuleFile.FindAppLoop | src/rule_manager.cpp:186-191 | the loop finds the application of a name, if any |

## Left out

- Console banners, reports, percentages, status lines and the text of block reasons.
- `sni_extractions_` and `classification_hits_`: two statistics that nothing reads back.
- `QUICSNIExtractor` and `extractExtensions`: never called by the fast path, and the
  second is a stub.
- `GlobalConnectionTable`, `getAllConnections` and `forEach`: aggregation for reports.
- Command-line handling, and `queue_size` of the configuration, which nothing uses;
  queue capacities are parameters.
- Alignment, cache lines and raw pointers: an entry that the source holds by pointer
  between two calls is named by its key, and a null pointer is a key without an entry.
- The locks of `RuleManager` and of the output file: each method is one step. A missing
  rule manager is the same as no rules.
- Rule changes while packets are processed: the rules are fixed for a run.
- Real threads, file opening and clocks: steps, byte sequences with a cursor and
  parameters. `stop` is called by whoever has joined the reader, as `processFile` does.
- The scheduler: nothing says that a real one gives every thread its turns; runs on which
  it does are those that go through rounds.
- RealShutdown.HangIff: with packets dropped it asks for tables with room for the capture,
  for all flows to be kept when `stop` begins, and for a run that remembers them: what a
  forgotten flow is let through is that of a fresh one, which can be more or less, and a
  table without room may have no choice but to forget it.
  RealShutdown.AdmittedHangIff asks for none of this when nothing is dropped.
- RealShutdown.StopLeavesWholeIff: the same, and room for two jobs in the output queue and
  one balancer for each worker. The engine has both (10000, `Dispatch.OneFeederPerWorker`);
  with one slot the equivalence is false (`RealShutdown.OneSlotForcesWrite`).
- RealShutdown.StopLeavesAllIff: asks for room and for all flows to be kept, too.
- RealShutdown.RealStretchHangs: from the start, with packets dropped, one half only beyond
  short captures; that half and `PipelineHang.FewLetThroughNeverHang` meet for captures
  that fit into one balancer and one worker (`RealShutdown.ShortHangIff`).
- IP total length, fragments and TCP reassembly, which the code does not interpret, and
  MAC addresses as text.
- `DPIStats::total_bytes` in the pipeline; `Engine.ReadJobs` counts it.
- 64-bit counters and sizes: natural numbers. The `int` overflow and the wide shift that
  `parseIP` can run into on malformed text are taken modulo 2^32.
- `APP_COUNT` as an application: only the named applications exist.
- Locale: lower-casing is that of ASCII.
- A capture that cannot be opened: the reader then ends at once, and the model's input
  is empty.
