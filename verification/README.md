# LTE uplink MAC: verified model of the closed loop

This project models the uplink MAC simulator of one eNB and its UEs and proves what the closed loop between them
guarantees. TTI channels deliver every message four TTIs after it was sent; a barrier clock drives one worker thread for
each UE and one for the eNB; the scheduler, the UE and the eNB receiver each keep their own HARQ state and see only delayed
messages. The results hold for every number of UEs, every traffic, every interleaving of the threads, every ranking that the
PF and EPF metrics may produce and every tie-breaking of the priority sort, unless a condition is stated.

## How the pieces fit

| file | what it models |
|---|---|
| `CommonTypes`, `Arithmetic` | messages, BSR table and quantiser, redundancy versions, MCS thresholds |
| `TimedChannel` | one air-interface channel, its operations under interleaving, and exact-delay delivery |
| `TtiClock` | the barrier clock and its workers as a state machine |
| `TtiThreads`, `TtiDeterminism`, `TtiRuns` | the worker bodies as atomic steps; one TTI and whole runs equal sequential rounds |
| `ClockedThreads` | clock and bodies together: the clocked machine goes through exactly these runs |
| `UeHarq`, `EnbHarq` | the UE's HARQ process and the eNB's receive process |
| `Scheduler`, `SchedulerSafety`, `UlScheduler`, `CellSchedule` | link adaptation, PRB pool, PF, RR and EPF |
| `GrantSizing`, `SchedulerService`, `SchedulerEffects` | how large grants are, exactly who is granted, and what a TTI leaves in every context |
| `HarqLane`, `HarqLoop`, `HarqRuns`, `HarqBytes` | the three-party HARQ loop: invariant, deadline, byte ledger |
| `SecondReception` | when two receptions of a TB always suffice |
| `MacPdu`, `UeBsr`, `EnbBsr`, `SrManager`, `LcgBuffer` | PDU bytes, buffer status reporting, scheduling requests, prioritisation |
| `BsrContent`, `Prioritisation` | what a report says and when it is triggered; what each channel gets of a grant |
| `ClosedLoop`, `SystemRuns`, `RrFairness`, `LastPdu` | the worker bodies built from all of these, and what holds of every run of them |
| `ServiceRuns`, `RequestPath` | in every run: who is granted, and the way from data at the UE to a grant |

Each object that changes its fields step by step is a class whose methods are tied to functions on its state; the theorems
are about these functions and about runs of them. The thread theorems take the worker bodies as parameters
(`TtiThreads.Bodies`); `ClosedLoop.BodiesOf` is the instance built from the components, and `ClosedLoop.SystemIsInLoop`
shows that it meets every assumption of the loop theorems, so that `SystemRuns`, `RrFairness`, `ServiceRuns` and
`RequestPath` speak of that system.

The closed loop assumes what the simulator's scenarios set up: UE and eNB have the same, fixed transmission limit of at
least one, early termination is off, there are no temporary RNTIs or random access grants, and the set of UEs is fixed.

## Model

| member | source | states |
|---|---|---|
| `ClockedThreads.ClockedIsSequential` | include/ul_mac/tti_channel.h:15-19 | However workers and clock interleave, when the clocked machine has stopped every worker has run TTIs 0..max once each in order, and its UE, cell and channel state is that of the sequential rounds |
| `ClockedThreads.MachineCanMove` | include/ul_mac/tti_channel.h:159-209 | No deadlock: in every reachable state of clock, workers and bodies before the end, some thread can take a step |
| `TtiClocks.BarrierIsSafe` | include/ul_mac/tti_channel.h:159-229 | For any number of workers and any interleaving: each worker has run a prefix of the TTIs once each in order, workers in a body are all in the announced TTI, none is more than one TTI ahead, and the end flag is only up when none owes a TTI |
| `TtiClocks.BarrierTerminates` | src/main.cpp:82-98 | Every run of the barrier takes at most 4n(max+1)+2max+3 steps; it cannot be extended exactly when it has taken that many, exactly when all threads have stopped |
| `TtiClocks.StepInvAndRank` | include/ul_mac/tti_channel.h:167-209 | Every enabled step keeps the barrier invariant and uses up exactly one unit of the run measure |
| `TtiClocks.TtiClock.Announce` | include/ul_mac/tti_channel.h:169-174 | Announcing a TTI sets it and restarts the count of finished workers, and nothing else |
| `TtiClocks.TtiClock.MarkTtiDone` | include/ul_mac/tti_channel.h:203-209 | A worker's report raises the count by one |
| `TtiClocks.TtiClock.Finish` | include/ul_mac/tti_channel.h:184-188 | After the last TTI the counter moves past it and the end flag goes up |
| `TtiDeterminism.InterleavingIndependence` | src/main.cpp:382-469 | One TTI: under every interleaving of UE workers, eNB worker and per-PDU tasks the state at the end equals one sequential round |
| `TtiDeterminism.NeverStuck` | src/main.cpp:382-469 | No interleaving of a TTI's bodies gets stuck before the end of the TTI |
| `TtiRuns.RunsAreRounds` | include/ul_mac/tti_channel.h:151-158 | Many TTIs: whatever the interleaving in each, the state at the start of every TTI is that of the sequential rounds |
| `TtiRuns.RunsAgree` | include/ul_mac/tti_channel.h:151-158 | Two runs from the same start agree at the start of every TTI that both reach |
| `TimedChannels.ExactDelayFifo` | include/ul_mac/tti_channel.h:43-71 | On a channel drained every TTI, what is received in TTI t is what was sent in t-4, once and in order; everything later is still queued in order |
| `TimedChannels.InterleavingIsInvisible` | include/ul_mac/tti_channel.h:53-71 | However one TTI's pushes and pops interleave, the pops see exactly what was visible when the TTI began, in order, and the pushes end up behind it |
| `TimedChannels.HeadGatingIsPerMessage` | include/ul_mac/tti_channel.h:61-71 | With non-decreasing send times, looking only at the head gates every message by its own send time |
| `TimedChannels.TimedChannel.Enqueue` | include/ul_mac/tti_channel.h:53-56 | Appends the message with its send time |
| `TimedChannels.TimedChannel.Dequeue` | include/ul_mac/tti_channel.h:61-71 | Takes the head if and only if it is four TTIs old, and otherwise leaves the queue alone |
| `TimedChannels.TimedChannel.Drain` | src/main.cpp:238-240 | The receive loop takes exactly the visible prefix, in order |
| `SystemRuns.SystemIsClocked` | src/main.cpp:382-469 | Every complete run of clock and workers of a new system is a run in the sense of the theorems below |
| `SystemRuns.SystemRunsAgree` | include/ul_mac/tti_channel.h:15-19 | Two runs of the same new system have the same state at the start of every TTI that both reach |
| `SystemRuns.SystemAgrees` | src/main.cpp:235-318 | Three-party HARQ agreement in every state of every run, for every process of every UE: due grants and PDUs are understood as the scheduler meant them, one message is in flight exactly when the process is busy without a retransmission pending, and the receiver's counters add up |
| `HarqLane.GrantIsUnderstood` | src/ue_ul_harq_manager.cpp:155-268 | A due grant is classed new exactly when it is not a retransmission; a new TB finds the process inactive and a retransmission finds it pending; the k-th transmission is counted k, is at most the limit, and carries RV {0,2,3,1}[(k-1) mod 4] |
| `UeHarq.RvCycle` | src/ue_ul_harq_manager.cpp:207-268 | A new TB and its retransmissions go through redundancy versions 0, 2, 3, 1 and around |
| `UeHarq.ExplicitRvContinues` | src/ue_ul_harq_manager.cpp:231-268 | A retransmission grant that names a redundancy version gets it, and the next one continues from it |
| `UeHarq.RefusedUntilGivenUp` | src/ue_ul_harq_manager.cpp:60-88 | A TB that is always refused is sent exactly up to its limit, Msg3 having its own, or under early termination from the second transmission on until three refusals in a row; the discard hands back its bytes |
| `HarqLane.PduIsUnderstood` | src/enb_ul_harq_manager.cpp:66-173 | A due PDU is classed new exactly when it is not a retransmission; the receiver's count is the UE's; both give the TB up together, exactly on a failure at the limit, and with the same size |
| `HarqLane.LaneInvKept` | src/enb_ul_scheduler.cpp:104-121 | Every TTI keeps the invariant of one process, whatever the scheduler issues and whatever the receiver's SNR |
| `HarqLane.SingleToken` | src/enb_ul_scheduler.cpp:233-301 | Between TTIs a process is busy without a pending retransmission exactly when one grant or PDU is in flight for it; a retransmission is pending only on a busy process with a recorded TB |
| `HarqLane.TbReceived` | src/enb_ul_harq_manager.cpp:133-171 | One reception: receiver and UE count alike and keep or give up the TB together |
| `HarqLoop.LinkInvKept` | src/main.cpp:235-318 | Every TTI keeps the invariant of a whole link: all eight processes, the queues, the buffer total, the receiver's accounts |
| `HarqLoop.LinkIsClosed` | src/enb_ul_scheduler.cpp:233-276 | In the loop a pending retransmission is busy with a valid TB, so the scheduler's drop guard changes nothing |
| `HarqLoop.ReceptionIsAccounted` | src/enb_ul_harq_manager.cpp:66-173 | Receptions = ACKs + NACKs = new TBs + combinations, and new TBs = ACKs + discards + TBs awaiting retransmission, is kept by every reception |
| `HarqRuns.ThreadsKeepInv` | src/main.cpp:382-469 | In every threaded run from a fresh start every link satisfies the loop invariant at the start of every TTI |
| `HarqRuns.RetransmissionIsPrompt` | src/enb_ul_scheduler.cpp:233-276 | With one UE, a process left pending by one TTI is granted its retransmission in the next |
| `HarqRuns.TbDeadline` | src/enb_ul_scheduler.cpp:233-276 | With one UE, a TB is granted exactly every nine TTIs until it is acknowledged or discarded in the eighth TTI after its last grant, with at most max-k grants after k receptions; this is inside the bound 16(max-1)+8 |
| `HarqRuns.ThreadsMeetDeadline` | src/main.cpp:235-318 | The same deadline for every threaded run |
| `SystemRuns.SystemMeetsDeadline` | src/main.cpp:235-318 | The deadline for every grant in every run of a new system with one UE, under each of the three algorithms |
| `HarqBytes.ThreadsLoseNoByte` | include/ul_mac/ue_context.h:282-308 | In every threaded run the ledger of a UE covers what it had buffered and what has arrived: buffered bytes, bytes taken by unresolved TBs, bytes taken by acknowledged TBs |
| `SystemRuns.SystemLosesNothing` | include/ul_mac/ue_context.h:227-308 | The same inequality for every run of a new system, with the bytes of its real buffers; it is an inequality because a discard gives back the whole TBS |
| `SecondReception.TwoReceptionsSuffice` | src/enb_ul_harq_manager.cpp:45-54 | With a receiver no worse than the scheduler believes and no CQI, any TB is acknowledged within two receptions |
| `SecondReception.ThreadsNeverDiscard` | src/enb_ul_harq_manager.cpp:133-171 | In every threaded run from such a start no TB is discarded and none is received more than twice |
| `SystemRuns.SystemNeverDiscards` | src/enb_ul_scheduler.cpp:151-161 | New system, receivers at 2 dB or better, limit at least two: nothing is ever discarded and every second reception succeeds |
| `EnbHarq.SoftCombiningClosedForm` | src/enb_ul_harq_manager.cpp:45-173 | At a fixed SNR a TB is received exactly min(k*, max) times, k* being the least k with snr+200(k-1) at the threshold, and ends acknowledged exactly when k* <= max |
| `EnbHarq.Needed` | src/enb_ul_harq_manager.cpp:50-54 | The k* of the closed form: a reception count decodes if and only if it is at least k* |
| `EnbHarq.DecodesExactly` | src/enb_ul_harq_manager.cpp:45-54 | One reception in numbers: it decodes exactly when snr + 2 dB per earlier reception of the TB reaches the threshold of min(mcs, 28) + 1 dB, and discards exactly when it fails at the limit |
| `EnbHarq.EnbUlHarqManager.ReceiveTb` | src/enb_ul_harq_manager.cpp:66-173 | One reception: process record, per-UE and total counters and the result; unknown UEs and processes change nothing |
| `EnbHarq.EnbUlHarqManager.HasRetxPending` | src/enb_ul_harq_manager.cpp:182-190 | True exactly when some process of a known UE awaits a retransmission |
| `EnbHarq.EnbUlHarqManager.AddUe` | src/enb_ul_harq_manager.cpp:26-31 | A new UE gets idle processes; a known one is left alone |
| `EnbHarq.EnbUlHarqManager.SetUlSnr` | src/enb_ul_harq_manager.cpp:38-43 | Sets the SNR of a known UE and nothing else |
| `UeHarq.UlHarqProcess.ApplyPhichFeedback` | src/ue_ul_harq_manager.cpp:35-88 | Effect of an ACK or NACK on the process, including the discard at the limit |
| `UeHarq.UlHarqProcess.ResetProcess` | src/ue_ul_harq_manager.cpp:95-106 | What a reset clears |
| `UeHarq.UlHarqProcess.GetState` | src/ue_ul_harq_manager.cpp:113-120 | The state seen from outside, decided by three flags |
| `UeHarq.UlHarqProcess.NewGrantUl` | src/ue_ul_harq_manager.cpp:155-205 | New transmission, retransmission or nothing, with the whole new process record |
| `UeHarq.UlHarqProcess.GenerateNewTx` | src/ue_ul_harq_manager.cpp:207-229 | A new TB: NDI, size and counters of the process |
| `UeHarq.UlHarqProcess.GenerateRetx` | src/ue_ul_harq_manager.cpp:231-251 | A retransmission: size and redundancy version from the grant, feedback flags cleared |
| `UeHarq.UlHarqProcess.GenerateTx` | src/ue_ul_harq_manager.cpp:253-268 | A transmission counts up, uses the explicit RV once or else the IRV counter, which then advances |
| `SchedulerSafety.PrbAllocIsFirstFit` | src/enb_ul_scheduler.cpp:207-223 | The allocator returns the least start of a free run and marks exactly that run; it fails, leaving the pool alone, exactly when n is 0, exceeds the pool or no run is free |
| `UlSchedulers.UlScheduler.AllocatePrbs` | src/enb_ul_scheduler.cpp:207-223 | The in-place counting loop computes exactly that first fit |
| `UlSchedulers.UlScheduler.PrbReset` | src/enb_ul_scheduler.cpp:225-227 | Frees the whole pool |
| `SchedulerSafety.PfIsSound` | src/enb_ul_scheduler.cpp:419-474 | PF under any ranking: grants are disjoint, inside the pool, one per RNTI, and mark exactly the busy PRBs; retransmissions replay the recorded TB; NDI flips for exactly the processes given a new TB |
| `SchedulerSafety.RrIsSound` | src/enb_ul_scheduler.cpp:476-518 | The same for RR at any offset |
| `SchedulerSafety.EpfIsSound` | src/enb_ul_scheduler.cpp:621-747 | The same for EPF, with its starvation guard before the metric phase |
| `SchedulerService.PfServes` | src/enb_ul_scheduler.cpp:419-474 | PF under any ranking: a ranked UE gets a new TB if and only if it has no retransmission in this TTI, has data or a scheduling request waiting and an idle process, and min(PRBs needed, carrier) adjacent PRBs are free beside the retransmissions and the UEs ranked before it; nobody else gets one |
| `SchedulerService.RrServes` | src/enb_ul_scheduler.cpp:476-518 | The same for RR at any offset, in the order of the rotation |
| `SchedulerService.EpfServes` | src/enb_ul_scheduler.cpp:621-747 | EPF under any ranking: the same for each of its two phases; the guard serves exactly the UEs that have gone more than starve_tti TTIs without a grant, counting this one, with at most the reserved share, and the metric phase everybody still without a grant |
| `SchedulerService.RetxServes` | src/enb_ul_scheduler.cpp:233-276 | A UE is granted the retransmission of process p if and only if p is pending and its recorded PRBs are free beside those of the UEs before it, and no lower process of the UE is so |
| `SchedulerService.PfHeadIsServed` | src/enb_ul_scheduler.cpp:435-474 | PF: the first ranked UE with demand and an idle process gets a new TB in every TTI without retransmissions |
| `SchedulerService.StarvingIsServed` | src/enb_ul_scheduler.cpp:654-717 | EPF: the first ranked UE among those starving with demand and an idle process gets a new TB in every TTI without retransmissions, whatever the metrics |
| `ServiceRuns.PfServesInRun` | src/enb_ul_scheduler.cpp:419-474 | In every run under PF, exactly these UEs are granted in every TTI |
| `ServiceRuns.StarvingIsServedInRun` | src/enb_ul_scheduler.cpp:654-717 | In every run under EPF, the first ranked overdue UE is served in every TTI without retransmissions |
| `SchedulerEffects.TtiSettles` | src/enb_ul_scheduler.cpp:278-290 | Every TTI of every algorithm: a new TB clears the UE's SR flag and lowers its total by exactly min(tbs, total), an LCG losing bytes only once those before it are empty; a retransmission leaves both alone; every context without a grant is untouched but for EPF's counter |
| `SchedulerEffects.CounterCountsTtis` | src/enb_ul_scheduler.cpp:627-630 | EPF's counter is zero after a grant and one more after every other TTI |
| `SchedulerEffects.DeadAreReleased` | src/enb_ul_scheduler.cpp:233-276 | Pending processes without a recorded TB are released, all or those below the process granted; other processes keep their place |
| `SchedulerSafety.SoundCloses` | src/enb_ul_scheduler.cpp:233-294 | After such a TTI every pending retransmission is again busy with a valid TB, and totals equal LCG sums |
| `UlSchedulers.UlScheduler.ScheduleUl` | src/enb_ul_scheduler.cpp:385-417 | The imperative scheduler has these properties for each of the three algorithms |
| `UlSchedulers.UlScheduler.SchedulePf` | src/enb_ul_scheduler.cpp:419-474 | The imperative PF scheduler leaves the PRBs, contexts and grants of the PF phases, of which PfServes says exactly whom they grant and PfIsSound and TtiSettles what else they do |
| `UlSchedulers.UlScheduler.ScheduleRr` | src/enb_ul_scheduler.cpp:476-518 | PRBs, contexts and grants are those of the RR phases; the offset moves by one, modulo 2^32, when there are UEs |
| `UlSchedulers.UlScheduler.ScheduleEpf` | src/enb_ul_scheduler.cpp:621-747 | PRBs, contexts and grants are those of ageing, retransmissions, starvation guard and metric phase |
| `UlSchedulers.UlScheduler.ScheduleRetxFirst` | src/enb_ul_scheduler.cpp:233-276 | Retransmissions first, each UE's lowest servable process, dropping pending processes without a TB |
| `UlSchedulers.UlScheduler.PickRetx` | src/enb_ul_scheduler.cpp:237-274 | One UE's search through its processes, with the PRBs it takes |
| `UlSchedulers.UlScheduler.GenerateRetxGrant` | src/enb_ul_scheduler.cpp:303-334 | A retransmission grant replays tbs, mcs, PRB count and NDI, or none is made |
| `UlSchedulers.UlScheduler.GenerateNewGrant` | src/enb_ul_scheduler.cpp:335-370 | A new grant records the TB and toggles the NDI exactly when its PRBs fit |
| `UlSchedulers.UlScheduler.CommitNewGrant` | src/enb_ul_scheduler.cpp:278-290 | Takes the process, clears the SR flag and lowers the buffer estimates |
| `UlSchedulers.UlScheduler.AllocFreePid` | src/enb_ul_scheduler.cpp:296-301 | The lowest idle process, or none |
| `UlSchedulers.UlScheduler.DeductUlBuffer` | src/enb_ul_scheduler.cpp:372-383 | The deduction loop takes from LCG 0 upwards and keeps the total equal to the sum |
| `Scheduler.DeductionIsExact` | src/enb_ul_scheduler.cpp:372-383 | A grant lowers the total estimate by exactly min(tbs, total) |
| `Scheduler.DeductionIsInOrder` | src/enb_ul_scheduler.cpp:372-383 | An LCG's estimate falls only once those of all LCGs before it are zero |
| `SchedulerEffects.SrRaises` | src/enb_ul_scheduler.cpp:43-70 | A scheduling request sets the flag and makes each LCG estimate the larger of the old one and the reported bytes; HARQ, quality and counter stay |
| `SchedulerEffects.BsrSets` | src/enb_ul_scheduler.cpp:72-86 | A BSR index makes one LCG estimate its level and the total the sum; everything else stays |
| `UlSchedulers.UlScheduler.HandleSr` | src/enb_ul_scheduler.cpp:43-70 | Raises each LCG estimate to the reported bytes; the total is recomputed only if one changed |
| `UlSchedulers.UlScheduler.HandleBsr` | src/enb_ul_scheduler.cpp:72-86 | Sets one LCG estimate to the decoded level and recomputes the total |
| `UlSchedulers.UlScheduler.HandleCqi` | src/enb_ul_scheduler.cpp:96-102 | Records a CQI of at most 15 for a known UE |
| `UlSchedulers.UlScheduler.HandleUlCrc` | src/enb_ul_scheduler.cpp:104-121 | Success releases the process and its TB; failure marks it pending and busy |
| `UlSchedulers.UlScheduler.AddUe` | src/enb_ul_scheduler.cpp:29-36 | A new UE gets a fresh context and its place in RNTI order; a known one is left alone |
| `UlSchedulers.UlScheduler.CalculateMcs` | src/enb_ul_scheduler.cpp:151-161 | The search from MCS 28 downwards |
| `Scheduler.McsIsHighestSupported` | src/enb_ul_scheduler.cpp:151-161 | The selected MCS is the highest whose threshold the SNR meets |
| `Scheduler.McsChoice` | src/enb_ul_scheduler.cpp:151-170 | A CQI of 1 to 15 gives MCS 2 CQI - 2; without a CQI the MCS is the highest of 0 to 28 whose threshold the SNR meets, or 0 |
| `UlSchedulers.UlScheduler.InterpolateBits` | src/enb_ul_scheduler.cpp:172-201 | The anchor search and interpolation |
| `Scheduler.TbsClosedForm` | src/enb_ul_scheduler.cpp:138-201 | The TBS of every MCS and PRB count in numbers: 16, 64, 120, 176, 272 and 456 bits per PRB at MCS 0, 5, 10, 15, 20 and 28, the floor of the linear interpolation between neighbours, 456 from 28 up, times the PRBs, in whole bytes |
| `Scheduler.TbsMonotone` | src/enb_ul_scheduler.cpp:172-201 | A better MCS or more PRBs never shrink the TBS whose value TbsClosedForm gives, and one PRB already carries two bytes |
| `GrantSizing.PrbsAreLeast` | src/enb_ul_scheduler.cpp:341-350 | The PRBs asked for are the least number n with n times the bytes of one PRB at least the demand, which is 100 bytes when only a scheduling request is known |
| `GrantSizing.GrantsCoverDemand` | src/enb_ul_scheduler.cpp:341-370 | Every new grant of a TTI of any algorithm uses the MCS of the UE's quality, is at least min(demand, the whole carrier at this MCS) and has no PRB more than the demand needs; a UE starving under EPF is owed min(demand, the reserved share) |
| `CellSchedule.KindIsInGrant` | src/enb_ul_scheduler.cpp:303-370 | `is_retx` is exactly what the grant's redundancy version says |
| `CellSchedule.LoneRetransmission` | src/enb_ul_scheduler.cpp:233-276 | A lone UE with retransmissions pending gets its lowest one, and nothing else, in this TTI, under each algorithm |
| `RrFairness.EachComesFirstOnce` | src/enb_ul_scheduler.cpp:488-516 | In every run under round robin, in any fair window of one TTI per UE, every UE heads the order in exactly one of them |
| `RrFairness.FirstIsGranted` | src/enb_ul_scheduler.cpp:476-518 | In every run, the head gets the TTI's first grant when it has demand and a free process and no retransmission is issued |
| `RrFairness.NewSystemRotates` | src/enb_ul_scheduler.cpp:493-516 | Every run of a new system under round robin is such a run |
| `SchedulerSafety.EachHeadsExactlyOnce` | src/enb_ul_scheduler.cpp:493-516 | A fair window of the 32-bit offset visits every position exactly once |
| `SchedulerSafety.WrapRepeatsAHead` | src/enb_ul_scheduler.cpp:493-516 | In every other window some position comes twice; with three UEs the first one heads two TTIs running at the wrap |
| `MacPdu.PduRoundTrip` | src/mac_pdu.cpp:103-250 | Whatever the buffer held: unpacking a packed PDU gives the BSR, the carried SDUs and the padding when every carried SDU has at most 127 bytes, and the SDU list is right only then |
| `MacPdu.BsrRoundTrip` | src/mac_pdu.cpp:28-83 | Every BSR with fields in range decodes to what the receiver should see: four LCGs for a Long BSR, zero if unreported |
| `MacPdu.PackStaysInGrant` | src/mac_pdu.cpp:103-184 | Nothing behind the grant is written |
| `MacPdu.CarriedIsPrefix` | src/mac_pdu.cpp:143-157 | What is carried is a prefix of what was offered, only the last SDU possibly cut |
| `MacPdu.CarriedIsMaximal` | src/mac_pdu.cpp:143-157 | As much is carried as fits: packing stops early only at an LCID above 10 or with fewer than three bytes left, and an SDU is cut only when the grant is then full |
| `MacPdu.EndIsExact` | src/mac_pdu.cpp:103-184 | The grant is the CE, two octets and the bytes of each carried SDU, and padding |
| `MacPdu.Pack` | src/mac_pdu.cpp:103-184 | The packer's bytes and counts; it fills the grant exactly |
| `MacPdu.WriteSdus` | src/mac_pdu.cpp:143-157 | The SDU loop computes the rest of the PDU, its end and the carried byte count |
| `MacPdu.Unpack` | src/mac_pdu.cpp:194-250 | The parser on any bytes: in bounds, terminating, consuming no more than the length, with the parsed result |
| `MacPdu.ParsedFit` | src/mac_pdu.cpp:194-250 | Of any bytes whatever, the SDUs found lie one after the other inside the buffer, on LCIDs up to 10 and shorter than 128 bytes |
| `EnbBsr.LongBsrCoversDemand` | src/main.cpp:156-174 | A Long BSR for any LCG sizes, packed, unpacked, decoded and forwarded: each non-empty LCG's estimate becomes the decoded size, at least min(bytes, 150000); an empty LCG keeps its old estimate |
| `EnbBsr.ShortBsrCoversDemand` | src/main.cpp:156-174 | The same for the one LCG of a Short or Truncated BSR |
| `EnbBsr.EnbBsrManager.ReceiveBsr` | src/enb_bsr_manager.cpp:27-89 | The new view, and each accepted BSR counted once under its format |
| `EnbBsr.EnbBsrManager.GetUlBuffer` | src/enb_bsr_manager.cpp:91-96 | The view of an LCG, zero for an unknown UE or LCG |
| `EnbBsr.EnbBsrManager.AddUe` | src/enb_bsr_manager.cpp:15-20 | A new UE starts with an empty view |
| `CommonTypes.QuantiserIsLeastCovering` | include/ul_mac/common_types.h:370-408 | The quantiser picks the least level that covers the bytes, and level 63 exactly when none does |
| `CommonTypes.DecodedCoversDemand` | include/ul_mac/common_types.h:370-408 | The decoded level covers min(bytes, 150000) and is zero only for zero |
| `CommonTypes.RequantisingKeepsBytes` | include/ul_mac/common_types.h:370-408 | Requantising a decoded level keeps its bytes, although level 63 comes back as 62 |
| `CommonTypes.SearchBsrIndex` | include/ul_mac/common_types.h:400-408 | The quantiser's search loop |
| `UeBsr.GeneratedFits` | src/ue_bsr_manager.cpp:223-316 | A generated BSR has fields in range, and one with reports always fits the packer |
| `UeBsr.BsrForGrantFits` | include/ul_mac/ue_context.h:170-217 | Whatever BSR goes with a grant fits it, so the packer's refusal is unreachable |
| `UeBsr.BuildLongBsr` | include/ul_mac/common_types.h:415-424 | One report for each non-empty LCG, in order |
| `UeBsr.BsrManager.GenerateBsr` | src/ue_bsr_manager.cpp:223-316 | The object computes the report of the format rules below, with its timer and trigger; OneLcgReported and ReportIsComplete say what that report tells of the channels |
| `BsrContent.FormatIsDecided` | src/ue_bsr_manager.cpp:179-250 | A report needs two bytes; it is Long exactly when four are there and several LCGs have data or it is padding, otherwise Truncated exactly when several LCGs have data, otherwise Short |
| `BsrContent.OneLcgReported` | src/ue_bsr_manager.cpp:260-283 | A Short or Truncated BSR names the LCG of a channel that has data and that no channel with data beats in priority, with the quantised sum of this LCG's bytes, if some channel with data has a priority below 2^32 - 1 |
| `BsrContent.OneLcgHoldsData` | src/ue_bsr_manager.cpp:260-283 | The exact condition for the named LCG to hold data, with priorities of 2^32 - 1 included |
| `BsrContent.ReportIsComplete` | src/ue_bsr_manager.cpp:255-290 | Every report gives the bytes its LCG holds, and every BSR but a Truncated one reports all LCGs with data |
| `BsrContent.ReportSettles` | src/ue_bsr_manager.cpp:292-305 | A Truncated BSR keeps trigger and timer; every other clears the trigger and restarts the periodic timer |
| `BsrContent.OwnReportCovers` | src/main.cpp:156-174 | The UE's own report, generated for its channels, packed, unpacked and forwarded, leaves the scheduler with at least min(bytes, 150000) for every LCG reported, and for every LCG unless it is Truncated |
| `UeBsr.BsrManager.NeedToSendBsrOnUlGrant` | src/ue_bsr_manager.cpp:318-364 | A pending trigger is dropped when the grant holds everything and reported otherwise |
| `UeBsr.BsrManager.GeneratePaddingBsr` | src/ue_bsr_manager.cpp:366-396 | A padding report when at least two bytes are left |
| `UeBsr.BsrManager.SetTrigger` | src/ue_bsr_manager.cpp:76-92 | A Regular trigger starts a scheduling request unless a grant is at hand |
| `UeBsr.BsrManager.HandleTimerExpiry` | src/ue_bsr_manager.cpp:125-149 | Periodic and retransmission timers |
| `UeBsr.BsrManager.Step` | src/ue_bsr_manager.cpp:151-177 | One TTI of triggers and timers, and whether it asks for a scheduling request |
| `BsrContent.ArrivalTriggers` | src/ue_bsr_manager.cpp:94-123 | Arriving data triggers a Regular BSR if and only if its LCG was empty or its channel beats every channel with data (or the retransmission timer runs out), and asks for a scheduling request exactly when no grant is at hand then |
| `BsrContent.StepTriggers` | src/ue_bsr_manager.cpp:151-177 | What every TTI leaves triggered, from arrivals and timers |
| `BsrContent.PeriodicFires` | src/ue_bsr_manager.cpp:125-149 | The periodic timer raises a BSR when it has counted down and not before |
| `BsrContent.RetxFires` | src/ue_bsr_manager.cpp:125-149 | The retransmission timer raises a Regular BSR over data when it has counted down and not before |
| `BsrContent.SentAgain` | src/ue_bsr_manager.cpp:398-410 | A report that leaves data behind is followed by a Regular BSR exactly retxBSR-Timer TTIs later |
| `BsrContent.GrantReports` | src/ue_bsr_manager.cpp:318-364 | A grant carries a BSR if and only if a Regular or Periodic one is triggered and the grant has two bytes but less than the bound; it drops the trigger if and only if it reaches the bound |
| `BsrContent.UpperBoundCovers` | include/ul_mac/lcg_buffer.h:117-127 | The bound is at least what is buffered, and equal to it when nothing has shrunk since the snapshot |
| `BsrContent.PaddingReports` | src/ue_bsr_manager.cpp:366-396 | Padding carries a report if and only if it has two bytes, a Long one from four on when nothing was triggered |
| `UeBsr.BsrManager.UpdateBsrTtiEnd` | src/ue_bsr_manager.cpp:398-410 | A BSR that was sent restarts its retransmission timer |
| `SrManager.SrBound` | src/ue_sr_manager.cpp:78-253 | Over every run: at most dsr-TransMax requests per procedure, at least max(period, prohibit timer) TTIs apart even across the 10240 wrap, and every procedure begun has succeeded, failed, been ended by a grant before its first request, or is pending |
| `SrManager.StepDecides` | src/ue_sr_manager.cpp:122-233 | A pending procedure sends in a TTI if and only if the prohibit timer has run out, the period has passed since its last request (the first need not wait) and fewer than dsr-TransMax were sent; it fails if and only if all were sent and the period has passed, or SR is off |
| `SrManager.WithoutGrant` | src/ue_sr_manager.cpp:122-233 | A procedure without a grant sends its first request in the first TTI whose prohibit timer has run out, then one every max(1, period, prohibit timer) TTIs, exactly dsr-TransMax in all, and fails max(1, period) TTIs after the last |
| `SrManager.PeriodTooLong` | src/ue_sr_manager.cpp:97-120 | On a clock modulo 10240, with a period of 10240 or more, a procedure sends once and then neither sends nor fails |
| `SrManager.BeginsWhenAsked` | src/ue_sr_manager.cpp:78-95 | A procedure begins if and only if SR is configured and none is pending |
| `SrManager.IntervalIsSafe` | src/ue_sr_manager.cpp:97-120 | The interval the manager computes is exactly the time that has passed, modulo 10240 on the wrapping clock, and so never more |
| `SrManager.SrManager.Step` | src/ue_sr_manager.cpp:122-233 | The object does in one TTI what StepDecides says of a pending procedure, and nothing without one |
| `SrManager.SrManager.Start` | src/ue_sr_manager.cpp:78-95 | A procedure starts from idle only |
| `SrManager.SrManager.CanSendSr` | src/ue_sr_manager.cpp:97-120 | Whether the period has passed since the last request |
| `SrManager.SrManager.NotifyUlGrantReceived` | src/ue_sr_manager.cpp:235-253 | A grant ends the procedure, as a success if a request was sent |
| `SrManager.SrManager.TakeSrTransmitted` | src/ue_sr_manager.cpp:255-260 | Reads and clears the transmitted flag |
| `LcgBuffer.ConsumptionIsExact` | include/ul_mac/lcg_buffer.h:227-272 | A grant removes exactly min(bytes, buffered), for every order the sort may produce |
| `LcgBuffer.SecondPhaseIsStrict` | include/ul_mac/lcg_buffer.h:227-272 | In the second phase a channel gets bytes only once every channel ahead of it is empty |
| `Prioritisation.GuaranteedShare` | include/ul_mac/lcg_buffer.h:245-261 | Of any grant, a channel with a prioritised bit rate loses at least min(tokens, buffered, what the same minima of the channels ahead of it leave of the grant), and its tokens fall by exactly that |
| `Prioritisation.NobodyStarves` | include/ul_mac/lcg_buffer.h:227-272 | When the grant holds the sum of min(tokens, buffered) over the channels with a prioritised bit rate, each of them gets at least its own, however low its priority |
| `Prioritisation.RestIsStrict` | include/ul_mac/lcg_buffer.h:227-272 | Beyond its guarantee a channel gets bytes only when every channel ahead of it has been emptied |
| `Prioritisation.FirstPhaseIs` | include/ul_mac/lcg_buffer.h:245-261 | What the first pass takes from each channel, in closed form |
| `Prioritisation.SecondPhaseIs` | include/ul_mac/lcg_buffer.h:263-271 | What the second pass takes from each channel, in closed form |
| `Prioritisation.TwoShareTheGrant` | tests/test_main.cpp:163-199 | Two channels of 1000 bytes and a grant of 20: 980 and 1000 are left without tokens, 990 and 990 with ten tokens each |
| `Prioritisation.BucketFills` | include/ul_mac/lcg_buffer.h:329-340 | Refills alone bring a bucket to exactly min(tokens + rate times time, size), however the time is cut up |
| `LcgBuffer.GuaranteedRate` | include/ul_mac/lcg_buffer.h:227-272 | Over any run, a channel's first-phase bytes are at most its starting tokens plus rate times time refilled, and its bucket never overflows |
| `LcgBuffer.RestoringAdds` | include/ul_mac/lcg_buffer.h:280-294 | A discard puts the whole TB size back |
| `Prioritisation.RestoredIs` | include/ul_mac/lcg_buffer.h:280-294 | The restored bytes go to the first channel of the best priority and no other channel changes |
| `Prioritisation.ConfiguredIs` | include/ul_mac/lcg_buffer.h:42-54 | Configuring a channel adds or replaces it and keeps all others |
| `LcgBuffer.ArrivalsAdd` | include/ul_mac/lcg_buffer.h:76-85 | Arrivals raise the total by their bytes exactly when the channel is configured |
| `LcgBuffer.LcgBufferManager.ConsumeData` | include/ul_mac/lcg_buffer.h:227-272 | Both passes over the sorted channels |
| `LcgBuffer.LcgBufferManager.TakeGuaranteed` | include/ul_mac/lcg_buffer.h:245-261 | The loop of the first pass, whose effect on every channel FirstPhaseIs and GuaranteedShare state |
| `LcgBuffer.LcgBufferManager.TakeGreedily` | include/ul_mac/lcg_buffer.h:263-271 | The second pass, until the grant is used up |
| `LcgBuffer.LcgBufferManager.RestoreData` | include/ul_mac/lcg_buffer.h:280-294 | The restored bytes go to the first channel of the best priority |
| `LcgBuffer.LcgBufferManager.StepTokenBuckets` | include/ul_mac/lcg_buffer.h:329-340 | Every bucket is refilled up to its size |
| `LcgBuffer.LcgBufferManager.UpdateBufferState` | include/ul_mac/lcg_buffer.h:76-85 | Arriving bytes go to the first channel with the LCID |
| `LcgBuffer.LcgBufferManager.UpdateOldBuffer` | include/ul_mac/lcg_buffer.h:135-142 | The snapshot of all buffers |
| `LcgBuffer.LcgBufferManager.SetupLcid` | include/ul_mac/lcg_buffer.h:42-54 | Configures a channel in its place, with an empty bucket; an LCG out of range is ignored |
| `ClosedLoop.SystemIsInLoop` | src/main.cpp:382-469 | The bodies built from all components meet every assumption of the loop theorems |
| `ClosedLoop.AnswerIsFaithful` | include/ul_mac/ue_context.h:170-272 | Answering a grant changes the HARQ processes as the loop assumes and takes exactly min(TBS, buffered) for a new TB |
| `ClosedLoop.FeedbackIsFaithful` | include/ul_mac/ue_context.h:282-308 | Feedback changes the HARQ processes as the loop assumes and puts back the TBS of a discarded TB |
| `ClosedLoop.SystemKeepsInv` | src/main.cpp:382-469 | In every run of a new system every link satisfies the loop invariant at the start of every TTI |
| `RequestPath.RequestIsHeard` | src/main.cpp:235-300 | In every run: data that arrives alone in a TTI for an empty LCG, or on a channel that beats all with data, at a UE with no grant and free to send a request, reaches the scheduler exactly four TTIs later: the SR flag is up and the LCG's estimate covers the data |
| `RequestPath.RequestIsAnswered` | src/main.cpp:235-300 | Under PF the UE then gets a new TB in that TTI, if it has an idle process, nobody ranked before it is ready and nothing is retransmitted |
| `RequestPath.NoFlagAtStart` | src/main.cpp:252-285 | In every run the flag that a grant is at hand is down at the start of every TTI |
| `RequestPath.AnswerReports` | include/ul_mac/ue_context.h:170-225 | A new transmission too small for what is buffered carries the triggered BSR: once its PDU is handled the scheduler's estimates cover every LCG, unless the grant has under four bytes and several LCGs have data |
| `RequestPath.RunFillsBuckets` | include/ul_mac/ue_context.h:128-151 | One TTI fills each bucket by its rate up to its size, leaves the buffers, and sends no request from idle while a grant is at hand |
| `LastPdu.RetransmissionCarries` | include/ul_mac/ue_context.h:192-225 | A retransmission carries its TB's first PDU if and only if no other new TB was started in between or the last one was packed into the same bytes |
| `LastPdu.AnotherTbsPdu` | include/ul_mac/ue_context.h:192-225 | With two processes in flight a retransmission carries another TB's PDU: a concrete run |

## Findings

Six properties the code or its documentation promises do not hold of the code; each has its exact condition.

- Round robin is fair over a window of one TTI per UE if and only if the 32-bit offset does not wrap inside the window or
  the number of UEs divides 2^32 (`SchedulerSafety.EachHeadsExactlyOnce`, `SchedulerSafety.WrapRepeatsAHead`,
  src/enb_ul_scheduler.cpp:493-516).
- A MAC PDU gives its SDUs back if and only if every carried SDU has at most 127 bytes, because the length field has seven
  bits (`MacPdu.PduRoundTrip`, src/mac_pdu.cpp:153).
- A retransmission repeats the PDU of its own TB if and only if no other new TB was started in between, on any process, or
  the last one was packed into the same bytes: the UE keeps one last PDU for all its processes (`LastPdu.RetransmissionCarries`,
  `LastPdu.AnotherTbsPdu`, include/ul_mac/ue_context.h:192-225).
- The eNB's estimate equals the decoded report only for LCGs that are not empty: a zero is not forwarded and the old
  estimate stays (`EnbBsr.LongBsrCoversDemand`, src/main.cpp:167-173).
- A Short or Truncated BSR names an LCG with data if and only if there is data and it is all in one LCG, or some of it has a
  priority below 2^32 - 1, or LCG 0 has some: the search for the best priority starts at 2^32 - 1 and at LCG 0
  (`BsrContent.OneLcgHoldsData`, include/ul_mac/lcg_buffer.h:203-218).
- Without a grant a scheduling request procedure fails after dsr-TransMax requests on any clock that does not wrap, and on the
  clock modulo 10240 when period and prohibit timer are below 10240 (`SrManager.WithoutGrant`); with a period of 10240 or
  more it hangs there after its first request (`SrManager.PeriodTooLong`, src/ue_sr_manager.cpp:97-120).

Where code and documentation disagree the model follows the code. The quantiser rounds up and reaches 150000 bytes, although
README.md:198-200 and src/enb_bsr_manager.cpp:57-58 speak of rounding down. PDU subheaders and payloads alternate, which is
not the layout of section 6.1.2 of TS 36.321. The packer counts the padding subheader as padding and the parser does not
(src/mac_pdu.cpp:167, src/mac_pdu.cpp:210).

## Left out

- Widths of 32 bits: TTI numbers, byte counts and PRB sums are unbounded, except the round-robin offset, the SR clock modulo
  10240, the eight-bit BSR index and the SR manager's marker 0xFFFFFFFF.
- Floating point: the PF and EPF metrics enter as the order they rank the UEs in, as a function of contexts and TTI; a metric
  that also reads the average rate or the QoS weight is covered because in a given run both are determined by the TTI.
- Mutexes inside the managers: every public call is one atomic step. The calls of `enb_handle_bsr_pdu` are one step together;
  they touch one RNTI, and a RNTI has at most one PDU due in a TTI.
- Random access responses, Msg3, temporary RNTIs and early termination in the closed loop; the UE process itself models them.
- Adding and removing UEs, and changing a configuration, during a run.
- Power headroom, random access after a failed scheduling request, and the adaptive SR period.
- Logs, metrics, latency tracking, the RTT and scheduling timers, printing and argument parsing, exceptions in worker bodies.
- SDU payloads: the packer leaves room for them and the receiver reports sizes only, as in the source.
- Data arrival for an unconfigured channel, which the source ignores: the traffic of the whole system names configured ones.
- Liveness beyond one UE: with several UEs a retransmission can wait for PRBs as long as others take them.
