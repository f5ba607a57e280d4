# A verified model of the DRAM controller, the HMC crossbar, the feature buffer and the CSR tilers

This project models four parts of a cycle-level simulator for graph accelerators and proves what they
guarantee on every run.

**The memory controller of one channel** (DRAMsim3). A value model of the whole controller (`Types`, `Timing`,
`Bank`, `Channel`, `Queues`, `RefreshPlan`, `Control`) describes what each operation computes: transaction
queues with write draining, forwarding and merging; FR-FCFS choice with precharge arbitration and refresh
priority; the open/closed bank machine with one earliest-time register per command; activation windows; the
refresh scheduler. `Trace` says what a command trace has to satisfy without mentioning the controller's
registers. `ChannelRun`, `DeskInvariant`, `ControllerInvariant`, `ControllerSteps` and `ControllerRuns` prove
one invariant over all operations; `RunTheorems`, `DataBus`, `DeviceTimings` and `RefreshBound` draw the consequences for whole
runs: conservation of transactions, no fatal exit, write-after-read order, registers equal to the maximum over
history, data-bus exclusivity, activation windows, quiet refreshes, no wasted activation, bounded refresh.
`MayIssue` reads what may be issued off the trace and the device parameters alone and shows that no cycle is
wasted; `Draining` says when writes leave the write buffer, `Completion` when each transaction is done,
`Capacity` how long the lists get, `CommandBus` how many commands share a cycle.
`RefreshCadence` joins scheduler and service: every rank is really refreshed in time. `SharedCycle` and `LostRead`
treat a defect: on HBM devices with two ranks dual issue can drop a read, and the exact condition on the
configuration is given. `ClockSums` shows when negative spacings are harmless, and `Devices` that shipped
configurations meet every assumption. The
mutable classes `ChannelState`, `CommandQueue`, `RefreshScheduler` and `Controller` update fields in place and
are proved to compute the value model; their object invariant is the invariant of the value model.

**Around it**: `AddressMapping` (field layout from a permutation string, then shift and mask; a bijection),
`DramSystem` (one controller per channel, routing) with `Callbacks` (when each transaction is called back), and
the HMC system (`Crossbar`, `Arbitration`, `Lanes`, `Hmc`, `HmcRuns`, `HmcOffers`, `HmcPace`, `HmcVaults`,
`HmcAnswers`, `HmcSystem`): requests and responses matched across links, quads and vaults, kind and order of every
packet kept, two flits a cycle into each queue, and two clock domains.

**The feature buffer** of the accelerator (`Replacement`, `Buffer`, `BufferRuns`, `RripRuns`, `GlobalBufferModel`): a
set-associative cache, a table of requests in flight and LRU, FIFO or RRIP state. A history of requests, fills,
hits and evictions is the reference against which all of them are checked.

**The CSR tilers** (`Csr`, `Quadtree`, `RecursiveTiling`, `VerticalTiling`): rewriting a graph tile by tile
preserves its edges.

`dafny verify dfyconfig.toml` checks everything.

## Model

Whole runs of the controller start from the initial state and interleave, in any order, offered transactions,
cycles and collections of finished transactions. `Sound(cfg)` asks for a non-empty geometry, an address mapping
into it, a non-zero refresh interval, an activate-to-access spacing that is not negative and, only with HBM dual
commands, positive spacings between the accesses that can meet in the geometry.

| member | source | states |
|---|---|---|
| ControllerRuns.EveryRunOk | DRAMsim3/src/controller.cc:65-149 | the invariant spanning channel, queues, refresh list, pending lists and trace holds after every run |
| ControllerRuns.RunKeepsInv | DRAMsim3/src/controller.cc:65-149 | from any state that meets the invariant, every run keeps it |
| ControllerRuns.TickKeepsInv | DRAMsim3/src/controller.cc:65-149 | one cycle (refresh insertion, service, scheduling, clocks) keeps the invariant |
| MayIssue.RunPermits | DRAMsim3/src/command_queue.cc:77-110 | on every run what a queued request may issue is given by trace, queue and device alone: the command its bank needs once all named spacings have elapsed and the windows allow it; a row is closed only for the first request of its bank, when nobody wants it or it has served four hits; a write waits for earlier reads of its cell |
| MayIssue.NoIdleCycle | DRAMsim3/src/controller.cc:65-83 | on every run a cycle extends the trace if and only if the waiting refresh has something to issue or some queued request of a queue that is not held back has |
| MayIssue.TableIsNamed | DRAMsim3/src/timing.cc:76-250 | between any two kinds of commands, for every relation of their banks (also across ranks and two accesses to one bank), the table holds exactly the spacing written out in device parameters and none other |
| CommandBus.OneCommandPerBus | DRAMsim3/src/controller.cc:80-93 | on every run no two commands share a cycle, except one access and one row command with dual commands; never three |
| Draining.EveryCycleDispatches | DRAMsim3/src/controller.cc:197-227 | on every run each cycle moves the one transaction it must: a running drain goes on with the first write that has room, a full buffer (or more than eight writes with nothing queued) starts one as long as the buffer, otherwise the first read with room moves; a pending read of its address blocks a write and ends the drain |
| Draining.PressedWriteLeaves | DRAMsim3/src/controller.cc:199-226 | with no drain running and the buffer full, or more than eight writes and empty command queues, the first write with room leaves the buffer and is last in its command queue, unless a read of its address is pending |
| Draining.ReadsGoFirst | DRAMsim3/src/controller.cc:207-226 | with no drain running and no such press the buffer is untouched and the first read with room moves |
| Draining.DrainIsCovered | DRAMsim3/src/controller.cc:197-227 | on every run a drain never counts more writes than the buffer holds |
| Completion.AnswersAreHistory | DRAMsim3/src/controller.cc:161-266 | on every run what is finished or delivered, with completion times, is the multiset that accepted transactions and command trace call for; the pending reads are the accepted ones nothing answers yet, in order; the pending writes are those not yet issued |
| Completion.EachAnswerIsDue | DRAMsim3/src/controller.cc:161-256 | on every run a write, or a read that found a write of its address on the way, is done at its arrival plus 1; every other read AL + CL + burst cycles after the first read of its address issued since it came |
| Completion.NothingIsEarly | DRAMsim3/src/controller.cc:45-63 | nothing is handed back before its completion time |
| Completion.ReturnMeaning | DRAMsim3/src/controller.cc:45-63 | the first finished transaction is handed back, and none only if none is finished |
| Capacity.RefusedIffFull | DRAMsim3/src/controller.cc:151-159 | on every run no list or command queue outgrows its configured size, lists stay in order of acceptance, and a transaction is refused exactly when its list is full |
| RunTheorems.NoRunExits | DRAMsim3/src/controller.cc:242-266 | no run reaches the fatal exits of the two pending look-ups and of the queue erase, nor an abrupt exit of the bank machine, for issued commands and for every request the banks may be asked about, between operations and at each point of a cycle where they are asked |
| RunTheorems.RunConserves | DRAMsim3/src/controller.cc:161-195 | accepted transactions are, as a multiset, those delivered, those finished and those reads still pending; every address with reads (or a write) pending has exactly one read (or write) in the transaction lists and command queues |
| RunTheorems.WritesFollowReads | DRAMsim3/src/controller.cc:197-227 | when a write issues no read of its address is pending, and a read always answers at least one |
| RunTheorems.RegistersAreHistory | DRAMsim3/src/channel_state.cc:140-263 | each earliest-time register is the maximum over the whole trace of issue time plus the spacing applied at that bank's relation to the command |
| RunTheorems.SpacingsKept | DRAMsim3/src/channel_state.cc:76-115 | every issued command keeps every applied spacing to every earlier command, on all banks it acts on |
| DeviceTimings.RunKeepsBankTimings | DRAMsim3/src/timing.cc:76-222 | on every run two commands to one bank keep tRCD (or tRCDRD, tRCDWR), tRAS, tRC, tRP, tRTP and tWR, also through auto-precharge and refresh |
| DeviceTimings.RunKeepsRankTimings | DRAMsim3/src/timing.cc:64-222 | on every run two commands to different banks of a rank keep tRRD, tCCD, tWTR (long or short form), the read-to-write turnaround and tPPD |
| RunTheorems.BusIsExclusive | DRAMsim3/src/timing.cc:13-180 | on every run each burst starts after all earlier bursts have ended, for every bank, group and rank relation and through auto-precharge; only the close-page policy needs the auto-precharge gap |
| ClockSums.SumsNeverWrapIff | DRAMsim3/src/channel_state.cc:188-248 | the unsigned sums of issue time and spacing never wrap, on any accepted trace, if and only if the negative turnarounds that apply in the geometry are covered by the activate-to-access spacings |
| ClockSums.RunSumsNeverWrap | DRAMsim3/src/bankstate.cc:167-171 | on every run of such a configuration each register update adds to a natural number |
| RunTheorems.AccessesHit | DRAMsim3/src/bankstate.cc:96-165 | every read and write hits the row of the latest activation of its bank that nothing closed since |
| RunTheorems.RefreshIsQuiet | DRAMsim3/src/timing.cc:246-250 | a rank refresh finds all banks of its rank closed and no command reaches the rank for tRFC cycles |
| RunTheorems.ActivationsAreSpread | DRAMsim3/src/channel_state.cc:271-314 | any five activations of a rank span tFAW cycles, any 33 span t32AW cycles on GDDR |
| RunTheorems.NoWastedActivation | DRAMsim3/src/command_queue.cc:77-110 | between an activation and a precharge made for a queued command, the activated row is read or written |
| RunTheorems.RunFollowsPlan | DRAMsim3/src/refresh.cc:21-82 | on every run the refresh scheduler is where the plan puts it after as many cycles |
| RefreshBound.RefreshIsBounded | DRAMsim3/src/command_queue.cc:56-75 | with d not before the clock and the rank's precharge and refresh registers, the refresh at the head of the list is issued by d plus one precharge gap per open bank plus tRP, and until then its rank sees only precharges, whatever else is submitted |
| RefreshBound.PrechargeKeepsDeadline | DRAMsim3/src/channel_state.cc:76-138 | each precharge on behalf of a refresh closes exactly one open bank of the rank and keeps the deadline |
| RefreshBound.WaitingKeepsDeadline | DRAMsim3/src/channel_state.cc:76-115 | a cycle in which neither a precharge nor the refresh is ready still leaves time before the deadline |
| RefreshCadence.RequestDeadline | DRAMsim3/src/timing.cc:76-250 | whatever the state, a rank refresh requested now can be issued within a worst case computed from the configuration |
| RefreshCadence.ListStaysShort | DRAMsim3/src/refresh.cc:21-46 | if the interval exceeds the worst case, no run ever has more than one rank refresh waiting, and that one is due within the worst case after its insertion |
| RefreshCadence.EveryRankIsRefreshed | DRAMsim3/src/controller.cc:65-83 | under the staggered policy every rank is issued a REFRESH in every span of tREFI plus the worst case, on every run that lasts so long |
| RefreshBound.FetchedElsewhere | DRAMsim3/src/command_queue.cc:36-54 | while a rank refresh is pending, the queues offer nothing for that rank |
| RefreshBound.HeldBack | DRAMsim3/src/command_queue.cc:146-162 | the queues held back are those that can hold commands of the refreshed rank and no others |
| DataBus.BurstsNeverOverlap | DRAMsim3/src/timing.cc:13-180 | bursts never overlap on any trace that keeps spacings and protocol |
| DataBus.BusInOrderIffGap | DRAMsim3/src/configuration.cc:340-343 | bursts stay in order on all traces the banks accept under the row policy if and only if rows stay open or a read with auto-precharge leaves room for the write after the next activation (a gap in CL, CWL, tRTP, tRP, tRCD) |
| DataBus.FiveActivationsSpanFAW | DRAMsim3/src/channel_state.cc:297-304 | five activations of a rank on a trace span tFAW |
| DataBus.ThirtyThreeActivationsSpan32AW | DRAMsim3/src/channel_state.cc:306-314 | 33 activations of a rank on a trace span t32AW |
| Trace.AccessesHitTheOpenRow | DRAMsim3/src/bankstate.cc:22-94 | on a trace, an access has a standing activation of its row |
| Trace.RefreshSilencesRank | DRAMsim3/src/timing.cc:246-250 | on a trace, nothing reaches a refreshed rank for tRFC cycles |
| ChannelRun.IssueKeepsChannel | DRAMsim3/src/channel_state.cc:265-269 | issuing a ready command keeps machines, registers, windows and trace in agreement |
| ChannelRun.ReadyMeaning | DRAMsim3/src/channel_state.cc:76-115 | what is ready for a request: the command its bank needs next, with its registers due, or for a rank the refresh or a precharge |
| ChannelRun.WindowStep | DRAMsim3/src/channel_state.cc:282-295 | the expiry list stays a bounded suffix of the activation history whose dropped entries have expired |
| Channel.FirstToPrechargeMeaning | DRAMsim3/src/channel_state.cc:78-95 | the rank scan finds a bank to precharge exactly when one qualifies |
| Channel.WithoutFirstAt | DRAMsim3/src/channel_state.cc:50-56 | the erase loop drops the first matching request and keeps the others |
| Bank.RaiseAllIsMaximum | DRAMsim3/src/bankstate.cc:167-171 | applying a spacing list is a maximum over the old value and every listed spacing, and attained |
| Queues.FirstReadyMeaning | DRAMsim3/src/command_queue.cc:178-196 | a queue offers what its first request that may issue anything may issue, and nothing if and only if none of its requests may issue anything |
| Queues.PickMeaning | DRAMsim3/src/command_queue.cc:36-54 | round robin: the first queue in turn that is not held back and has something to offer is picked; nothing is picked only if no queue has |
| Queues.IndexInRange | DRAMsim3/src/command_queue.cc:164-171 | every bank has a queue |
| Capacity.QueuesApart | DRAMsim3/src/command_queue.cc:164-171 | two banks share a queue exactly if they are the same bank, or of the same rank with a queue per rank |
| Capacity.NoQueueUnused | DRAMsim3/src/command_queue.cc:164-171 | every queue serves some bank |
| DeskInvariant.WriteHasNoReads | DRAMsim3/src/command_queue.cc:218-230 | a write that may issue has no read of its address pending, for split and unified queues |
| DeskInvariant.QueuedIsPending | DRAMsim3/src/command_queue.cc:198-208 | a queued command always has its transaction pending |
| DeskInvariant.ScheduleKeepsDesk | DRAMsim3/src/controller.cc:197-227 | moving the first accepted transaction to its queue keeps one entry per pending address and the read-write order |
| DeskInvariant.MovedOrder | DRAMsim3/src/controller.cc:207-226 | in the unified queue a write cannot be scheduled ahead of a read of its address |
| DeskInvariant.IssueKeepsDesk | DRAMsim3/src/controller.cc:233-270 | issuing a queued access settles its address and keeps the other entries |
| ControllerInvariant.FetchMeaning | DRAMsim3/src/command_queue.cc:36-54 | a fetched command is what the first queue in turn with an offer has to offer for its first request that may issue; it is erased if it is an access |
| ControllerInvariant.PrechargeIsDeserved | DRAMsim3/src/command_queue.cc:77-110 | a row closed for a queued command has served at least one access |
| ControllerSteps.AddKeepsInv | DRAMsim3/src/controller.cc:161-195 | accepting, forwarding or merging a transaction keeps the invariant |
| ControllerSteps.ReturnKeepsInv | DRAMsim3/src/controller.cc:45-63 | returning a finished transaction keeps the invariant |
| ControllerSteps.ScheduleKeepsInv | DRAMsim3/src/controller.cc:197-227 | scheduling keeps the invariant |
| ControllerSteps.IssueFromQueue | DRAMsim3/src/controller.cc:233-270 | issuing what the queues offer keeps the invariant |
| ControllerSteps.RefreshCommandKeepsInv | DRAMsim3/src/command_queue.cc:56-75 | issuing what a pending refresh needs keeps the invariant |
| ControllerRuns.SecondIsNoAccess | DRAMsim3/src/controller.cc:80-93 | with positive access spacings, the command fetched in the same cycle after an access is not an access |
| ControllerRuns.DualIssueLosesNothing | DRAMsim3/src/controller.cc:80-93 | the second command of a cycle is issued or leaves every queue and pending list as it was |
| ControllerRuns.SecondCommandKeepsInvIff | DRAMsim3/src/controller.cc:84-92 | state by state: the second fetch keeps the invariant unless it returns an access after an access; which configurations allow that is the next row |
| SharedCycle.CyclesUnsharedIffPositive | DRAMsim3/src/timing.cc:76-180 | no accepted trace has an access right after another in one cycle if and only if every access spacing that applies in the geometry is positive |
| LostRead.RunLosesRead | DRAMsim3/src/controller.cc:80-93 | with HBM2 timings and two ranks a run of thirty cycles loses a read: it stays pending, nothing on its way stands for it, and it was never issued |
| LostRead.SceneExists | DRAMsim3/src/configuration.cc:33-42 | mappings and addresses for that run exist |
| Devices.TwoRankHbm2Meets | DRAMsim3/configs/HBM2_4Gb_x128.ini:11-35 | those timings are valid, the write-to-read spacing across ranks is -6, and a write and a read of the other rank can share a cycle |
| Devices.ShippedAreSound | DRAMsim3/configs/GDDR5_8Gb_x32.ini:11-40 | GDDR5_8Gb_x32, HBM2_4Gb_x128, DDR4_8Gb_x8_3200 and DDR4_8Gb_x4_2666 meet the assumptions of the run theorems, their sums never wrap, and their refresh intervals exceed the worst case |
| Devices.SoundIsInhabited | DRAMsim3/configs/DDR4_8Gb_x4_2666.ini:10-65 | the default device with its own address mapping meets them |
| ControllerRuns.LostAccess | DRAMsim3/src/command_queue.cc:45-50 | an access fetched but not issued leaves its transaction pending with no entry to serve it |
| RefreshPlan.BankPosition | DRAMsim3/src/refresh.cc:62-82 | bank-level policy: the position after k insertions is the mixed-radix expansion of k |
| RefreshPlan.RankPosition | DRAMsim3/src/refresh.cc:62-66 | rank-level staggered policy: the rank after k insertions is k modulo the ranks |
| RefreshPlan.EveryBankOncePerRound | DRAMsim3/src/refresh.cc:47-54 | any round of consecutive insertions serves every bank exactly once |
| RefreshPlan.InsertionsSoFar | DRAMsim3/src/refresh.cc:21-27 | how many insertions have happened after n cycles |
| RefreshPlan.EveryRankWithinTREFI | DRAMsim3/src/refresh.cc:12-18 | in every span of tREFI cycles each rank gets a refresh request |
| ChannelStateModel.ChannelState.GetReadyCommand | DRAMsim3/src/channel_state.cc:76-115 | the scanning loops return what the value model says is ready |
| ChannelStateModel.ChannelState.UpdateState | DRAMsim3/src/channel_state.cc:117-138 | exactly the banks a command acts on absorb it; the refresh list loses its request |
| ChannelStateModel.ChannelState.UpdateTiming | DRAMsim3/src/channel_state.cc:140-186 | the five in-place fan-outs give every bank exactly the spacings of its relation to the command |
| ChannelStateModel.ChannelState.UpdateOtherBanksSameBankgroupTiming | DRAMsim3/src/channel_state.cc:199-212 | exactly the other banks of the group are raised |
| ChannelStateModel.ChannelState.UpdateOtherBankgroupsSameRankTiming | DRAMsim3/src/channel_state.cc:214-229 | exactly the banks of the other groups of the rank are raised |
| ChannelStateModel.ChannelState.UpdateOtherRanksTiming | DRAMsim3/src/channel_state.cc:231-248 | exactly the banks of other ranks are raised |
| ChannelStateModel.ChannelState.UpdateSameRankTiming | DRAMsim3/src/channel_state.cc:250-263 | exactly the banks of the rank are raised |
| ChannelStateModel.ChannelState.UpdateActivationTimes | DRAMsim3/src/channel_state.cc:282-295 | the windows after an activation |
| ChannelStateModel.ChannelState.UpdateTimingAndStates | DRAMsim3/src/channel_state.cc:265-269 | the two in-place passes together are one `Issue` of the value model |
| CommandQueueModel.CommandQueue.GetCommandToIssue | DRAMsim3/src/command_queue.cc:36-54 | the round-robin loop fetches, and erases, what the value model fetches |
| CommandQueueModel.CommandQueue.FinishRefresh | DRAMsim3/src/command_queue.cc:56-75 | serves the head refresh and holds queues back until it issues |
| CommandQueueModel.CommandQueue.ArbitratePrecharge | DRAMsim3/src/command_queue.cc:77-110 | whether the open row may be closed for a request |
| CommandQueueModel.CommandQueue.GetFirstReadyInQueue | DRAMsim3/src/command_queue.cc:178-196 | the first request on whose behalf something may issue |
| CommandQueueModel.CommandQueue.HasRWDependency | DRAMsim3/src/command_queue.cc:218-230 | whether an earlier read of the same cell waits |
| CommandQueueModel.CommandQueue.EraseRWCommand | DRAMsim3/src/command_queue.cc:198-208 | removes the first entry with the same address and kind |
| CommandQueueModel.CommandQueue.GetRefQIndices | DRAMsim3/src/command_queue.cc:146-162 | the set of queues held back for a refresh |
| CommandQueueModel.CommandQueue.AddCommand | DRAMsim3/src/command_queue.cc:127-136 | appends to the queue of the bank if there is room |
| RefreshUnit.RefreshScheduler.ClockTick | DRAMsim3/src/refresh.cc:21-60 | one cycle inserts the request the plan has for it and advances the plan |
| MemoryController.Controller.AddTransaction | DRAMsim3/src/controller.cc:161-195 | merging, forwarding and queueing as in the value model; keeps the object invariant |
| MemoryController.Controller.ReturnDoneTrans | DRAMsim3/src/controller.cc:45-63 | hands back the first finished transaction |
| MemoryController.Controller.DrainDone | DRAMsim3/src/dram_system.cc:147-160 | delivers all finished transactions, leaves none finished, conserves them |
| MemoryController.Controller.AnswerReads | DRAMsim3/src/controller.cc:248-255 | moves every pending read of the address, stamped, to the return queue in order |
| MemoryController.Controller.IssueCommand | DRAMsim3/src/controller.cc:233-270 | settles transactions, updates the channel, extends the trace |
| MemoryController.Controller.ServeCommands | DRAMsim3/src/controller.cc:69-93 | refresh first, then the queues, then the second command |
| MemoryController.Controller.ScheduleTransaction | DRAMsim3/src/controller.cc:197-227 | drain decision and the move of one transaction |
| MemoryController.Controller.ClockTick | DRAMsim3/src/controller.cc:65-149 | one cycle is one `Tick` of the value model and keeps the object invariant |
| AddressMapping.LogBase2 | DRAMsim3/src/common.cc:50-57 | the exponent of the largest power of two not above the argument |
| AddressMapping.SetAddressMapping | DRAMsim3/src/configuration.cc:347-404 | accepts exactly the permutations of the six fields; each field starts at the total width of the fields written after it |
| AddressMapping.FieldsTile | DRAMsim3/src/configuration.cc:378-389 | the fields tile the low bits without gap or overlap |
| AddressMapping.SplitIsShiftAndMask | DRAMsim3/src/configuration.cc:33-42 | shifting and masking reads one digit of a mixed-radix expansion |
| AddressMapping.LineRoundTrip | DRAMsim3/src/configuration.cc:33-42 | line numbers below 2^W survive decoding and encoding |
| AddressMapping.AddressRoundTrip | DRAMsim3/src/configuration.cc:33-42 | representable coordinates survive encoding and decoding |
| AddressMapping.ConfigureMapping | DRAMsim3/src/configuration.cc:347-404 | widths computed from the counts and positions from the string give, for every permutation, a layout under which all addresses decode into the geometry |
| AddressMapping.LayoutDecodesInto | DRAMsim3/src/dram_system.cc:31-34 | decoded coordinates are in range even for counts that are not powers of two, and the routed channel is the decoded one |
| DramSystem.SystemConserves | DRAMsim3/src/dram_system.cc:122-170 | on every run of all channels each callback answers one submitted transaction, never twice; the rest is owed by the controllers, each of which only ever received addresses of its own channel and keeps step |
| Callbacks.CallbacksAreOnTime | DRAMsim3/src/dram_system.cc:147-170 | on every run each cycle calls back, in channel order, transactions that are done, and none that is not; when a read takes at least a cycle, each is called back in the very cycle in which it is done |
| DramSystem.JedecDRAMSystem.AddTransaction | DRAMsim3/src/dram_system.cc:128-145 | routes to the controller of the channel if it has room |
| DramSystem.JedecDRAMSystem.MakeCallbacks | DRAMsim3/src/dram_system.cc:147-160 | the draining loops call back what the controllers have finished |
| DramSystem.JedecDRAMSystem.ClockTick | DRAMsim3/src/dram_system.cc:147-170 | callbacks, then one cycle of every controller |
| Owed.TickKeepsOutstanding | DRAMsim3/src/controller.cc:65-149 | a cycle of a controller leaves what it owes its caller unchanged |
| Owed.AddGrowsOutstanding | DRAMsim3/src/controller.cc:161-195 | an accepted transaction is owed exactly once, whether queued, merged or forwarded |
| HmcRuns.CubeConserves | DRAMsim3/src/hmc.cc:397-556 | on every run and for each address, responses awaited are requests on links plus in quads plus transactions outstanding in vaults; no look-up fails; an age counter is positive exactly when its queue is non-empty |
| HmcRuns.EveryAnswerWasPromised | DRAMsim3/src/hmc.cc:494-541 | answers given were promised and never given twice; the others are in the table or in the response queues |
| HmcOffers.RequestsKeepTheirKind | DRAMsim3/src/hmc.cc:397-492 | on every run the requests taken are, as a multiset of address and kind, those on links and in quads and those the vaults have accepted; from each link to each quad they stay in order and keep their size; each vault has accepted what entered it, in order; each response promised has the address, callback and size of its request, its link and its quad |
| HmcOffers.InsertMeaning | DRAMsim3/src/hmc.cc:419-442 | the request goes, whole, to the back of the first link with room in the circle from the link whose turn it is, and the turn passes on; it is refused only if all links are full |
| HmcVaults.RequestsAreStamped | DRAMsim3/src/hmc.cc:444-460 | on every run each vault has accepted its requests in the order they entered, each stamped with the DRAM cycle its logic cycle L falls into, floor(L * psLogic / psDram) + 1 |
| HmcVaults.VaultsAreOnTime | DRAMsim3/src/hmc.cc:544-587 | on every run each vault keeps step with the DRAM clock, its answers and completion times are those its history calls for, and none is overdue |
| HmcVaults.DramCycleAnswers | DRAMsim3/src/hmc.cc:544-562 | a DRAM cycle collects, vault by vault, exactly what is done, in the very cycle if a read takes at least one, and lets a response go for each address in that order |
| HmcAnswers.ResponsesKeepOrder | DRAMsim3/src/hmc.cc:494-541 | on every run the responses from each quad to each link reach the processor in the order in which the vaults let them go, unchanged; the others are on the way, in order |
| HmcAnswers.CallbackMeaning | DRAMsim3/src/hmc.cc:621-635 | the earliest response awaited under the address goes to the back of its quad's queue, whose age starts again; nothing else changes |
| HmcPace.CrossbarKeepsPace | DRAMsim3/src/hmc.cc:444-541 | on every run what crosses to a quad or a link between two arrivals fits, at two flits a logic cycle, between them; no request enters its vault and no response reaches the processor before its last flit |
| HmcPace.RequestCycle | DRAMsim3/src/hmc.cc:444-492 | in a logic cycle a front request enters its vault exactly if it is through, its vault accepts it and its quad has room for responses, all as the cycle begins; then each link sends its front across or waits for a full or busy quad |
| HmcPace.ResponseCycle | DRAMsim3/src/hmc.cc:494-541 | in a logic cycle a front response reaches the processor exactly if it is through; then each quad sends its front across or waits for a full or busy link |
| HmcPace.QuadsEnterAlone | DRAMsim3/src/hmc.cc:446-460 | the quads do not get into each other's way: who enters depends only on the state before the first of them |
| HmcRuns.LogicClockIsCeiling | DRAMsim3/src/hmc.cc:569-587 | after n ticks the logic clock is ceil(n * psDram / psLogic), and dram_ps <= logic_ps < dram_ps + psLogic |
| HmcRuns.ClockRatio | DRAMsim3/src/hmc.cc:305-319 | the logic period never exceeds the DRAM period, and is positive exactly up to 1 THz |
| HmcRuns.InsertKeepsInv | DRAMsim3/src/hmc.cc:397-442 | a request is accepted exactly when some link has room; acceptance keeps the invariant |
| HmcRuns.CallbackKeepsFlows | DRAMsim3/src/hmc.cc:621-635 | what a vault returns is awaited, and moving its response keeps conservation |
| HmcRuns.TickKeepsCube | DRAMsim3/src/hmc.cc:569-587 | one tick keeps conservation, queue bounds and the clock relation |
| Crossbar.BuildAgeQueue | DRAMsim3/src/hmc.cc:589-613 | lists every position with positive age exactly once and no other |
| Crossbar.Transfer | DRAMsim3/src/hmc.cc:468-492 | one arbitration cycle as the model says; every front access is safe |
| Crossbar.CrossOk | DRAMsim3/src/hmc.cc:468-492 | arbitration keeps ages in agreement with the queues and destinations valid |
| Crossbar.CrossKeepsLoad | DRAMsim3/src/hmc.cc:520-541 | whatever is read off the packets, except exit times, is conserved by the crossing |
| Crossbar.CrossAllBounded | DRAMsim3/src/hmc.cc:472-474 | the crossing never fills a destination queue past the depth, and never lengthens a source queue |
| Lanes.CrossAllKeepsLane | DRAMsim3/src/hmc.cc:468-492 | packets from one source to one destination never overtake one another, whatever the arbitration order |
| Arbitration.CrossMeaning | DRAMsim3/src/hmc.cc:468-492 | a source with packets either loses its front packet, with age 1 or 0, or waits, one cycle older, for a destination that ends the cycle full or busy |
| Arbitration.TwoFlitsPerCycle | DRAMsim3/src/hmc.cc:462-477 | along the arrivals of a destination the flits in between never exceed twice the cycles |
| Arbitration.TwoServedOldestFirstIff | DRAMsim3/src/hmc.cc:589-613 | of two waiting sources the one scanned later goes first exactly if its age exceeds the position of the other; service is oldest first exactly if that agrees with the ages |
| Arbitration.YoungerCanGoFirst | DRAMsim3/src/hmc.cc:589-613 | with ages 5 and 1 the younger source goes first, against the comment of the source |
| HmcSystem.HMCMemorySystem.WillAcceptTransaction | DRAMsim3/src/hmc.cc:330-341 | true exactly when some link has room |
| HmcSystem.HMCMemorySystem.InsertHMCReq | DRAMsim3/src/hmc.cc:419-442 | the request goes to the first link with room in turn; refused, with nothing changed, exactly when all are full |
| HmcSystem.HMCMemorySystem.DrainRequests | DRAMsim3/src/hmc.cc:444-492 | front requests enter their vaults, then the crossbar moves |
| HmcSystem.HMCMemorySystem.DrainResponses | DRAMsim3/src/hmc.cc:494-541 | front responses reach the processor, then the crossbar moves |
| HmcSystem.HMCMemorySystem.VaultCallback | DRAMsim3/src/hmc.cc:621-635 | the first awaited response of the address moves to its quad |
| HmcSystem.HMCMemorySystem.DRAMClockTick | DRAMsim3/src/hmc.cc:544-567 | all finished transactions are matched, then every vault runs a cycle |
| HmcSystem.HMCMemorySystem.ClockTick | DRAMsim3/src/hmc.cc:569-587 | one tick is one `Tick` of the model; the catch-up loop ends; the object invariant survives |
| Replacement.VictimIsOldest | CacheReplacement.cpp:65-76 | the victim is the listed block used (LRU) or filled (FIFO) longest ago over the whole history |
| Replacement.AccessKeepsOrder | CacheReplacement.cpp:102-121 | using a listed block or admitting a new one keeps the list in age order and adds exactly that block |
| Replacement.EraseScanMeaning | CacheReplacement.cpp:104-117 | erasing while scanning removes exactly the block, because a list has no repetitions |
| Replacement.LruScan | CacheReplacement.cpp:102-121 | the scanning loop computes the new list |
| Replacement.SearchVictim | CacheReplacement.cpp:178-220 | the search ends; the victim is the first way with the largest prediction m, the others rise by 3 - m, the victim becomes 2 |
| Replacement.AgeAll | CacheReplacement.cpp:200-213 | every way rises by one and the error branch is unreachable |
| Replacement.RripReplaceKeepsRange | CacheReplacement.cpp:165-220 | predictions stay in 0..3 and no way beats the victim |
| RripRuns.ReplaceEntries | CacheReplacement.cpp:178-220 | entry by entry: the victim is the first way with the largest prediction m and becomes 2, every other way rises by 3 - m |
| RripRuns.PredictionsAreHistory | CacheReplacement.cpp:171-220 | on every run a way holds what the history makes of its block: 0 at a hit, 2 at a fill, raised since by what each evicted block of the set lacked to 3; unused ways hold 3 |
| RripRuns.VictimsAreFarthest | CacheReplacement.cpp:178-220 | on every run a block is evicted only from a full set, and no block of the set then had a larger prediction |
| RripRuns.RecentlyHitStays | CacheReplacement.cpp:171-220 | a block hit, with nothing evicted from its set since, is not the next victim while another block has a larger prediction |
| RripRuns.HitOutlivesFill | CacheReplacement.cpp:171-220 | the same in events alone: it outlives every block that was filled and never used |
| BufferRuns.BufferAgrees | GlobalBuffer.cpp:152-401 | on every run no set holds a block twice, an address in flight is not cached, each list holds exactly the cached blocks, no victim is taken from an empty list, predictions stay in 0..3 |
| BufferRuns.EvictionsAreFair | GlobalBuffer.cpp:257-313 | on every run each evicted block was the one used or filled longest ago among the blocks of its full set |
| BufferRuns.RequestsAreSingle | GlobalBuffer.cpp:217-224 | requests minus fills of a block is 1 if its address is in flight and 0 otherwise; only absent blocks are requested |
| BufferRuns.EdgesLeaveInOrder | GlobalBuffer.cpp:152-443 | on every run the edges waiting are those handed over and not yet taken, in order |
| BufferRuns.PatienceBoundsQueue | GlobalBuffer.cpp:152-170 | if edges are handed over only while the buffer can receive, at most 32 wait, and it can receive exactly while fewer do |
| BufferRuns.EdgeMeaning | GlobalBuffer.cpp:152-228 | an edge is queued; its block counts as hit exactly if resident, and is asked for exactly if it is neither resident nor on its way |
| BufferRuns.NoTransferMissed | GlobalBuffer.cpp:384-427 | on every run of a caller that takes edges only while the transfer flag is up, the flag is up whenever the next edge's block is resident |
| BufferRuns.DataMeaning | GlobalBuffer.cpp:231-392 | arriving data raise the flag exactly if they are those of the next edge, and make no other block resident |
| BufferRuns.ReceiveEdgeKeepsInv | GlobalBuffer.cpp:152-228 | an edge finds its block resident, or the block is in flight afterwards; the invariant survives |
| BufferRuns.ReceiveBlockKeepsInv | GlobalBuffer.cpp:231-392 | arriving data become resident and the invariant survives |
| BufferRuns.CheckKeepsInv | GlobalBuffer.cpp:403-427 | the transfer flag is raised if and only if the next edge's block is resident; a block neither resident nor on its way is asked for again |
| BufferRuns.VictimOfFullSet | GlobalBuffer.cpp:282-313 | a full set has a victim, it is found in the cache, and it is the right one |
| GlobalBufferModel.GlobalBuffer.ReceiveEdge | GlobalBuffer.cpp:152-228 | hit, request or wait as in the value model; keeps the object invariant |
| GlobalBufferModel.GlobalBuffer.ReceiveData | GlobalBuffer.cpp:231-392 | fill or replace as in the value model; keeps the object invariant |
| GlobalBufferModel.GlobalBuffer.CanTransfer | GlobalBuffer.cpp:403-427 | looks the next edge up and asks again if its block is gone |
| GlobalBufferModel.GlobalBuffer.TransferEdge | GlobalBuffer.cpp:436-443 | takes the oldest edge |
| Csr.DecodeOfEmit | CSR_converter/recursive_tiling_maker.cpp:302-322 | what is emitted reads back as the rows |
| Csr.EmitOfDecode | CSR_converter/recursive_tiling_maker.cpp:302-322 | what is read and emitted again is the same file |
| Csr.Emit | CSR_converter/vtmake.cpp:66-85 | the output loops write running totals and columns that decode to the rows |
| Quadtree.EveryPointInSomeLeaf | CSR_converter/recursive_tiling_maker.cpp:131-218 | for every configuration every point of the square lies in a leaf, and leaves have a row count |
| Quadtree.QuartersDivide | CSR_converter/recursive_tiling_maker.cpp:147-163 | each point of a rectangle lies in exactly one quarter, numbered by whether its row and its column lie beyond the middle |
| Quadtree.LeavesInOrder | CSR_converter/recursive_tiling_maker.cpp:131-218 | the list of leaves in order, mark by mark: the quarters in turn, each marked one as its own quarters, of which the one of the same number is cut once more for every mark of its line |
| Quadtree.BuildTree | CSR_converter/recursive_tiling_maker.cpp:131-218 | the loops build the tree of the configuration; it covers the square |
| Quadtree.CollectLeaves | CSR_converter/recursive_tiling_maker.cpp:64-74 | appends the leaves in order |
| RecursiveTiling.TilingPreservesEdges | CSR_converter/recursive_tiling_maker.cpp:260-322 | the emitted graph, each row credited to its vertex, has exactly the original edges as a multiset |
| RecursiveTiling.DealRowsPick | CSR_converter/recursive_tiling_maker.cpp:260-277 | each leaf row holds exactly the columns of its vertex that belong to the leaf, in order |
| RecursiveTiling.DealAdds | CSR_converter/recursive_tiling_maker.cpp:265-276 | dealing an edge adds that edge once, in the row of its source |
| RecursiveTiling.Distribute | CSR_converter/recursive_tiling_maker.cpp:260-277 | the reading loop deals every column in file order |
| RecursiveTiling.Tile | CSR_converter/recursive_tiling_maker.cpp:119-322 | the whole program writes a graph with the same edges, for every configuration |
| VerticalTiling.TilesGiveBackRow | CSR_converter/vtmake.cpp:41-50 | row i collected over all tiles is row i if and only if its columns come in tile order, in particular if sorted; columns are never lost or repeated |
| VerticalTiling.JoinedIffInOrder | CSR_converter/vtmake.cpp:41-50 | concatenating the pieces of a row gives the row exactly when it is in tile order |
| VerticalTiling.WidthIsLeast | CSR_converter/vtmake.cpp:20-22 | the tile width is the least with which the tiles reach all vertices |
| VerticalTiling.TileInRange | CSR_converter/vtmake.cpp:46-48 | every vertex up to v has a tile |
| VerticalTiling.Cut | CSR_converter/vtmake.cpp:28-50 | row i + v * k of the output is the piece of row i in tile k |
| VerticalTiling.Tile | CSR_converter/vtmake.cpp:22-85 | what the program writes decodes to the tiled graph |

## Left out

- Self-refresh and the power loop: assumed disabled, which is the default; the bank machine would abort on the wake-up request the controller makes itself.
- Statistics, epoch output, thermal model, configuration parsing, text formats and command-line handling: input and output only.
- Integer widths: clocks and addresses do not wrap, and field widths stay below 31 bits; shifts and masks are division and remainder by powers of two.
- Vector capacities: the queue limits are taken as the configured sizes; a forced insertion that regrows a C++ vector would raise the limit.
- Configurations outside `ClockSums.SpacingsCovered` (or with AL above tRCD): the model adds negative spacings as integers, where the unsigned sum of the source would wrap around.
- Run theorems for HBM dual commands with a spacing between accesses that is not positive: the source then loses accesses (`LostRead.RunLosesRead`).
- The spacing list that the timing table gives to single-bank refreshes for their whole rank is never applied by the channel code, so no claim uses it.
- The simultaneous refresh policy stops after the first rank, contrary to its comment; it is modelled as coded.
- Transaction liveness: a full write buffer can select the same blocked write in every cycle, and the limit of four row hits is not a hard cap, so no waiting-time bound is claimed for transactions; `MayIssue.NoIdleCycle` claims that no cycle is wasted.
- Oldest-first service of the crossbar: the age queue compares an age with a position (`Arbitration.YoungerCanGoFirst`); the exact condition is given for two waiting sources, for more only who is listed.
- HMC request types: packet sizes and the kind of response are arbitrary parameters, so the table of request types and the block-size switch are not spelled out.
- Multimap look-ups by address take the earliest entry; a response is matched by address only, so a read and a write of one address may swap responses.
- HMC vaults and channels in `HmcSystem` and `DramSystem` are controller values held in a sequence, so aliasing between controller objects is not modelled.
- GlobalBufferModel.GlobalBuffer.ReceiveData: the flag for the next edge is left alone when no edge waits, where the source reads the front of an empty queue.
- Transfers of edges whose block is gone: a later hit raises the transfer flag whatever the head of the queue is.
- Feature and weight data, and the SHiP, moving-median and Bloom-filter policies: floating point, or state shared across sets.
- The replacement lists are one list of (column, fold) pairs per set instead of two parallel global vectors, and belong to one buffer.
- Addresses and (column, fold) pairs are assumed to determine each other in the buffer.
- Quadtree leaves may repeat, because the third level is always attached to the quarter with its parent's number; disjointness is not claimed.
- Edges to vertices above the vertex count, and row lists that are not running totals: outside what the tilers are given.
- The tile width uses exact rounding up instead of single-precision division.
- The level-order leaf listing (only printed), the dynamic vertical tilers, the readers, the distributer, the run loop and the ideal memory system.
