# Verified models

Dafny models of the parts of this repository that are hardest to get right, with
proofs of what each of them is for. `dafny verify dfyconfig.toml` checks everything.

**The transfer ring** (`RingModel`, `RingExpansion`, `RingFifo`, `IsocUrb`,
`BulkUrb`, `RingCounts`, `RingCancel`, `RingTds`, `RingTdCancel`, `RingFetch`, `MoveDequeue`,
`ActualLength`, `TransferRing`, `RingChains`, `RingLag`, `RingOverfill`). A ring of segments joined by link TRBs, shared
with a controller that sees only cycle bits. `RingModel` and `RingExpansion` say
what each operation does to the ring as a value; `RingFifo` puts driver and
controller side by side and proves that the controller sees exactly the TDs
handed over, over every run; `RingCounts` does so for a driver that only counts,
`RingCancel` with TDs cancelled in place as well; `RingTds` and `RingTdCancel` group what the
controller meets into TDs by chain bits, links included, and `RingFetch` reads TRBs back as
the bytes they make it fetch. `IsocUrb` and `BulkUrb` are whole URBs;
`RingLag` and `RingOverfill` are runs in which the ring breaks. `TransferRing`
holds the same operations as the driver performs them, on an array of TRBs, each
tied to its specification. Segment size and number are parameters.

**The command ring** (`CommandSlots`, `CommandRuns`, `CommandSeen`, `CommandRing`). The exact
count of free slots, the match between the command list and the slots, and what the controller
executes.

**Cancellation** (`Cancellation`, `CancellationProof`, `CancellationMoves`, `EndpointDoorbells`,
`Endpoint`). The state machine over TD statuses and endpoint flags that runs through the three
command-completion handlers: what every run keeps, which TDs wait for the controller to be moved,
which doorbells are rung. `Endpoint` holds the handlers in place.

**TRB cutting** (`TdCutting`). The arithmetic that splits buffers and lists at
64 KB pages and packet boundaries, with bounce buffers.

**The firmware updater** (`UpdaterStore`, `UpdaterJobs`, `UpdaterProof`,
`UpdaterRuns`, `UpdaterAnswers`, `UpdaterFiles`, `UpdaterPath`, `UpdaterService`). Every interleaving of RPC calls and any number
of worker processes over one saved job, one image per job and two locks. Each
locked section, file operation or try-lock is one step; a worker may crash at
any point; every read, write, removal, spawn or outside call may fail.

**Network buffer ownership** (`UsbQueues`, `UsbOwnership`, `UsbRuns`,
`UsbReceive`, `UsbOrder`, `UsbNet`). Buffers and URBs between transmission, completion, unlinking, the bottom half
and resume, with URB reference counts. Each piece that runs under one lock is
one step; completion callbacks and unlinks are split where the lock is released.

**Two codecs** (`Qmap`; `QmiTlv`, `QmiRequest`, `QmiReadBack`). Multiplexed frames and their
receive loop; QMI requests written into a fixed buffer and the record lookup.

## What the proofs found

- A bulk transfer may take one TRB more than the ring was prepared for at each
  link it crosses, where the TRB before the link is cut short for alignment
  (`BulkCount`). Nothing checks for room again. `BulkFitsExactly` says exactly
  when the ring survives, from ring and transfer before the call and given which
  bounce buffers can be mapped; `OverfillIsReached` gives, for every segment size, a
  run in which it does not, and `OverfillLosesTrbs` what follows: the full ring looks
  empty, never grows again, and the next TD overwrites TRBs the controller has yet to
  execute. A driver that keeps to its counts never gets there (`FifoOverCountedRuns`,
  `FifoOverCountedCancellations`).
- Growing the ring while the controller rests on the link just ahead of enqueue
  (it has executed everything up to it) hands the controller an unwritten TRB of
  the new segment: `GrowUnderLaggingController`. The invariant holds in all
  other cases, and `PreparedHasRoom` and the steps of `RingFifo` carry that
  condition. `LagIsReached` gives a run that ends there, `DequeueElsewhere` what
  the driver can check to rule it out.
- A must-succeed command without a reserved slot can take the last free slot; a
  full command ring then looks empty (`UnreservedFillsRing`).
- A Stop Endpoint completion that is to be retried, because the endpoint was found
  running or stopped too early, strands cancelled TDs exactly when no memory can be
  had for the command and nothing else is pending (`RetryStrands`); so does halting
  an endpoint with a TD to clear (`HaltStrands`). Both are reached from an unused
  endpoint, and the next URB then rings the doorbell with the cancelled TD still on
  the ring (`RetryStrandsReached`, `HaltStrandsReached`). `EndpointRuns` assumes
  commands can be queued.
- A Reset Endpoint completion rings no doorbell unless the reset was a soft one. If it
  leaves nothing pending, for want of a command to move the controller or of a TD to
  move it past, TDs still queued wait until another URB is queued (`ResetLeavesAlone`,
  `LeftAloneIsReached`); otherwise, and but for port errors, no TD waits unrung
  (`NoTdWaitsUnrung`).
- A command completion for the TRB at dequeue takes the head of the command list
  without looking whether there is one. There is one exactly if a command was
  written to that TRB (`ReportHasCommand`).
- A transmission put off during suspend is queued at resume without its state
  being set. It keeps whatever the network stack left in the control block; an
  unlink overlooks it exactly if that happens to be the unlink state
  (`StaleStateHidesFromUnlink`, `StaleStateIsReached`). Ownership is not affected.
- A modify-profile request whose last record is a string writes the string's
  terminator one byte behind the message; a message of exactly 256 bytes then
  needs a 257th (`RoomForTerminator`), and an access point name of 231 characters
  gives such a message (`TerminatorOverruns`). A start-network request always ends in a
  fixed record and needs no such room.
- In a start-network request the profile index of type 0x32 is tested for inside
  the branch for modems that are not cdma, so it is never written.
- The record lookup leaves the declared length exactly when a record's own
  length does (`StaysInsideExactly`); the code's 16-bit count of bytes left then
  wraps.

## Model

| member | source | states |
|---|---|---|
| RingFifo.ControllerSeesPublished | research/linux-6.12.74/xhci-ring.c:3243-3260 | in every state the invariant allows, what a controller walking by cycle bits alone would execute is exactly the published TRBs it has not taken: nothing of a TD being written, all of what was given |
| RingFifo.FifoOverRuns | research/linux-6.12.74/xhci-ring.c:3460-3474 | over every run of driver and controller from a fresh ring, each TRB written with room for one more, executed TRBs followed by those visible now are exactly the TRBs of the TDs handed over, in order, across links, wraps, growth and undone attempts |
| RingFifo.WriteNeedsRoom | research/linux-6.12.74/xhci-ring.c:3243-3260 | writing a TRB keeps the ring sound if and only if there is room for one more |
| RingCounts.FifoOverCountedRuns | research/linux-6.12.74/xhci-ring.c:3266-3350 | the same over every run in which the driver keeps to its counts: a TD takes no more TRBs than were asked for when the ring was prepared; nothing is asked about room |
| RingCounts.FreshIsCovered | research/linux-6.12.74/xhci.h:1350-1371 | a newly allocated ring is a start of such runs |
| RingCounts.StepCovers | research/linux-6.12.74/xhci-ring.c:3266-3350 | every step keeps what is left of the count covered by room |
| RingCounts.PreparedRoom | research/linux-6.12.74/xhci-ring.c:3266-3350 | the exact room after a successful prepare, from the ring as it was before |
| RingCancel.FifoOverCancellations | research/linux-6.12.74/xhci-ring.c:744-762 | over every run that also cancels TDs in place and moves the controller past them: what the controller has gone past and what it sees are the TRBs given, in order, none lost or added, some turned into no-ops |
| RingCancel.FifoOverCountedCancellations | research/linux-6.12.74/xhci-ring.c:3266-3350 | the same over every run in which TDs keep to their counts and are cancelled and moved past; nothing is asked about room |
| RingCancel.BlankReplaces | research/linux-6.12.74/xhci-ring.c:744-762 | of the TRBs given exactly those of the cancelled TD become no-ops that the controller has not taken |
| RingCancel.MovedPast | research/linux-6.12.74/xhci-ring.c:1339-1374 | after the move no TRB from dequeue up to the last of the TD is ahead of the controller |
| RingCancel.EventKeepsInv | research/linux-6.12.74/xhci-ring.c:965-1070 | every such step keeps the invariant of ring and history |
| RingTds.TdsOverRuns | research/linux-6.12.74/xhci-ring.c:221-277 | over every run from a fresh ring that carries chain bits over: put together by chain bits, those of links included, what the controller took and meets are exactly the TDs given, one by one and whole |
| RingTds.LinksOverRuns | research/linux-6.12.74/xhci-ring.c:254-257 | in every run each link handed over and ahead of the controller is chained exactly if the TRB before it is; where links are to be chained, it or that TRB is |
| RingTds.PrepareChainsLink | research/linux-6.12.74/xhci-ring.c:3317-3343 | preparing leaves the link it steps off chained exactly where links are to be chained |
| RingTds.WriteLeavesLinks | research/linux-6.12.74/xhci-ring.c:246-257 | where links are to be chained, writing TRBs changes no chain bit of a link |
| RingTdCancel.TdsOverCancellations | research/linux-6.12.74/xhci-ring.c:744-762 | with whole TDs cancelled and moved past: what the controller meets falls into the TDs of the TRBs it sees, and of each TD given that it has not begun it sees all or only no-ops |
| RingTdCancel.LinksOverCancellations | research/linux-6.12.74/xhci-ring.c:744-762 | and every link ahead of it is still chained exactly if the TRB before it is |
| RingFifo.FreshIsInitial | research/linux-6.12.74/xhci.h:1350-1371 | a newly allocated ring of any geometry is a start of such runs |
| RingFifo.InitialInv | research/linux-6.12.74/xhci.h:1350-1371 | the invariant of ring, positions, cycle bits and history holds at the start |
| RingFifo.StepKeepsInv | research/linux-6.12.74/xhci-ring.c:221-277 | every step of driver or controller keeps it |
| RingFifo.PutKeepsInv | research/linux-6.12.74/xhci-ring.c:3243-3260 | storing a TRB at enqueue, the first of a TD withheld |
| RingFifo.CrossKeepsInv | research/linux-6.12.74/xhci-ring.c:221-277 | handing over a link and moving to the next segment, toggling the cycle state at the last one |
| RingFifo.PublishKeepsInv | research/linux-6.12.74/xhci-ring.c:3460-3474 | flipping the withheld bit publishes the TD as a whole |
| RingFifo.ConsumeKeepsInv | research/linux-6.12.74/xhci-ring.c:94-108 | the controller takes the TRB it owns and toggles at a toggling link |
| RingFifo.RetireKeepsInv | research/linux-6.12.74/xhci-ring.c:165-215 | moving dequeue past a completed TRB |
| RingFifo.GrowKeepsInv | research/linux-6.12.74/xhci-ring.c:3301-3315 | growing the ring, unless the controller rests on the link just ahead of enqueue |
| RingFifo.GrowUnderLaggingController | research/linux-6.12.74/xhci-ring.c:3301-3315 | in that remaining case growing always exposes an unwritten TRB to the controller: the exception is exact |
| RingFifo.DequeueElsewhere | research/linux-6.12.74/xhci-ring.c:165-215 | what the driver can tell of it: unless its own dequeue is the TRB right after that link, the controller is not on it |
| RingLag.LagIsReached | research/linux-6.12.74/xhci-ring.c:3301-3315 | such a state is reached from a fresh ring by proper steps, and the growth asked for there exposes an unwritten TRB |
| RingChains.ChainRuns | research/linux-6.12.74/xhci-ring.c:221-277 | steps that each lead on make up a run |
| RingFifo.WindowInsert | research/linux-6.12.74/xhci-ring.c:3301-3315 | inserting segments behind enqueue disturbs no walk that does not pass it |
| RingFifo.RollbackKeepsInv | research/linux-6.12.74/xhci-ring.c:4268-4286 | undoing a TD under construction keeps the ring sound |
| RingFifo.RollbackRestores | research/linux-6.12.74/xhci-ring.c:4268-4286 | after any attempt of any number of TDs and links, with the controller running meanwhile, undoing restores enqueue, cycle state and every cycle bit, and the controller sees what was published before |
| RingFifo.CheckedOnceNeverGrows | research/linux-6.12.74/xhci-ring.c:4298-4380 | a URB checked for room as a whole never grows the ring while its TDs are prepared |
| RingFifo.PreparedHasRoom | research/linux-6.12.74/xhci-ring.c:3266-3350 | after a successful prepare the TRBs fit with one slot to spare; in the empty-ring-on-link case exactly if they are fewer than the ring holds |
| RingFifo.WriteStaysOut | research/linux-6.12.74/xhci-ring.c:321-361 | writing as many TRBs as there was room for never moves enqueue into the dequeue segment |
| RingFifo.PreparedKeepsInv | research/linux-6.12.74/xhci-ring.c:3317-3343 | stepping off links in front of a new TD keeps the ring sound |
| RingExpansion.NoExpansionMeansRoom | research/linux-6.12.74/xhci-ring.c:321-361 | no expansion is asked for if and only if more free slots than TRBs lie before the dequeue segment |
| RingExpansion.ExpansionIsExact | research/linux-6.12.74/xhci-ring.c:321-361 | splicing the k segments asked for makes a recheck return 0, and fewer leave exactly the rest |
| RingExpansion.SpliceKeepsShape | research/linux-6.12.74/xhci-ring.c:3301-3315 | a spliced ring is again a ring of segments ending in links, only the last of which toggles |
| RingExpansion.SpliceRoom | research/linux-6.12.74/xhci-ring.c:3301-3315 | each spliced segment adds its usable slots and moves dequeue one segment away |
| RingModel.CrossLinkFacts | research/linux-6.12.74/xhci-ring.c:221-277 | where a link crossing leads, position by position; for the chain bit it hands over see RingTds |
| RingModel.NoopTd | research/linux-6.12.74/xhci-ring.c:744-762 | turning TRBs into no-ops keeps the length of the ring, its links, and every cycle bit but those strictly inside the TD when asked to flip them |
| TransferRing.Ring.constructor | research/linux-6.12.74/xhci.h:1350-1371 | a ring in memory with its positions and cycle state |
| TransferRing.Ring.CrossEnqueueLink | research/linux-6.12.74/xhci-ring.c:221-277 | the in-place link crossing does what its specification says |
| TransferRing.Ring.IncEnq | research/linux-6.12.74/xhci-ring.c:221-277 | the in-place step from a written TRB, over a link if the TD goes on |
| TransferRing.Ring.QueueTrb | research/linux-6.12.74/xhci-ring.c:3243-3260 | writing one TRB in place and stepping on |
| TransferRing.Ring.NewSegmentsNeeded | research/linux-6.12.74/xhci-ring.c:321-361 | the segment walk returns the closed form of the expansion count |
| TransferRing.Ring.Expand | research/linux-6.12.74/xhci-ring.c:3301-3315 | the grown ring equals the spliced one |
| TransferRing.Ring.LeaveLinks | research/linux-6.12.74/xhci-ring.c:3317-3343 | the loop that steps off links, which ends after at most one round trip |
| TransferRing.Ring.PrepareRing | research/linux-6.12.74/xhci-ring.c:3266-3350 | refusal, growth and stepping off links together |
| TransferRing.Ring.GivebackFirstTrb | research/linux-6.12.74/xhci-ring.c:3460-3474 | only the cycle bit of the first TRB changes |
| TransferRing.Ring.TdToNoop | research/linux-6.12.74/xhci-ring.c:744-762 | the in-place walk turns exactly the TRBs of the TD into no-ops |
| TransferRing.Ring.IncDeq | research/linux-6.12.74/xhci-ring.c:165-215 | the in-place step of dequeue past a TRB and its link |
| TransferRing.Ring.NextTrb | research/linux-6.12.74/xhci-ring.c:149-159 | the next position and its segment, links included |
| TransferRing.Ring.SumTrbLengths | research/linux-6.12.74/xhci-ring.c:2331-2343 | the loop adds up the TRBs between dequeue and the one the event names, no-ops and links left out |
| TransferRing.Ring.FindNewDequeue | research/linux-6.12.74/xhci-ring.c:657-735 | the walk finds the later of the controller and the TRB after the TD, with the cycle state of a consumer walking there |
| TransferRing.Ring.UpdateRingForSetDeq | research/linux-6.12.74/xhci-ring.c:1339-1374 | the completion handler walks to that same TRB and sets dequeue there |
| TransferRing.Ring.QueueIsocTd | research/linux-6.12.74/xhci-ring.c:4192-4252 | the TRBs of one isochronous TD in place, the first of the URB withheld |
| TransferRing.Ring.QueueTds | research/linux-6.12.74/xhci-ring.c:4139-4260 | the TDs of a URB prepared and written in order up to the first refusal |
| TransferRing.Ring.UndoTo | research/linux-6.12.74/xhci-ring.c:4268-4286 | the clean-up after a refusal |
| TransferRing.Ring.QueueIsocTx | research/linux-6.12.74/xhci-ring.c:4105-4286 | the whole function: all TDs published, or the ring as it was at entry |
| TransferRing.Ring.QueueBulkTx | research/linux-6.12.74/xhci-ring.c:3639-3792 | in place, whether or not the transfer fits: refused or prepared for the TRBs counted, each TRB cut and written in turn, the first given at the end; if it fits, the TRBs new on the ring make the controller fetch exactly the first bytes of the source, in order, their lengths adding up, and only the last interrupts |
| TransferRing.Ring.WriteBulk | research/linux-6.12.74/xhci-ring.c:3688-3792 | the TRBs queued name exactly the first bytes of the source in order, bounce buffers included; all but the last are chained; each plain TRB stays in a 64 KB page; their lengths are those of the cutting rule, and the ring is that of the TD written and given |
| TransferRing.Ring.WriteTrb | research/linux-6.12.74/xhci-ring.c:3749-3752 | one TRB written in place behind those before, the first of the TD withheld |
| BulkUrb.SoFarIsTd | research/linux-6.12.74/xhci-ring.c:3698-3752 | TRBs written as they are cut are the TD written as a whole |
| BulkUrb.BulkFitsExactly | research/linux-6.12.74/xhci-ring.c:3664-3792 | queueing a bulk transfer keeps the ring sound, TRB by TRB, if and only if the TRBs it is cut into are fewer than the room there will be: a matter of ring, block list, length and packet size before the call, and of which bounce buffers can be mapped |
| BulkUrb.CountFits | research/linux-6.12.74/xhci-ring.c:3419-3436 | a transfer cut short at no link fits whenever the count does; one that is, whenever there is room for one more TRB at each such link |
| BulkUrb.BulkIsPublished | research/linux-6.12.74/xhci-ring.c:3688-3792 | a transfer that fits is handed over as a whole, after everything before it |
| RingFetch.TransferIsSeen | research/linux-6.12.74/xhci-ring.c:3688-3792 | the TRBs the controller newly sees, read as address and length into memory and bounce buffers, fetch exactly the first bytes of the source in order; lengths add up to the transfer, all but the last are chained, only the last interrupts |
| RingFetch.TransferIsOnRing | research/linux-6.12.74/xhci-ring.c:3754-3762 | the same of the TRBs new on the ring |
| RingFetch.UrbIsSeen | research/linux-6.12.74/xhci-ring.c:4192-4252 | for a queued isochronous URB they fetch exactly its packets, one TD for each, which begins with an isochronous TRB and interrupts at its end |
| RingFetch.UrbIsOnRing | research/linux-6.12.74/xhci-ring.c:4192-4252 | the same of the TRBs new on the ring |
| BulkUrb.BulkRuns | research/linux-6.12.74/xhci-ring.c:3639-3792 | prepare, writes and handover of such a transfer are a stretch of a run, every step enabled |
| BulkUrb.CutsMeetLinks | research/linux-6.12.74/xhci-ring.c:3721-3733 | the j-th TRB lies in front of a link exactly where the cutting took it to |
| BulkUrb.SurvivesExactly | research/linux-6.12.74/xhci-ring.c:3243-3260 | the ring survives a TD written TRB by TRB exactly if there is room for it and one more |
| RingOverfill.OverfillIsReached | research/linux-6.12.74/xhci-ring.c:3639-3792 | for every segment size from 3: from a fresh ring of two segments with one TRB queued, a single buffer is counted to fit, adds no segment, and takes one TRB more |
| RingOverfill.OverfillLosesTrbs | research/linux-6.12.74/xhci-ring.c:321-361 | that transfer leaves enqueue on the link before dequeue: no count asks for a segment any more, and the next TRB written replaces the one the controller is about to execute and is marked as given |
| RingOverfill.TakesOneMore | research/linux-6.12.74/xhci-ring.c:3569-3636 | the buffer is cut into one TRB more than was counted, at the link |
| IsocUrb.UrbIsPublished | research/linux-6.12.74/xhci-ring.c:4105-4266 | a queued URB is visible as a whole, its TDs in order after what was published before |
| IsocUrb.UrbIsHidden | research/linux-6.12.74/xhci-ring.c:4192-4252 | before that the controller sees nothing of it |
| IsocUrb.UrbIsUndone | research/linux-6.12.74/xhci-ring.c:4268-4286 | whichever TD failed, enqueue, cycle state and every cycle bit are those at entry |
| IsocUrb.OutcomeInPlace | research/linux-6.12.74/xhci-ring.c:4262-4286 | the outcome in terms of the position and cycle state saved at entry |
| IsocUrb.QueuedOk | research/linux-6.12.74/xhci-ring.c:4139-4252 | after i TDs exactly their TRBs are written and pending |
| IsocUrb.NextTdFits | research/linux-6.12.74/xhci-ring.c:4298-4380 | no later TD of a checked URB asks for a larger ring |
| MoveDequeue.NewDequeueIsAhead | research/linux-6.12.74/xhci-ring.c:657-735 | for a published TD the search succeeds, at a TRB past the TD that the controller can be moved to |
| MoveDequeue.SkipKeepsInv | research/linux-6.12.74/xhci-ring.c:1339-1374 | moving controller and driver to any TRB ahead keeps the ring sound; only staying on a link that dequeue has passed does not count as a move |
| MoveDequeue.PastCancelledTd | research/linux-6.12.74/xhci-ring.c:657-735 | after the move the TD is behind dequeue, the controller sees all later TRBs and the skipped part is what lay between; a controller still on the link in front of dequeue stays as it is |
| MoveDequeue.PassesExactly | research/linux-6.12.74/xhci-ring.c:657-735 | the position found is past the TD if and only if the controller is not still on the link in front of dequeue; there it is that link |
| MoveDequeue.CycleOnTheWay | research/linux-6.12.74/xhci-ring.c:695-712 | the cycle state carried along the search is the one a consumer on the way would hold |
| ActualLength.BulkLengthIsProgress | research/linux-6.12.74/xhci-ring.c:2605-2635 | the length reported at any TRB of a TD is that of all earlier TRBs plus what this one moved, for each of the formulas; a stop on a short packet brings that sum itself |
| ActualLength.SkippedCountNothing | research/linux-6.12.74/xhci-ring.c:2331-2343 | no-ops and links between dequeue and the TD add nothing |
| ActualLength.BulkLengthIsBounded | research/linux-6.12.74/xhci-ring.c:2605-2635 | no event makes the report exceed what was requested; one whose residue does makes it zero |
| CommandSlots.UsedAndFree | research/linux-6.12.74/xhci-ring.c:285-313 | used and free slots together are all slots of the ring |
| CommandSlots.FreeIsExact | research/linux-6.12.74/xhci-ring.c:285-313 | the free count and the command list always add up to the capacity |
| CommandSlots.QueueKeepsMatched | research/linux-6.12.74/xhci-ring.c:4382-4422 | an accepted command owns the first free slot and the i-th listed command still owns the i-th slot, so enqueue never catches dequeue |
| CommandSlots.UnreservedFillsRing | research/linux-6.12.74/xhci-ring.c:4394-4407 | a must-succeed command without a reserved slot fills the ring, which then looks empty |
| CommandSlots.CompletionMatches | research/linux-6.12.74/xhci-ring.c:1757-1892 | the command reported next is the head of the list, and dequeue moves to the slot of the second |
| CommandSlots.ReportHasCommand | research/linux-6.12.74/xhci-ring.c:1776-1800 | an event for the TRB at dequeue finds a listed command exactly if a command was written there |
| CommandSlots.AbortKeepsMatched | research/linux-6.12.74/xhci-ring.c:395-417 | turning an aborted command into a no-op leaves every command its slot |
| CommandRuns.CommandsOwnSlots | research/linux-6.12.74/xhci-ring.c:1757-1892 | over every run of queueing, completion and abort from a fresh ring the i-th listed command owns the i-th slot, free slots and listed commands add up to the capacity, and enqueue meets dequeue only when nothing is listed |
| CommandRuns.ApplyKeepsMatched | research/linux-6.12.74/xhci-ring.c:4382-4422 | each of these steps keeps the match |
| CommandSeen.CommandsAreExecuted | research/linux-6.12.74/xhci-ring.c:4382-4422 | over every run of driver and controller from a fresh command ring: what the controller executed and would execute next are the commands accepted, in order, none lost or added, some as no-ops by an abort; those next lie in the TRBs of the listed commands it has not taken, in list order |
| CommandSeen.QueueShowsOne | research/linux-6.12.74/xhci-ring.c:4382-4422 | an accepted command adds exactly its own TRB to what the controller sees |
| CommandSeen.AbortKeepsWhole | research/linux-6.12.74/xhci-ring.c:395-417 | an abort changes nothing else it sees |
| CommandRing.CommandQueue.NumTrbsFree | research/linux-6.12.74/xhci-ring.c:285-313 | the segment walk returns the exact cyclic slot count |
| CommandRing.CommandQueue.QueueCommand | research/linux-6.12.74/xhci-ring.c:4382-4422 | accepted exactly when enough slots are free beyond those reserved; list and ring as specified |
| CommandRing.CommandQueue.HandleCmdCompletion | research/linux-6.12.74/xhci-ring.c:1757-1892 | an event for another TRB is ignored; one for the TRB at dequeue completes the first command and moves dequeue on, or meets an empty list exactly if no command was written there |
| CancellationProof.EndpointRuns | research/linux-6.12.74/xhci-ring.c:965-1070 | over every run of an endpoint: the doorbell was written only with all cancelled TDs cleared, no cancelled TD is stranded, SET_DEQ_PENDING holds exactly when one TD is clearing the cache, deferred TDs exist only then, and every URB is accounted for |
| CancellationProof.EventKeepsInv | research/linux-6.12.74/xhci-ring.c:1114-1234 | every handler, new URB, cancellation and halt keeps that invariant |
| CancellationProof.HandleStopKeeps | research/linux-6.12.74/xhci-ring.c:1114-1234 | the Stop Endpoint handler, each completion code and context state |
| CancellationProof.HandleSetDeqKeeps | research/linux-6.12.74/xhci-ring.c:1383-1516 | the Set TR Dequeue handler |
| CancellationProof.HandleResetKeeps | research/linux-6.12.74/xhci-ring.c:1519-1551 | the Reset Endpoint handler |
| CancellationProof.HandleHaltedKeeps | research/linux-6.12.74/xhci-ring.c:915-954 | marking a TD halted and queueing the reset |
| CancellationProof.InvalidateReachesMid | research/linux-6.12.74/xhci-ring.c:965-1070 | after the pass over the cancelled list everything is cleared, or one dequeue move is on its way and the rest is cleared or deferred |
| CancellationProof.PassDecides | research/linux-6.12.74/xhci-ring.c:980-1043 | which TD ends up clearing the cache, which deferred, which cleared |
| CancellationMoves.InvalidateDecides | research/linux-6.12.74/xhci-ring.c:965-1070 | with no move pending, one is queued exactly if a cancelled TD is halted, or the controller stopped in one not yet cleared; and the status each TD ends with |
| CancellationMoves.StopDecides | research/linux-6.12.74/xhci-ring.c:1114-1234 | which TDs a Stop Endpoint handler leaves waiting for the move, and that it gives back all others |
| CancellationMoves.ResetDecides | research/linux-6.12.74/xhci-ring.c:1519-1551 | the same of a Reset Endpoint handler |
| CancellationMoves.WaitsForMove | research/linux-6.12.74/xhci-ring.c:1114-1234 | over every run, a TD the controller has to be moved past is not given back, nor its URB, before a Set TR Dequeue command completes for its stream |
| CancellationMoves.HitIsMovedFirst | research/linux-6.12.74/xhci-ring.c:1008-1040 | so with a TD the controller stopped in, unless a later one of its stream is moved past in its place |
| CancellationMoves.MovedIsGivenBack | research/linux-6.12.74/xhci-ring.c:1484-1516 | and when that command completes it is given back |
| EndpointDoorbells.DoorbellsRung | research/linux-6.12.74/xhci-ring.c:491-541 | every event: the doorbell is rung for the stream of a new URB, or for each stream with TDs when rings are restarted, either only if none of the four flags is set, and by nothing else |
| EndpointDoorbells.NoTdWaitsUnrung | research/linux-6.12.74/xhci-ring.c:518-541 | over every run: when nothing is pending, each queued TD has had its stream's doorbell rung since the controller last stopped, unless the endpoint was left alone by a port error or a reset that does not restart it |
| EndpointDoorbells.FlagsFollow | research/linux-6.12.74/xhci-ring.c:1114-1234 | every event: what sets and clears the stop, halted and buffer-clearing flags |
| EndpointDoorbells.ResetLeavesAlone | research/linux-6.12.74/xhci-ring.c:1519-1551 | a reset completion that leaves nothing pending leaves waiting TDs without doorbell exactly if it is not of the kind that restarts |
| EndpointDoorbells.LeftAloneIsReached | research/linux-6.12.74/xhci-ring.c:1519-1551 | a run that ends so: the first of two TDs halts its endpoint and the move past it cannot be queued |
| CancellationProof.GivebackKeepsBooks | research/linux-6.12.74/xhci-ring.c:868-889 | giving back cleared TDs keeps num_tds_done equal to the TDs on neither list |
| CancellationProof.CleanupKeepsAccounts | research/linux-6.12.74/xhci-ring.c:818-866 | one TD leaves: the count goes up by one and the URB is given back with its last TD |
| CancellationProof.SetDeqShrinks | research/linux-6.12.74/xhci-ring.c:1484-1516 | each Set TR Dequeue completion strictly shortens the cancelled list |
| CancellationProof.SetDeqDrains | research/linux-6.12.74/xhci-ring.c:1484-1516 | with nothing newly cancelled it drains in at most as many completions as it had TDs |
| CancellationProof.KillGivesAllBack | research/linux-6.12.74/xhci-ring.c:1236-1300 | at host death every accepted URB has been given back, each once, also when TDs were stranded |
| CancellationProof.RetryStrands | research/linux-6.12.74/xhci-ring.c:1114-1234 | whatever a Stop Endpoint completion reports, TDs are stranded exactly if the command is to be retried, none can be had, none other is pending and something is being cancelled |
| CancellationProof.RetryStrandsReached | research/linux-6.12.74/xhci-ring.c:1178-1221 | runs from an unused endpoint that end so, for each report that retries; the next URB rings the doorbell with the cancelled TD on the ring |
| CancellationProof.HaltStrands | research/linux-6.12.74/xhci-ring.c:915-954 | a halt strands a TD exactly if it is known, a hard reset was to clear it, the port is in order, the command could not be queued and nothing is pending |
| CancellationProof.HaltStrandsReached | research/linux-6.12.74/xhci-ring.c:915-954 | a run that ends so, with the same consequence |
| CancellationProof.BufferHoldsDoorbell | research/linux-6.12.74/xhci-ring.c:491-541 | while a hub clears its buffer a new URB does not ring the doorbell, and once it is done the doorbell is rung for it |
| CancellationProof.BufferIsBeingCleared | research/linux-6.12.74/xhci-ring.c:2188-2203 | a run in which a TD behind a hub halts its endpoint and the flag is set |
| CancellationProof.FinishHaltedKeeps | research/linux-6.12.74/xhci-ring.c:2188-2318 | a TD that halted its endpoint, with or without a buffer to clear, keeps the invariant |
| Endpoint.VirtEndpoint.TdCleanup | research/linux-6.12.74/xhci-ring.c:818-866 | in place: lists, done count and giveback of one TD |
| Endpoint.VirtEndpoint.RingDoorbell | research/linux-6.12.74/xhci-ring.c:491-515 | in place: the register is written only with none of the four flags set, and what is written then |
| Endpoint.VirtEndpoint.RingDoorbellForActiveRings | research/linux-6.12.74/xhci-ring.c:518-541 | in place: one doorbell for each stream with queued TDs |
| Endpoint.VirtEndpoint.GivebackInvalidatedTds | research/linux-6.12.74/xhci-ring.c:868-889 | in place: every cleared TD leaves the cancelled list and counts as done, the others stay |
| Endpoint.VirtEndpoint.InvalidateCancelledTds | research/linux-6.12.74/xhci-ring.c:965-1070 | in place: the pass with its status changes and the dequeue move |
| Endpoint.VirtEndpoint.FinishHaltedTd | research/linux-6.12.74/xhci-ring.c:2251-2318 | in place: the halted TD, after the hub was asked to clear its buffer |
| Endpoint.VirtEndpoint.ClearHubTtBuffer | research/linux-6.12.74/xhci-ring.c:2188-2203 | in place: the flag set unless set already, and taken back if the hub cannot be asked |
| Endpoint.VirtEndpoint.HandleHaltedEndpoint | research/linux-6.12.74/xhci-ring.c:915-954 | in place: the halted TD joins the list and the reset is queued once |
| Endpoint.VirtEndpoint.HandleCmdStopEp | research/linux-6.12.74/xhci-ring.c:1114-1234 | in place: the handler as specified |
| Endpoint.VirtEndpoint.HandleCmdSetDeq | research/linux-6.12.74/xhci-ring.c:1383-1516 | in place: the handler as specified |
| Endpoint.VirtEndpoint.HandleCmdResetEp | research/linux-6.12.74/xhci-ring.c:1519-1551 | in place: the handler as specified |
| Endpoint.VirtEndpoint.KillUrbs | research/linux-6.12.74/xhci-ring.c:1236-1300 | in place: both lists emptied |
| TdCutting.BulkCount | research/linux-6.12.74/xhci-ring.c:3569-3636 | a transfer takes at least one TRB and at most those counted and one more for each link at which a TRB is cut short, so at most one more for each link it crosses |
| TdCutting.BulkIsAligned | research/linux-6.12.74/xhci-ring.c:3569-3636 | each TRB with a link behind it ends on a packet multiple or ends the transfer; only one too short to split, whose bounce buffer could not be mapped, may not |
| TdCutting.LensCounted | research/linux-6.12.74/xhci-ring.c:3402-3436 | for any sound cutting rule the TRBs are at most those still needed and one for each cut short |
| TdCutting.CutsAtLinks | research/linux-6.12.74/xhci-ring.c:3721-3733 | a TRB is cut short only in front of a link the transfer goes on to cross |
| TdCutting.Turn | research/linux-6.12.74/xhci-ring.c:3698-3779 | one turn of that loop: the TRB continues the source, its length is the rule's, and the loop stands that many bytes further on |
| TdCutting.CutTrb | research/linux-6.12.74/xhci-ring.c:3569-3636 | a cut TRB with its bounce buffer names the same bytes, with the length and the use of the buffer xhci_align_td decides |
| TdCutting.AdvanceSg | research/linux-6.12.74/xhci-ring.c:3754-3775 | skipping the blocks used up: exactly the sent bytes are left behind |
| TdCutting.NeededIsCount | research/linux-6.12.74/xhci-ring.c:3419-3436 | what the loop needs is what was counted |
| TdCutting.CountStep | research/linux-6.12.74/xhci-ring.c:3402-3436 | a TRB that is not cut short brings the end one TRB nearer, any other at least no farther away |
| TdCutting.SplitAligns | research/linux-6.12.74/xhci-ring.c:3569-3636 | shortening to the last packet boundary aligns the TRB |
| TdCutting.PadAligns | research/linux-6.12.74/xhci-ring.c:3603-3620 | filling a bounce buffer up to a packet aligns it |
| TdCutting.PlainLen | research/linux-6.12.74/xhci.h:1252-1257 | a TRB never reaches past its 64 KB page, block or transfer |
| TdCutting.CutIsocTd | research/linux-6.12.74/xhci-ring.c:4192-4252 | an isochronous TD takes exactly the counted TRBs and its exact length, so the mismatch branch is dead |
| UpdaterRuns.LaunchedAtMostOnce | firmware/feeds/zbt-firmware-updater/src/service.go:517-568 | over every interleaving of RPC calls, duplicate workers, crashes and failures: at most one launch, of a file with the size and digest obtained for the job's release, settings kept only with the recorded permission and the recheck's; a confirmation exists exactly in phase ready |
| UpdaterAnswers.PermissionIsTheAnswer | firmware/feeds/zbt-firmware-updater/src/service.go:405-424 | over every run: a job is being validated only once the bytes downloaded have its size and digest; it is ready or flashing only if the file read back had them too, and its permission to keep settings is the image test's last answer |
| UpdaterAnswers.KeepingNeedsYes | firmware/feeds/zbt-firmware-updater/src/service.go:498-500 | over every run: where a request to flash without settings would be accepted, one that keeps them is accepted exactly if that answer was yes, and otherwise changes nothing |
| UpdaterAnswers.KeepsOnlyIfToldTwice | firmware/feeds/zbt-firmware-updater/src/service.go:517-568 | over every run: a launch keeps the settings only if both image tests answered yes |
| UpdaterAnswers.OnlyTheConfirmationDrawn | firmware/feeds/zbt-firmware-updater/src/service.go:479-500 | over every run: a request to flash is accepted only with the confirmation drawn when the job became ready |
| UpdaterAnswers.ReleaseIsInRange | firmware/feeds/zbt-firmware-updater/src/service.go:167-206 | over every run the job's release number is one the call accepts |
| UpdaterFiles.ImageIsTheDownload | firmware/feeds/zbt-firmware-updater/src/service.go:372-409 | over every run: the image of a ready job, if still there, is exactly what was downloaded, of its size and digest; that of a job being downloaded is what has come so far, never more than its size |
| UpdaterFiles.ImagesOnlyGrow | firmware/feeds/zbt-firmware-updater/src/service.go:372-400 | no step rewrites or cuts an image that exists |
| UpdaterFiles.TickTells | firmware/feeds/zbt-firmware-updater/src/service.go:391-393 | a download goes on after a progress tick only if the job was told how much has come and there is space for the rest |
| UpdaterFiles.FailureCleansUp | firmware/feeds/zbt-firmware-updater/src/service.go:243-267 | a worker that gives up ends with the failure recorded and, unless the flash was started, its image removed |
| UpdaterFiles.FlashFailureIsRecorded | firmware/feeds/zbt-firmware-updater/src/service.go:554-568 | a sysupgrade that fails is recorded, its image stays |
| UpdaterRuns.RunIsOnward | firmware/feeds/zbt-firmware-updater/src/store.go:140-157 | once FlashStarted is set it stays set and the job stays; no phase goes back; a validated digest never changes; a new job has a new ID |
| UpdaterRuns.ConfirmationIsSingleUse | firmware/feeds/zbt-firmware-updater/src/service.go:479-516 | after an accepted flash request no confirmation for that job is accepted again |
| UpdaterRuns.NothingAfterFlash | firmware/feeds/zbt-firmware-updater/src/service.go:167-242 | after the flash started neither prepare nor discard is accepted |
| UpdaterRuns.CheckedImageStays | firmware/feeds/zbt-firmware-updater/src/service.go:517-568 | between a worker's check and its launch no other step touches the image, the job or that worker |
| UpdaterRuns.ApplyKeepsInv | firmware/feeds/zbt-firmware-updater/src/service.go:318-424 | every step keeps the invariant |
| UpdaterRuns.PrepareKeepsInv | firmware/feeds/zbt-firmware-updater/src/service.go:167-206 | the prepare call |
| UpdaterRuns.DiscardKeepsInv | firmware/feeds/zbt-firmware-updater/src/service.go:225-242 | the discard call |
| UpdaterRuns.FlashKeepsInv | firmware/feeds/zbt-firmware-updater/src/service.go:479-516 | the flash call, with the confirmation consumed before the worker starts |
| UpdaterPath.AnUpdateSucceeds | firmware/feeds/zbt-firmware-updater/src/service.go:318-568 | for every job, image, permission and choice of settings it allows there is a run of both workers, each step taken once, that ends in the launch of exactly that image |
| UpdaterPath.KeepingIsRefused | firmware/feeds/zbt-firmware-updater/src/service.go:498-500 | after an image test that answered no, a request to keep settings is refused and uses nothing up; the same confirmation then starts a flash without them |
| UpdaterPath.PreparationSucceeds | firmware/feeds/zbt-firmware-updater/src/service.go:318-424 | the preparing half of it ends in phase ready with its confirmation |
| UpdaterProof.OnlyOneEngaged | firmware/feeds/zbt-firmware-updater/src/service.go:318-345 | while a worker holds the lock on a job being prepared or flashed no other worker is past its second look at it |
| UpdaterProof.PrepareFinishes | firmware/feeds/zbt-firmware-updater/src/service.go:410-423 | only the holder of the job's lock makes it ready |
| UpdaterProof.FlashStarts | firmware/feeds/zbt-firmware-updater/src/service.go:540-553 | FlashStarted is set only from flashing, under the flash lock |
| UpdaterProof.FlashLaunches | firmware/feeds/zbt-firmware-updater/src/service.go:554-557 | the launch finds the image it rehashed |
| UpdaterProof.FailingAttempts | firmware/feeds/zbt-firmware-updater/src/service.go:243-267 | up to 25 attempts to record a failure never touch a later job |
| UpdaterProof.RemovingRemoves | firmware/feeds/zbt-firmware-updater/src/service.go:243-249 | the image removed after the attempts is nobody's checked image |
| UpdaterProof.ChangeKeepsInv | firmware/feeds/zbt-firmware-updater/src/service.go:280-297 | a worker's edit under its job's lock disturbs no one |
| UpdaterProof.WorkKeepsInv | firmware/feeds/zbt-firmware-updater/src/service.go:318-568 | every worker step keeps the invariant |
| UpdaterService.Store.Open | firmware/feeds/zbt-firmware-updater/src/store.go:140-151 | in place: what the edit is shown: nothing if busy, unreadable or another job |
| UpdaterService.Store.Save | firmware/feeds/zbt-firmware-updater/src/store.go:116-138 | in place: saved or unchanged |
| UpdaterService.Store.ChangeJob | firmware/feeds/zbt-firmware-updater/src/service.go:280-297 | in place: the retry loop has the effect of its first attempt that was not busy |
| UpdaterService.Store.FailJob | firmware/feeds/zbt-firmware-updater/src/service.go:243-267 | in place: the retry loop and the removal outside the lock |
| UpdaterService.Store.FailOnce | firmware/feeds/zbt-firmware-updater/src/service.go:250-265 | in place: one attempt: phase, confirmation and whether the image is to go |
| UpdaterService.Store.DiscardJob | firmware/feeds/zbt-firmware-updater/src/service.go:225-242 | in place: refused once flashing; otherwise image and confirmation gone |
| UpdaterService.Store.PrepareJob | firmware/feeds/zbt-firmware-updater/src/service.go:167-206 | in place: refused while a job is active; otherwise old image gone, new job saved, or the error state if no worker could start |
| UpdaterService.Store.FlashJob | firmware/feeds/zbt-firmware-updater/src/service.go:479-516 | in place: accepted only in phase ready with the confirmation and, to keep settings, permission |
| UpdaterService.BusyPrefix | firmware/feeds/zbt-firmware-updater/src/service.go:280-297 | busy attempts have no effect on the answer |
| UpdaterService.FailureIsRecorded | firmware/feeds/zbt-firmware-updater/src/service.go:243-267 | what any sequence of attempts to record a failure comes to, and when the image is to go |
| UpdaterService.DiscardedIsGone | firmware/feeds/zbt-firmware-updater/src/service.go:225-242 | what a discard leaves, when it is accepted, and that a job being flashed is left alone |
| UpdaterService.PreparedIsClean | firmware/feeds/zbt-firmware-updater/src/service.go:167-206 | a request for a new job is accepted exactly when the store allows it, and leaves no image of the job before and no active job without a worker |
| UpdaterService.FlashedOnce | firmware/feeds/zbt-firmware-updater/src/service.go:479-516 | a flash is accepted exactly for a ready job with its confirmation and, to keep settings, permission; it uses the confirmation up either way |
| UsbRuns.EveryBufferInOnePlace | research/linux-6.12.74/usbnet.c:444-468 | over every interleaving each buffer taken is on exactly one of rxq, txq, done, rxq_pause, the deferred anchor or released, released once, and the unknown-state branch is never reached |
| UsbReceive.GoodOnesGoUp | research/linux-6.12.74/usbnet.c:1557-1579 | over every interleaving: a received buffer is put by or handed up only if its reception ended well, and once; out of the driver, it went up exactly if it was good, not rejected by the stack and not purged: all others were freed |
| UsbReceive.FailedOnesAreFreed | research/linux-6.12.74/usbnet.c:609-661 | over every interleaving the bottom half frees a failed reception whatever the stack would say, and lets the stack decide on a good one |
| UsbReceive.BlockedNeverAgain | research/linux-6.12.74/usbnet.c:616-650 | over every interleaving the URB of a reception that ended in a shutdown, stall or bus error is never submitted again |
| UsbReceive.OthersGoRound | research/linux-6.12.74/usbnet.c:676-689 | over every interleaving any other reception's URB is posted again by a running device exactly if no unlink picked it, and let go otherwise |
| UsbOrder.FirstInFirstOut | research/linux-6.12.74/usbnet.c:444-468 | over every interleaving completed buffers, packets put by and deferred transmissions are each taken up in the order they came |
| UsbRuns.EveryUrbFreedOnce | research/linux-6.12.74/usbnet.c:494-567 | each URB is freed once, with its last reference, and never while host controller, callback, unlink or buffer may use it |
| UsbRuns.SubmissionsAreClean | research/linux-6.12.74/usbnet.c:600-689 | no submission of a URB that an unlink picked, that is in flight or that was freed |
| UsbRuns.UnlinkedNeverFlies | research/linux-6.12.74/usbnet.c:600-689 | a URB picked by an unlink and back from the host controller never goes there again |
| UsbRuns.MarkDooms | research/linux-6.12.74/usbnet.c:731-774 | what an unlink marks is the URB at work for that buffer, even when its callback has already begun |
| UsbRuns.FlightGrowsBySubmits | research/linux-6.12.74/usbnet.c:494-567 | only the listed submissions put URBs in flight |
| UsbRuns.StaleStateHidesFromUnlink | research/linux-6.12.74/usbnet.c:1942-1972 | from every reachable state with a deferred transmission: submitted at resume it flies, and a whole unlink of the transmit list picks it exactly if its leftover state is not the unlink state |
| UsbRuns.StaleStateIsReached | research/linux-6.12.74/usbnet.c:1942-1972 | a run from the start after which it flies and an unlink finds nothing to pick |
| UsbRuns.ApplyKeepsInv | research/linux-6.12.74/usbnet.c:1517-1579 | every step keeps the ownership invariant |
| UsbOwnership.XmitKeepsInv | research/linux-6.12.74/usbnet.c:1378-1520 | transmission, each way it can end |
| UsbOwnership.AllocKeepsInv | research/linux-6.12.74/usbnet.c:1523-1543 | a receive URB allocated and posted or given up |
| UsbOwnership.GiveBackKeepsInv | research/linux-6.12.74/usbnet.c:600-606 | the host controller calls the completion function |
| UsbOwnership.SortKeepsInv | research/linux-6.12.74/usbnet.c:609-661 | rx_complete decides from the status whether the buffer keeps the URB |
| UsbOwnership.RxOffKeepsInv | research/linux-6.12.74/usbnet.c:676-676 | defer_bh from rxq |
| UsbOwnership.EndKeepsInv | research/linux-6.12.74/usbnet.c:678-689 | resubmission or release of the URB |
| UsbOwnership.TxOffKeepsInv | research/linux-6.12.74/usbnet.c:1273-1324 | tx_complete and defer_bh from txq |
| UsbOwnership.DropKeepsInv | research/linux-6.12.74/usbnet.c:766-769 | a callback's or unlink's reference goes |
| UsbOwnership.MarkKeepsInv | research/linux-6.12.74/usbnet.c:731-765 | one round of unlink_urbs under the lock |
| UsbOwnership.BottomKeepsInv | research/linux-6.12.74/usbnet.c:1557-1579 | one buffer off the done list |
| UsbOwnership.UnpauseKeepsInv | research/linux-6.12.74/usbnet.c:700-726 | one buffer off the pause list |
| UsbOwnership.WakeKeepsInv | research/linux-6.12.74/usbnet.c:1942-1972 | one deferred transmission submitted or dropped |
| UsbOwnership.TouchedIsEnough | research/linux-6.12.74/usbnet.c:444-468 | a step that is right for the one buffer, URB and task it touches keeps the invariant for all |
| UsbNet.Device.DeferBottomHalf | research/linux-6.12.74/usbnet.c:444-468 | in place: the buffer moves to the done list and its old state is returned |
| UsbNet.Device.RxSubmitUrb | research/linux-6.12.74/usbnet.c:494-567 | in place: posted with a new buffer, or both released |
| UsbNet.Device.RxAllocSubmit | research/linux-6.12.74/usbnet.c:1523-1543 | in place: at most ten rounds, stopping at the queue length or the first failure |
| UsbNet.Device.RxComplete | research/linux-6.12.74/usbnet.c:600-689 | in place: the buffer by its status, the URB kept, posted again or released |
| UsbNet.Device.Xmit | research/linux-6.12.74/usbnet.c:1378-1520 | in place: queued, deferred or dropped |
| UsbNet.Device.BottomHalfOne | research/linux-6.12.74/usbnet.c:1557-1579 | in place: one buffer by its state |
| UsbNet.Device.BottomHalf | research/linux-6.12.74/usbnet.c:1557-1579 | in place: the done list is drained |
| UsbNet.Device.Resume | research/linux-6.12.74/usbnet.c:1942-1972 | in place: the anchor is drained |
| UsbNet.Device.UnlinkUrbs | research/linux-6.12.74/usbnet.c:731-774 | in place: the walk from the head until all are marked; returned is the number of buffers that were not and whose URB can be unlinked |
| UsbNet.Device.FirstLinkedOn | research/linux-6.12.74/usbnet.c:743-748 | in place: the first buffer not marked |
| UsbNet.PiecesAddUp | research/linux-6.12.74/usbnet.c:600-689 | the three pieces of rx_complete that others may come between add up to the whole function |
| UsbNet.RefillsUpTo | research/linux-6.12.74/usbnet.c:1523-1543 | refilling makes the receive list as long as asked for, as far as rounds go well one after another, and tries nothing after one that fails |
| UsbNet.UnlinkedMarksAll | research/linux-6.12.74/usbnet.c:731-774 | afterwards every buffer on the list is marked and nothing else about buffers and lists has changed |
| UsbNet.UnlinkedKeepsCounts | research/linux-6.12.74/usbnet.c:731-774 | as long as the URBs are alive no reference count has changed |
| Qmap.RoundTrip | research/linux-6.12.74/qmi_wwan.c:98-118 | any number of packets of 1 to 65535 bytes written by registered devices and received in one buffer are delivered to the same devices unchanged, in order, and nothing else is |
| Qmap.FramesAreReceived | research/linux-6.12.74/qmi_wwan.c:162-227 | any frames, padded, control, unregistered or not IP, deliver exactly what they carry; if the system runs out, a beginning of it |
| Qmap.AnyBufferIsItsFrames | research/linux-6.12.74/qmi_wwan.c:162-227 | any buffer at all delivers exactly what its whole frames carry |
| Qmap.SlicesAreOrdered | research/linux-6.12.74/qmi_wwan.c:162-227 | on any buffer the packets delivered are non-empty slices inside it, in order |
| Qmap.OrderedIsDisjoint | research/linux-6.12.74/qmi_wwan.c:162-227 | and no two of them overlap |
| Qmap.WillingReachesEnd | research/linux-6.12.74/qmi_wwan.c:169-226 | without failures the loop reaches the end of such a buffer |
| Qmap.LengthReadsBack | research/linux-6.12.74/qmi_wwan.c:98-108 | the four header bytes, the length high byte first; it tells the length exactly if the packet is below 64K |
| Qmap.FateOfFrame | research/linux-6.12.74/qmi_wwan.c:174-222 | what one frame comes to, and why |
| Qmap.HandedExactly | research/linux-6.12.74/qmi_wwan.c:174-222 | the frame at an offset is handed up exactly if it is no control frame, has payload beyond its padding, is for a registered device, is IPv4 or IPv6 by its first nibble, and nothing runs out; with which length, protocol and device |
| Qmap.FirstFrameIsEncoded | research/linux-6.12.74/qmi_wwan.c:170-175 | a frame read from a buffer encodes back to its bytes |
| Qmap.FindDevFinds | research/linux-6.12.74/qmi_wwan.c:139-155 | the device found has the ID, and none is missed |
| Qmap.RxFixup | research/linux-6.12.74/qmi_wwan.c:162-227 | the loop delivers and returns what the specification says |
| Qmap.SkBuff.StartXmit | research/linux-6.12.74/qmi_wwan.c:98-118 | in place: the header is pushed in front of the packet |
| Qmap.MuxTable.FindDevice | research/linux-6.12.74/qmi_wwan.c:139-155 | the walk over the upper devices |
| Qmap.MuxTable.AddMux | research/linux-6.12.74/qmi_wwan.c:409-442 | accepted exactly for a free ID from 1 to 254; IDs stay unique and the flag tells whether there are devices |
| Qmap.MuxTable.DelMux | research/linux-6.12.74/qmi_wwan.c:449-475 | exactly the one device goes, and the flag with the last |
| Qmap.DropsOne | research/linux-6.12.74/qmi_wwan.c:467-471 | the list without the device keeps IDs unique |
| QmiTlv.GetTlv | research/qmodem-v3.0.2/QMIThread.c:75-94 | the loop returns the first record of the type, or the record at the position |
| QmiTlv.LookFinds | research/qmodem-v3.0.2/QMIThread.c:75-94 | every record written is found, whole, by its position and the first of its type by its type; what was not written is not found |
| QmiTlv.FirstOfIsFirst | research/qmodem-v3.0.2/QMIThread.c:84-89 | the first record of a type is the first |
| QmiTlv.StaysInsideExactly | research/qmodem-v3.0.2/QMIThread.c:80-91 | on arbitrary input the walk stays inside the declared length exactly when the records' own lengths do |
| QmiTlv.OffsetStep | research/qmodem-v3.0.2/QMIThread.c:90-92 | where each record of an encoding starts |
| QmiRequest.WrittenIsFound | research/qmodem-v3.0.2/QMIThread.c:181-271 | each record of a request is found by type and position with exactly the bytes written; types and positions not written are not |
| QmiRequest.LengthsAgree | research/qmodem-v3.0.2/QMIThread.c:103-133 | the two nested lengths of a message agree with its bytes; service, transaction and type read back as given |
| QmiReadBack.StartReadsBack | research/qmodem-v3.0.2/QMIThread.c:181-271 | looked up by type in the bytes of a start-network request: technology, name, user, password, authentication, family and index, with the operator's credentials for a cdma modem that has none |
| QmiReadBack.ModifyReadsBack | research/qmodem-v3.0.2/QMIThread.c:510-567 | the same of a modify-profile request: profile, address type, name and credentials |
| QmiRequest.TlvsAreDistinct | research/qmodem-v3.0.2/QMIThread.c:181-271 | no request writes a type twice, nor any type outside its set |
| QmiRequest.RoomForTerminator | research/qmodem-v3.0.2/QMIThread.c:510-567 | a modify request fits the buffer exactly if its bytes do and it does not end in a string at the very last byte |
| QmiRequest.TerminatorOverruns | research/qmodem-v3.0.2/QMIThread.c:510-567 | a profile whose message takes all 256 bytes: run on a larger buffer, the same code writes byte 257 whatever was there, and no byte behind it |
| QmiRequest.QmiThread.NextTransaction | research/qmodem-v3.0.2/QMIThread.c:96-101 | from 1 to 65535, never the same twice in a row |
| QmiRequest.QmiThread.ComposeQMUXMsg | research/qmodem-v3.0.2/QMIThread.c:103-133 | in place: header, records and lengths are those of the specified message |
| QmiRequest.WdsStartNwInterfaceReq | research/qmodem-v3.0.2/QMIThread.c:181-271 | in place: exactly the specified records, default credentials included |
| QmiRequest.WdsModifyProfileSettingsReq | research/qmodem-v3.0.2/QMIThread.c:510-567 | in place, in a buffer of any size it fits: exactly the specified records, a last string's terminator behind them, and no byte further on |
| QmiRequest.CopyString | research/qmodem-v3.0.2/QMIThread.c:56-60 | the string and its terminator, nothing else |
| QmiRequest.PutString | research/qmodem-v3.0.2/QMIThread.c:223-230 | a string record appended to those before |
| QmiRequest.PutByte | research/qmodem-v3.0.2/QMIThread.c:205-213 | a one-byte record appended to those before |

## Left out

- RingFifo.GrowKeepsInv: assumes the controller does not rest on the link just ahead of enqueue; `GrowUnderLaggingController` shows why.
- CancellationProof.EndpointRuns: assumes valid streams, a living host and memory for every command; the two ways in which missing memory matters are stated exactly. The result of queueing a retried Stop Endpoint command is not looked at in the code; here it succeeds.
- CommandSlots.QueueKeepsMatched: assumes a slot was reserved for a must-succeed command; `UnreservedFillsRing` shows the other case.
- CommandSeen.CommandsAreExecuted: the controller reports a command only after taking it; a command ring stopped and restarted elsewhere is left out.
- MoveDequeue.PastCancelledTd: for rings without streams.
- RingCancel.FifoOverCancellations: TDs are cancelled and the controller moved while none is being written, as the lock ensures; which TRBs were executed and which only passed is not told apart.
- RingTds.TdsOverRuns: for rings that carry chain bits over to links; where links stay chained instead, `LinksOverRuns`, `WriteLeavesLinks` and `PrepareChainsLink` say what holds. There the chain bits links are allocated with (xhci-mem.c) are not part of this model.
- RingTdCancel.TdsOverCancellations: the TRBs turned into no-ops are those of whole TDs, as the callers pass them.
- RingFetch.TransferIsSeen: for a transfer that fits, with the bounce buffers apart from each other and from the blocks; which segment's bounce buffer a TRB uses is a parameter, by the number of the TRB.
- RingCounts.FifoOverCountedRuns: a ring that was empty with enqueue on a link counts for what it holds, since no expansion is asked for there.
- ActualLength.BulkLengthIsProgress: given that only no-ops or links lie between dequeue and the TD.
- CommandRing.CommandQueue.HandleCmdCompletion: with an empty list the model answers `NoCommand`; what the code then takes for a command is not modelled. A stopped command ring and the command timer are left out.
- RingFifo.FifoOverRuns: each TRB is written with room for one more, which the code does not check at that point; `WriteNeedsRoom` shows that exactly this keeps the ring, `UrbFits`, `FifoOverCountedRuns` and `BulkFitsExactly` when it is given, `OverfillIsReached` that it may not be. TRBs are written whole; the order of the stores to one TRB, memory barriers and DMA mapping are not modelled.
- Ring expansion itself (xhci-mem.c) and URB dequeue (xhci.c) are not part of this model; they appear as contracts: fresh, software-owned segments spliced in after the enqueue segment, and cancelled TDs entered only with a stop command pending or one of the three flags set.
- EndpointDoorbells.NoTdWaitsUnrung: says nothing of an endpoint left alone; when a Stop Endpoint command fails on an endpoint that is not yet running, the controller is taken to be about to run, as the driver takes it.
- Register and doorbell writes appear only as a record of stream and statuses at the time; port status, root-hub resume, vendor commands, the Etron no-op quirk, immediate-data TRBs and event-ring handling are left out.
- TRB fields other than kind, length, chain, interrupt and cycle bit, and 32-bit widths of positions and lengths, are left out: positions are indices.
- TransferRing.Ring.QueueBulkTx: whether mapping a bounce buffer succeeds is a parameter, the TRB for a zero-length packet is left out, and memory is a function from addresses to bytes.
- UpdaterRuns.LaunchedAtMostOnce: assumes that lock files can be opened and that new job IDs and process IDs are new; release metadata, image tests, SHA-256 and spawning are parameters.
- The updater's error texts, catalog filters and the checks on directories and permissions are left out; a retry loop over a busy lock is one step except in `fail`, whose attempts are separate steps.
- UsbOwnership: the device flags that decide whether a URB is posted or resubmitted are parameters of the steps, so every setting of them is covered; as is what the network stack makes of a received packet; queue limits, throttling, statistics and scatter lists are left out, as are minidrivers that build packets of their own.
- UsbNet.Device.UnlinkUrbs: whose URB can be unlinked is a parameter; the in-place loop runs without completions in between; the interleaved rounds are steps of `UsbOwnership`.
- Qmap.RoundTrip: padding of received frames and failures of the network stack are in `FramesAreReceived`; registering and naming network devices is a parameter.
- QmiRequest.WrittenIsFound: for requests that fit the 256-byte buffer; QCQMUX.h is not part of this model, and the sizes of the packed headers are those of the QMI and QMUX message formats.
- QmiTlv.GetTlv: a walk that leaves the declared length is reported as such; what the code then reads is not modelled.
- The other QMI requests, device access, DHCP scripts, the speed test, the LuCI views and the release tools are left out: input and output, or easy members.
