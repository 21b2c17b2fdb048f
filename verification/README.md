# A flash translation layer, verified

The repository is a Linux block driver with a simulated NAND device behind it: requests are cut into
sub-requests of one 2048-byte page, the pages are mapped to physical pages that are only ever written in order,
full blocks are collected by relocating their live pages and erasing them, and every chip works on one command at
a time. This project models that driver, for every geometry (channels x chips x dies x planes x blocks x pages),
and proves what it keeps true over every run.

`dafny verify dfyconfig.toml` checks everything.

## How it is laid out

* **One chip.** `Lists`, `Flash` (blocks, planes, page allocation, invalidation, erasing, the choice of a victim),
  `Sectors` (bitmaps and what a transfer moves), `Layout` and `Chip` (the driver's record of a chip, its queues and
  the lists of the requests being cut, the page map, the NAND chip behind it, and each atomic step as a function).
  `ChipInv` is the invariant; `ChipWrite`, `ChipRead`, `ChipDispatch`, `ChipTake` (dispatch), `ChipCommit`,
  `ChipFinish`, `ChipErase` (completion), `ChipCount`, `ChipCheck` (the collection check and its space bound) and
  `ChipHost` (submissions and the timer) prove that each step keeps it. `ChipRuns` puts the steps together into runs.
* **What the runs of a chip promise.** `ChipTheorems` (the content is a store of the completed writes), `ChipPlain`
  (when nothing is lost, and what a hole loses), `ChipOrigin` (nothing is invented or altered on the way),
  `ChipOrder` (nothing is lost either, and what order it keeps), `ChipEarly` and `ChipPrompt` (what a read brings
  from the page it was given when it was made), `ChipRequests` (what a caller can do so that it always brings what
  it should), `ChipWaiting` (waiting writes), `ChipProgress`, `ChipSafety` and `ChipRelocations` (the collector),
  `ChipDrain` (every request ends).
* **Runs written out**, on chips that the driver's set-up makes: `ChipScript` (the means), `ChipSpoilt` (a read that
  brings another page's bytes), `ChipHole` (a write that is mapped but not transferred), `ChipCramped` (a device whose
  search for a free block does not end).
* **Addresses and capacity.** `Arith`, `Addressing`: page numbers as mixed-radix numerals, striping, and why every
  geometry leaves room to collect.
* **The device.** `Counters` (the counters of dies, chips and channels), `Device`, `DeviceRuns`, `DeviceTheorems`:
  chips behind shared channels; each chip's part of a device run is a chip run. `DeviceRequests` states the caller's
  theorem for the device, and `EndToEnd` joins it to `Requests`.
* **The driver as code.** `Driver` (class `ChipInfo`) and `DeviceDriver` (class `Usbssd`): the fields the driver
  updates in place and its loops, each method proved to do what the step functions say and to keep the invariant.
* **The simulated NAND.** `Chunks`, `Nand` (class `ChipHw`): the state machine and the copy loops over chunks of
  memory, proved to do to the bytes what the chip model does to its pages.
* **Requests and memory.** `Bitmaps`, `Requests` (cutting, scatter, gather, the end of a request), `Pool` (the two
  intrusive doubly linked lists) and `WriteQueue` (the tail pointer of the list of waiting writes).

Submitting is not one step, as it is not one critical section in the code: the sub-requests of a request are made
one by one (each read is given the page the map names at that moment, src/sub_request.c:55-59), then its writes are
queued as one list and dispatched (src/request.c:116-118), and only then its reads. Every other step may come in
between. Each sub-request and each page carries some history that no branch looks at: what the host handed over,
how often a page got new data, and whether a read fetched its data while its page still had the age it had when the
read was made.

What the chip is proved to hold, sector by sector, is exact over every run, losses included: a mapped sector that is
lost has no value in the store (`ChipTheorems.RunContent`). It is lost in two ways only, and `ChipPlain.CleanIff` says
exactly when neither happens; then the device is a plain store (`ChipPlain.RunIsPlain`).

* A page whose mapped sectors have a hole: a transfer stops at the first hole (`Sectors.LandsIffOneRun`,
  `Sectors.HoleExample`, `ChipPlain.HoleLoses`).
* A companion read whose page got new data between the lookup at src/sub_request.c:55-56 and its dispatch. A read is
  whole, and brings what its page held when it was made, exactly when that does not happen
  (`ChipEarly.ReadDelivers`). Only a host write that is sent between the making and the queueing of a read can spoil
  it (`ChipEarly.ShelteredUntouched`, `ChipEarly.QueuedReadDelivers`): relocations, erases and collection checks
  cannot, because a relocation only programs planes that are being collected, and a queued read holds up host writes.

One request is enough to spoil its own companion: on a device of 20 blocks of 2 pages as the driver sets it up, a
request for part of page 0 and the whole of pages 1 to 3 sends its three whole writes while the companion of page 0 is
made but not queued, the collector relocates page 0 and erases its block between them, and the third write lands where
the companion is about to read (`ChipSpoilt.CompanionSpoilt`; `ChipSpoilt.RequestIsCut` shows that it is what
src/request.c:34-114 makes of one request). What a caller can check before it submits is proved to shut all of this
out: a request that starts when nothing of the host is on the chip, and that either covers nothing of what is mapped
there or makes no read there (each request inside one page does the one or the other), loses nothing
(`ChipRequests.RequestDelivers`), and with such requests one at a time the chip is a plain store
(`ChipRequests.OneByOneIsPlain`).

Nothing waits for ever: as long as anything is made, queued, out or being collected some step of the driver or of the
NAND chip is allowed and brings the end nearer, and without new submissions only a bounded number of steps is left
(`ChipDrain.NoDeadlock`, `ChipDrain.RunDrains`, `ChipDrain.RunEnds`). All this asks that a tenth of a plane is two
blocks (`Addressing.GeometryIsRoomy`). With one it fails: `ChipCramped.SearchHangs` writes the nine logical pages
of 10 blocks of one page and then one of them again, and the loop at src/command.c:586-590 has no free block to find.

Two parameters keep the model general. `split` says whether other critical sections may run between the completion
of a command and its collection check (src/command.c:361 and 372); the space bound then needs one more page per
block. An erase may leave anything in the block; where that matters, theorems ask that it leaves the bytes alone, as
the simulated chip does.

Other places where the code is right only under a condition, which is proved exactly: the copy loops of the simulated
chip (`Chunks.CopyRightIffOneChunk`), the tail pointer of the write queue (`WriteQueue.TakeSoundIff`; with one request
at a time nothing is lost by it, `WriteQueue.OneAtATimeLosesNothing`, with two something can be,
`WriteQueue.TwoAtATimeLoses`), the search of the pool that cannot miss (`Pool.Allocator.Find`) and the limit that the
page-number decoder checks (`Addressing.GuardRightIffNoReserve`). At the last the model departs from the code: the
chip model has no decoder, and the driver objects are given a limit that accepts every page, since for a page that
its limit rejects the code goes on with a location that it did not set.

## Model

| member | source | states |
|---|---|---|
| ChipTheorems.RunContent | src/command.c:167-239 | over every run of a chip, whatever is interleaved, every mapped sector that is not lost reads back through map and NAND as the last completed host write of it; which sectors are lost is part of the store, exactly |
| ChipPlain.RunIsPlain | src/command.c:312-380 | while every completed write left a page without holes and had its companion in time, the device gives back exactly the sectors written so far, each with the bytes last written |
| ChipRequests.OneByOneIsPlain | src/main.c:133-134 | and for every run of requests one at a time, each of which covers nothing of what is mapped on the chip or makes no read there (as each inside one page does), with no page that gets a hole: the caller needs no other condition |
| ChipRequests.RequestDelivers | src/request.c:116-121 | the caller's theorem for one such request: whatever else goes on, every read of it brings what its page held when it was made, and no write of it goes out without the old sectors it has to carry |
| ChipRequests.RequestIsTimely | src/request.c:34-121 | because every write that such a request makes next to a read in hand waits for a read in hand itself |
| ChipRequests.HandStep | src/command.c:426-462 | and as long as that is so, step by step, no host write is sent next to a read in hand |
| ChipRequests.AwaitStep | src/sub_request.c:61-87 | a write that waits for a read in hand goes on waiting whatever happens on the chip, until that read is queued |
| ChipPrompt.PromptIsPlain | src/sub_request.c:33-70 | the same for every run in which no host write is sent while a read is made but not queued and no page has a hole: companions are then never late |
| ChipPlain.CleanIff | src/sub_request.c:72-87 | nothing is marked lost in the store with a completing write, whatever the page held, if and only if the page then has no hole and its companion, if it needed one, came in time |
| ChipPlain.WriteReadsBack | src/command.c:31-51 | from dispatch to completion a host write makes its page read back as what was on the new physical page, overwritten by what was transferred |
| ChipPlain.HoleLoses | src/command.c:37-46 | so a sector above a hole of (mapped and written) reads back as whatever the physical page held before, though the map claims it; there is such a sector exactly when the bitmap is not one run |
| ChipTheorems.ContentStep | src/command.c:608-712 | step by step: relocations, erases that destroy their block, dispatches, submissions and collection checks leave the content alone; a completed host write settles on its page |
| ChipTheorems.ContentIsStore | src/command.c:218-239 | in every reachable state each mapped sector that is not lost reads back from the page the map names as the last completed write of it |
| ChipEarly.ReadDelivers | src/sub_request.c:55-59 | a host read that is out with its data was asked for by an earlier read of the same page and the same sectors, or is the companion of a write that left mapped sectors out; it went to the page the map named then, and brings every sector that page held then whenever the page got no new data in between; exactly then its data is marked whole, and otherwise it brings what the page holds by now |
| ChipEarly.QueuedReadDelivers | src/sub_request.c:8-20 | a read between whose making and queueing no host write is sent brings it, relocation and erase of its page included, wherever the collector stood and whatever happens after the queueing |
| ChipEarly.ShelterStep | src/command.c:714-754 | a page that is programmed, being erased, or in a plane that is not collected stays so and gets no new data, in every step that sends no host write |
| ChipEarly.ShelteredUntouched | src/command.c:714-754 | and so over any stretch of a run in which no host write is sent |
| ChipEarly.AgeCounts | src/simulateNAND.c:62-116 | a page's age goes up by one exactly when it is programmed or an erase overwrites it |
| ChipPrompt.PromptReads | src/sub_request.c:33-70 | when no host write is sent while a read is made but not queued, every host read and every companion brings what its page held when it was made |
| ChipPrompt.RunWhole | src/sub_request.c:61-67 | and then no write ever goes out with old sectors missing |
| ChipSpoilt.CompanionSpoilt | src/request.c:116-121 | otherwise it can happen, on a chip as the driver sets it up: when nothing of the host is on the chip one request writes a sector of page 0 and the whole of pages 1 to 3, and the companion read of page 0 brings the bytes just written to page 3 |
| ChipSpoilt.RequestIsCut | src/request.c:34-114 | what that run submits is what one request for 13 sectors from sector 3 on is cut into |
| ChipScript.DriversConfig | src/command.c:876-922 | its chip is the only one of a device of 20 blocks of 2 pages: 36 logical pages, threshold 4, and roomy |
| ChipHole.HoleRun | src/command.c:37-46 | a run with a hole: sector 0 is mapped, sector 3 is written and waits for its companion, the write goes out with both, and then the map claims sector 3 but the device gives back what the blank page held |
| ChipTheorems.WriteIsWhole | src/sub_request.c:72-87 | a host write being programmed carries the union of the mapped sectors and its own: its own sectors hold the host's bytes, and unless its companion was late all others the old bytes |
| ChipTheorems.WaitingStays | src/command.c:426-462 | a write that waits for its companion read is never taken from the queue |
| ChipTheorems.ReadyOvertakes | src/request.c:116-121 | a request that writes part of one page and all that is mapped of another leaves the waiting write before the ready one while the companion is still in hand, and the next to be taken is the last of the queue |
| ChipSpoilt.LastIsTaken | src/command.c:426-462 | a run, on a chip as the driver sets it up, that gets to such a queue and may dispatch |
| ChipWaiting.WaitersAccompanied | src/sub_request.c:61-67 | in every state of every run, each write that waits has its companion read in hand, queued or out, so none waits for nothing |
| ChipOrigin.StepCarries | src/sub_request.c:33-70 | no step invents or alters a host sub-request; a read that is made has the page and sectors asked for (for a companion: the mapped sectors) and the location the map names |
| ChipOrigin.WasMade | src/sub_request.c:33-70 | whatever read or write is in hand, queued or out at any point of a run was made earlier in it, with the same page, sectors, location and data |
| ChipOrigin.FinishedWasSubmitted | src/command.c:312-380 | every write that completes was submitted by the host earlier in the run, with the same page and data |
| ChipOrder.StepKeepsAll | src/command.c:820-849 | no step loses one either: reads join one line at its end when they are made and leave it at its head when they are finished, through hand, queue and chip; of the writes the first of the queue that does not wait is sent, and the others keep their order |
| ChipOrder.ReadsInOrder | src/command.c:714-754 | over every run the reads finished, the one that is out, those queued and those in hand are, one behind the other, exactly the reads ever made |
| ChipOrder.WritesConserved | src/command.c:426-462 | over every run so many writes of each kind are finished, out, queued or in hand as were made |
| ChipOrder.ChecksDue | src/command.c:367-375 | a collection check becomes due exactly when a host write completes, for the plane it was written to |
| ChipOrder.NumbersDrawn | src/command.c:608-712 | every command that is queued, for the host, a relocation or an erase, carries the number drawn for it |
| ChipEarly.StaysIntact | src/command.c:561-597 | a programmed page keeps its data through every step that does not erase its block |
| ChipRuns.StepKeeps | src/command.c:714-775 | every step that may happen finds what it looks for and keeps the whole invariant |
| ChipRuns.RunKeeps | src/command.c:312-380 | the invariant holds in every state of every run from a blank chip |
| ChipRuns.RunExtends | src/command.c:312-380 | a step that may happen is defined in every state of every run, and extends it |
| ChipDrain.NoDeadlock | src/command.c:714-775 | while anything is made, queued, out or being collected, some step of the driver or of the NAND chip may happen and leaves less to do |
| ChipDrain.StepDrains | src/command.c:312-380 | and every step but a submission does nothing or leaves less to do, by a measure of what is in hand, queued, out, to be checked and to be collected |
| ChipDrain.RunDrains | src/command.c:312-380 | so over any stretch of a run without submissions only as many steps change anything as the measure says |
| ChipDrain.RunEnds | src/request.c:161-222 | and from every state of every run such steps, as many at most, lead to a state in which nothing of the host or the collector is left; by then every read ever made has been out with its data and finished, once and in the order of making, and every write ever made has been finished, once |
| ChipRuns.InitInv | src/command.c:876-1062 | a chip as set-up makes it satisfies the invariant |
| ChipRuns.BlankIsInit | src/command.c:876-1062 | every configuration has a blank chip to start from |
| ChipSafety.MapAndPagesInverse | src/command.c:218-239 | mapped logical pages have distinct physical pages in their own plane that record them and their bitmap, and every live page is the current page of the logical page it names |
| ChipSafety.BurningIsBlank | src/command.c:561-597 | the page being programmed is inside the geometry and not live |
| ChipSafety.BlocksCounted | src/command.c:561-597 | free, valid and invalid of every block mean what they say and add up to the block; only the active block is partly written and it has a free page |
| ChipSafety.AppendOnly | src/command.c:561-597 | a block's write position goes up by one exactly for the page being sent to be programmed, back to 0 when its erase completes, and never changes otherwise |
| ChipSafety.RoomBeforeProgram | src/command.c:584-592 | before every program the unguarded search for a free block ends on a fully free one; with a threshold of three blocks more than a block's worth of pages is free |
| ChipSafety.NoLiveDataErased | src/command.c:608-663 | from its release until it completes, the block of an erase has free 0, valid 0, invalid P, no live page and no map entry into it |
| ChipSafety.EraseCountersNatural | src/command.c:167-192 | the blind subtraction of a block from the plane's invalid count never underflows |
| ChipSafety.CountersNatural | src/command.c:561-582 | a plane's counters are never negative and always add up to its pages |
| ChipSafety.MarkedExactly | src/command.c:516-557 | a plane is marked exactly when one erase command for it is queued or out, and never two |
| ChipSafety.VictimStays | src/command.c:516-557 | the victim of a marked plane does not change until its erase completes, which alone clears the mark |
| ChipSafety.RelocationAlone | src/command.c:608-633 | while a relocation is under way the next dispatch on its chip is its own next half or, at the end, the erase; until its write half is queued the map names the page it reads |
| ChipRelocations.RelocationNamed | src/command.c:608-633 | from the queueing of its read until its program has completed, in every state, the map names the victim's page being moved with the bitmap carried, no host write is out, and what is programmed is outside the victim |
| ChipSafety.SendAccepted | src/command.c:87-122 | whatever is dispatched finds the NAND chip in a state that accepts it, and the data half of a read names the page that was latched |
| ChipSafety.CompletionFindsItsCommand | src/command.c:124-165 | when a chip reports, its queue starts with the one command that is out, which has the reported number and the right operation |
| ChipSafety.OneCommandOut | src/command.c:714-751 | at most one command is out or half way through a read, and none on an idle chip |
| ChipProgress.CollectionEnds | src/command.c:608-712 | every visit of the collector sends the erase or leaves less to do, no other step adds work, and the head of the erase queue leaves it only when its erase completes |
| ChipProgress.VisitsBounded | src/command.c:608-712 | over a run, at most 4P + 4 visits of the collector pass before an erase goes out |
| ChipRelocations.RelocationsBounded | src/command.c:644-711 | and at most P relocations are started before it |
| ChipTake.VisitCase | src/command.c:608-712 | a visit of the collector does one of four things, with the state each finds and leaves: it turns a finished read into its write, finds the victim all stale, releases the erase, or starts the next live page |
| ChipTake.VisitPoised | src/command.c:608-712 | every visit of the collector finds something to send, ready to be sent |
| ChipTake.DispatchKeeps | src/command.c:714-775 | dispatch on an idle chip keeps the invariant |
| ChipWrite.SendWriteKeeps | src/command.c:31-51 | allocating a page and programming it keeps the invariant |
| ChipRead.SendReadKeeps | src/command.c:59-64 | the address half of a read keeps the invariant |
| ChipRead.SendDataKeeps | src/command.c:66-85 | the data half of a read keeps the invariant: the buffer then holds the page's content |
| ChipDispatch.SendEraseKeeps | src/command.c:53-57 | sending an erase keeps the invariant whatever it leaves in the block |
| ChipCommit.EndProgramKeeps | src/command.c:321-326 | completing a program, of the host or of the collector, keeps the invariant |
| ChipFinish.EndReadAddrKeeps | src/command.c:328-340 | completing the first half of a read keeps the invariant |
| ChipFinish.EndReadDataKeeps | src/command.c:342-346 | completing a read, with the merge into a waiting write, keeps the invariant |
| ChipErase.EndEraseKeeps | src/command.c:348-355 | completing an erase keeps the invariant |
| ChipCheck.CheckKeeps | src/command.c:516-559 | the collection check keeps the invariant |
| ChipCheck.CheckRoom | src/command.c:516-559 | after the check the plane has room again: it is above the threshold, or it has no victim and is nearly clean, or the victim it now has will free enough |
| ChipCheck.CollectsExactly | src/command.c:516-557 | collecting starts exactly when the plane is not being collected, is at or below the threshold and has a full block with a stale page, with the first of those that have most, as the last erase of the queue |
| ChipCount.ValidBound | src/command.c:788-795 | a plane has no more valid pages than logical pages striped onto it, plus one in flight |
| ChipCount.StaleBound | src/command.c:528-536 | a plane whose full blocks have no stale page, or one each, has few stale pages in all |
| ChipHost.SubmitWriteKeeps | src/sub_request.c:33-70 | making a write, and the companion read it may need, keeps the invariant, holes or not |
| ChipHost.SubmitReadKeeps | src/sub_request.c:33-70 | making a read of a mapped page keeps the invariant |
| ChipHost.QueueWritesKeeps | src/command.c:820-849 | queueing the writes of a request keeps the invariant |
| ChipHost.QueueReadsKeeps | src/command.c:820-849 | and so does queueing its reads (that all of them are queued, in order, is `ChipOrder.StepKeepsAll`) |
| ChipHost.FireKeeps | src/simulateNAND.c:25-43 | the NAND chip's timer keeps the invariant |
| Flash.SearchEnds | src/command.c:584-592 | with two free pages in the plane, the round-robin search after an allocation ends: the active block stays while it has room, and when it is full the first block in turn after it that is fully free follows it |
| Flash.AllocKeepsExact | src/command.c:561-597 | allocating a page keeps every counter of block and plane exact and moves the plane's by (-1, +1, 0) |
| Flash.CommitKeepsExact | src/command.c:230-232 | making the programmed page live keeps the counters exact |
| Flash.InvalidateKeepsExact | src/command.c:194-216 | invalidating a live page keeps the counters exact |
| Flash.EraseKeepsExact | src/command.c:167-192 | erasing keeps the counters exact because the block is all stale |
| Flash.BlockCountersNatural | src/command.h:54-61 | a block's counters are never negative and add up to its pages |
| Flash.Victim | src/command.c:528-536 | the greedy scan picks a full block with the most stale pages, and none exactly when no full block has any |
| Flash.VictimIsFirst | src/command.c:528-536 | of several such blocks the first |
| Sectors.WholeIffOneRun | src/command.c:37-46 | a nonempty bitmap is transferred whole if and only if it is one run of sectors |
| Sectors.FirstRunIs | src/command.c:37-46 | what is transferred of a bitmap is its first run: from the lowest sector up to the first that is missing |
| Sectors.LandsIffOneRun | src/command.c:37-46 | every sector of a buffer reaches the page, whatever it held, if and only if the bitmap is one run |
| Sectors.HoleExample | src/command.c:37-46 | sector 0 mapped, sector 3 written: the host's sector is not transferred |
| Addressing.DecodeEncode | src/command.c:800-818 | a location of any geometry encodes to a page number of the device, which decodes back to it exactly when it is below the limit; which number it is says `Addressing.NumberedInOrder` |
| Addressing.EncodeDecode | src/command.c:800-818 | a page number below the limit decodes to fields in range that encode to it again |
| Addressing.EncodeInjective | src/command.c:814-818 | no two pages share a page number |
| Addressing.NumberedInOrder | src/command.c:814-818 | the first page of the device has number 0, and the next page of a block, or the first page of the next block, plane, die, chip or channel behind its last page, the next number |
| Addressing.GuardRightIffNoReserve | src/command.c:801 | the decoder's limit, the number of logical pages, is right for all pages if and only if the device has fewer than ten pages |
| Addressing.GuardRejectsPage | src/command.c:801 | on the geometry the driver sets up, page 0 of block 231 is rejected |
| Addressing.HomeTurn | src/command.c:788-795 | striping answers a plane of the device, and logical pages take the planes in turns |
| Addressing.SamePlane | src/command.c:788-795 | two logical pages share a plane exactly when they are whole rounds of planes apart |
| Addressing.StripesPlusThreshold | src/command.c:905-908 | for every geometry, the logical pages per plane (rounded up) and the collection threshold are together exactly the pages of a plane |
| Addressing.GeometryIsRoomy | src/command.c:516-518 | when a tenth of a plane is two blocks (and the slack of `split`), every chip of the geometry satisfies what the run theorems ask for |
| ChipCramped.SearchHangs | src/command.c:584-592 | with a tenth of a plane of one block the search need not end: a run on 10 blocks of one page writes each of the nine logical pages once and one again, and that write takes the last free page, so no block is left for the search to end on |
| Addressing.DefaultIsRoomy | src/command.c:891-897 | the geometry the driver sets up does |
| Counters.ShiftAgrees | src/command.c:564-574 | moving the counters of die, chip and channel by the plane's own increment keeps each of them the sum over its children |
| Device.StepMoves | src/command.c:194-216 | every step of a chip moves the counters of at most one plane, by the increment that allocation, invalidation or erase makes on all levels |
| Device.DeviceStepKeeps | src/command.c:756-775 | every step of the device keeps its invariant: all chips, all channels, all counters |
| DeviceRuns.DeviceRunKeeps | src/command.c:756-775 | that invariant holds in every state of every device run |
| DeviceRuns.DeviceRunExtends | src/command.c:756-775 | a step of the device that may happen is defined in every state of every run, and extends it |
| DeviceRuns.DeviceInitInv | src/command.c:929-1039 | the counters and chips that set-up makes satisfy the invariant |
| DeviceRuns.BlankDeviceIsInit | src/command.c:876-1062 | every geometry has a device to start from |
| DeviceRuns.PartIsRun | src/command.c:756-775 | one chip's part of any device run is a run of that chip and ends in the chip's state |
| DeviceTheorems.PageStep | src/command.c:218-239 | a step of the device changes what it holds of a logical page only by completing a host write of it, and then as that write settles |
| DeviceTheorems.LookupStep | src/command.c:218-239 | so does what it gives back for the page |
| DeviceTheorems.RunLookup | src/command.c:312-380 | over every run of the device, every sector of a logical page that is not lost reads back as the last completed write of it |
| DeviceTheorems.RunPlain | src/command.c:312-380 | and while every completed write of the page was clean, the page reads back as exactly the sectors written so far, each with the bytes last written |
| DeviceRequests.TimelyPage | src/request.c:116-121 | so it does when on every chip sub-requests are made in time as the caller's theorem asks and the page gets no hole |
| DeviceRequests.DeviceReads | src/sub_request.c:55-59 | and every read that completes then brings what its page held when it was made |
| DeviceRequests.DeviceWhole | src/sub_request.c:61-67 | and no write goes out with old sectors missing, on any chip |
| EndToEnd.StaysWritten | src/request.c:64-89 | the sectors of a piece keep the bytes of the buffer they were written from until another write of them completes |
| EndToEnd.PieceBack | src/request.c:64-202 | so what the device gives back for a piece fills the buffer of a read of it as the buffer of the write was filled |
| EndToEnd.ReadMade | src/sub_request.c:55-59 | a read command out with its data for the page of a piece was made by a host read of that page with the bitmap of the piece, and has put into its buffer what the device held of the page then |
| EndToEnd.PieceRead | src/request.c:64-202 | so a read command made after the last write of a piece fills its buffer as the buffer of the write was filled |
| EndToEnd.ReadsBack | src/request.c:64-202 | a request cut, scattered, written and completed, then read by read commands that each bring their page: the segments of the read get the bytes of the segments of the write |
| DeviceTheorems.AuditNeverReports | src/command.c:241-309 | in no state of any run does the driver's audit find a counter of a plane, die, chip or channel that is not the sum below it |
| DeviceTheorems.NoCommandRefused | src/simulateNAND.c:69-73 | whenever the driver sends, bus and chip take the command, whichever order the completions of channel and chip came in |
| Driver.ChipInfo.constructor | src/command.c:938-971 | the chip record as set-up makes it |
| Driver.ChipInfo.AllocateLocationInPlane | src/command.c:561-597 | the search loop and the in-place updates hand out the page and leave the plane that the specification says (`Flash.SearchEnds`: which block follows), and move die, chip and channel counters alike |
| Driver.ChipInfo.InvalidatePageAt | src/command.c:194-216 | the page becomes stale and all four levels of counters move by (0, -1, +1) |
| Driver.ChipInfo.EraseBlockAt | src/command.c:167-192 | the loop blanks every page of the block and all four levels of counters move by (P, 0, -P) |
| Driver.ChipInfo.SetMapEntry | src/command.c:224-228 | storing an encoded page number stores the location: decoding undoes encoding |
| Driver.ChipInfo.UpdateMapAndInvalidatePage | src/command.c:218-239 | the entry moves to the programmed page, the page becomes live and the decoded old page stale |
| Driver.ChipInfo.PickVictim | src/command.c:528-536 | the scan with its early exit picks the same victim as the full greedy scan |
| Driver.ChipInfo.CheckAndCreateGc | src/command.c:516-559 | the check does what the step function says and keeps the invariant |
| Driver.ChipInfo.AdvanceCursor | src/command.c:644-649 | the cursor loop stops at the first live page at or after it, or at the end |
| Driver.ChipInfo.StartRead | src/command.c:665-711 | a relocation read of the live page is queued, reusing the command and its buffer |
| Driver.ChipInfo.RelocateOrRelease | src/command.c:644-711 | with a live page left its relocation starts, with none left the erase is released |
| Driver.ChipInfo.ForEraseVisit | src/command.c:608-712 | one visit of the collector does what the specification says, in all its branches |
| Driver.ChipInfo.GetSubRequestsWrite | src/command.c:426-462 | the oldest write that does not wait is taken, wherever it is in the queue |
| Driver.ChipInfo.GetCommandUsbssd | src/command.c:714-754 | half-finished reads first, then the collector, then waiting reads, then writes |
| Driver.ChipInfo.FirstRun | src/command.c:37-46 | the loop over 64 bits finds exactly the sectors of the first run |
| Driver.ChipInfo.SendWriteCommand | src/command.c:31-51 | a write takes a page and its first run of sectors reaches the cells, unless bus or chip is busy |
| Driver.ChipInfo.SendReadCommand | src/command.c:59-85 | a read latches its address, or moves the latched page's sectors to the buffer |
| Driver.ChipInfo.SendEraseCommand | src/command.c:53-57 | an erase goes out for the noted victim |
| Driver.ChipInfo.SendCommand | src/command.c:87-122 | the switch over the operations, with the states of chip and channel |
| Driver.ChipInfo.AllocateCommand | src/command.c:765-771 | one chip's turn of the dispatch loop is a dispatch step and keeps the invariant |
| Driver.ChipInfo.GetEndCmd | src/command.c:124-165 | the search answers the first command with the reported number |
| Driver.ChipInfo.ProgramEnds | src/command.c:321-326 | a finished program moves the map, retires the command and notes the plane to be checked |
| Driver.ChipInfo.ReadDataEnds | src/command.c:342-346 | a finished read is retired, and completes the write that waited for it |
| Driver.ChipInfo.EraseEnds | src/command.c:348-355 | the block is erased, the mark cleared and the command gone |
| Driver.ChipInfo.MergeInto | src/sub_request.c:72-87 | the bit loop gives the write the union of the bitmaps, its own bytes where it has them and the read's elsewhere |
| Driver.ChipInfo.MergeList | src/sub_request.c:72-87 | in a list of writes exactly the one that waits for the read is completed by it |
| Driver.ChipInfo.SubRequestEnd | src/sub_request.c:72-87 | the write that waits for the finished read is merged and freed to go, whether it is queued or still in hand |
| Driver.ChipInfo.RecvSignalBack | src/command.c:312-380 | a completion is the completion step, in every state of the chip, and keeps the invariant |
| Driver.ChipInfo.TimerCallbackChip | src/simulateNAND.c:25-43 | the timer callback is the timer step and keeps the invariant |
| Driver.ChipInfo.AllocateWrite | src/sub_request.c:33-70 | a write is made for its home plane with the host's sectors and bytes, and behind the reads in hand a companion read of all mapped sectors exactly when it does not cover them |
| Driver.ChipInfo.AllocateRead | src/sub_request.c:33-59 | a read of the sectors asked for is made, behind those in hand, and given the page the map names |
| Driver.ChipInfo.AddWritesToChip | src/command.c:820-849 | the loop queues all writes of a request in their order |
| Driver.ChipInfo.AddReadsToChip | src/command.c:820-849 | the loop queues all its reads in theirs |
| DeviceDriver.Usbssd.AllocateCommandUsbssd | src/command.c:756-775 | the dispatch loop takes the device through dispatch steps only, each on the first chip behind an idle channel that is idle and has anything to send, and afterwards no idle chip behind an idle channel has |
| DeviceDriver.Usbssd.RecvSignalChip | src/command.c:312-380 | a chip's completion, the collection check exactly when it finished a host write, and the dispatches in turn after it are a sequence of device steps in this order, which keeps the device's invariant and leaves no idle chip with work |
| DeviceDriver.Usbssd.RecvSignalChannel | src/command.c:316-317 | likewise for a channel's completion, which no check follows |
| DeviceDriver.Usbssd.CheckPlane | src/command.c:253-266 | sums a plane's block counters and compares |
| DeviceDriver.Usbssd.CheckDie | src/command.c:249-279 | sums a die's planes, clean exactly when die and planes agree with the sums |
| DeviceDriver.Usbssd.CheckChip | src/command.c:247-292 | sums a chip's dies likewise |
| DeviceDriver.Usbssd.CheckChannel | src/command.c:245-305 | sums a channel's chips likewise |
| DeviceDriver.Usbssd.Check | src/command.c:241-309 | the audit reports nothing if and only if every counter at every level is the sum of the block counters below it |
| Chunks.CopyRightIffOneChunk | src/simulateNAND.c:79-96 | the copy loop makes one copy of all bytes within one chunk if and only if the bytes do not straddle two chunks |
| Chunks.PageAccessInOneChunk | src/simulateNAND.c:172-188 | accesses inside one page never straddle when chunks are whole pages |
| Nand.PagesApart | src/simulateNAND.c:79 | different pages of a chip have disjoint bytes |
| Nand.PlacedInOrder | src/simulateNAND.c:79 | the first page of a chip starts at its byte 0, and every next page of a block, first page of a next block, plane or die 2048 bytes behind the page before it, up to the end of the chip |
| Nand.ProgramCells | src/simulateNAND.c:62-116 | writing a run of sectors into the bytes overlays that page with them and touches no other page |
| Nand.ReadCells | src/simulateNAND.c:153-206 | copying a run of sectors out overlays the buffer with the page |
| Nand.ChipHw.CopyToChunks | src/simulateNAND.c:79-96 | the write loop splices the buffer's bytes in at their offset and changes nothing else |
| Nand.ChipHw.CopyFromChunks | src/simulateNAND.c:172-188 | the read loop copies exactly the bytes at the offset |
| Nand.ChipHw.WriteData | src/simulateNAND.c:62-116 | accepted exactly when bus and chip are idle; then the bytes of the buffer from `start` on are spliced in at the page's offset plus `start` and no other byte changes, with the new states, latch, number and timers; refused without any effect otherwise |
| Nand.ChipHw.SendReadAddr | src/simulateNAND.c:118-151 | accepted exactly when bus and chip are idle; the address is latched |
| Nand.ChipHw.SendReadData | src/simulateNAND.c:153-206 | accepted exactly when the bus is idle, the chip waits and the address is the latched one; the bytes at the page's offset plus `start` are copied into the buffer at `start` |
| Nand.ChipHw.SendErase | src/simulateNAND.c:208-237 | accepted exactly when bus and chip are idle |
| Nand.ChipHw.TimerCallback | src/simulateNAND.c:25-43 | the chip is idle again unless it holds a read address, and its command number is reported |
| Bitmaps.BitmapIsRun | src/request.c:43-44 | the two shifts make exactly the run of sectors meant |
| Bitmaps.GetReadCopyStartAndLen | src/request.c:141-155 | the loop answers the first set bit and the number of set bits, in bytes |
| Requests.Cut | src/request.c:34-114 | the cutting loop answers the pieces of the specification |
| Requests.PiecesShape | src/request.c:34-114 | pieces have consecutive pages and one nonempty run of sectors each, and are as many as the request touches pages |
| Requests.Tiles | src/request.c:34-114 | every sector of the request and no other is in exactly one piece |
| Requests.FillPage | src/request.c:64-89 | the inner copy loop takes the next bytes of the segments, across segment borders, to their place in the page buffer |
| Requests.Scatter | src/request.c:34-114 | for any nonempty segments, every sector of every piece's buffer holds the request's bytes of that sector |
| Requests.Gather | src/request.c:170-202 | for any nonempty segments, they receive the bytes of the pieces in the order of the sectors |
| Requests.RoundTrip | src/request.c:64-202 | scattering and gathering into any other segmentation gives the same bytes |
| Requests.Request.constructor | src/request.c:52 | a request waits for as many completions as it has pieces |
| Requests.Request.RequestMayEnd | src/request.c:161-222 | whatever the order of the completions, the request ends with the last of them, and once |
| Pool.Allocator.Allocate | src/allocator.c:3-35 | hands out the node given back last or a new one, never one in use; both lists stay properly linked, disjoint and complete |
| Pool.Allocator.Find | src/allocator.c:45-51 | the search for a node never answers null: it stops at the node, or at the last node when it is not in the list |
| Pool.Allocator.Free | src/allocator.c:37-72 | exactly the given node moves from the used to the free list, and no node is lost |
| Pool.Allocator.Destroy | src/allocator.c:90-110 | every node ever created is given up exactly once |
| WriteQueue.TakeSoundIff | src/command.c:435-457 | taking a write out of the list leaves its tail pointer right if and only if the write was not the last of several |
| WriteQueue.AppendedIsLost | src/command.c:837-846 | and when it was, the next write that is appended cannot be reached |
| WriteQueue.AppendSound | src/command.c:837-846 | appending to a sound list links the new write last |
| WriteQueue.DrainedIsSound | src/command.c:435-457 | whatever the order in which the writes of one request are taken, once the last is gone the list is sound |
| WriteQueue.OneAtATimeLosesNothing | src/main.c:133-134 | so with one request at a time no write is ever lost |
| WriteQueue.TwoAtATimeLoses | src/command.c:435-457 | with two at a time one can be: three writes, of which the third cannot be reached |

## Left out

- ChipHost.MayWrite: asks the host for one outstanding write per logical page, and for sectors of the page; one request touches each page once and the queue depth is 1 (src/main.c:133-134).
- ChipHost.MayRead: asks for a page of which some sector is mapped; of others the code reads wherever the entry's page number, which set-up leaves unset (src/command.c:1043-1049), happens to point.
- ChipHost.SubmitReadKeeps: asks for `ChipHost.MayRead`, as above.
- Driver.ChipInfo.AllocateRead: asks for `ChipHost.MayRead`, as above.
- Chip.EndReadData: merges a companion read into its write in the step that completes the read; the code does so after both critical sections (src/command.c:376), and dispatches may come in between. They do not touch the two: the read has left the queues, and its write waits until it is merged.
- ChipSpoilt.CompanionSpoilt: stops when the companion has its data; that the write then merges and programs it is `ChipTheorems.WriteIsWhole`, and the loss is in the store of `ChipTheorems.RunContent`.
- Driver.ChipInfo.constructor: asks for a decoder limit of at least the physical page count; the code passes the smaller logical page count (`Addressing.GuardRightIffNoReserve` says when that is right).
- Driver.ChipInfo.UpdateMapAndInvalidatePage: asks for a decoder limit of at least the physical page count; the code passes the smaller logical page count (`Addressing.GuardRightIffNoReserve` says when that is right).
- Driver.ChipInfo.GetSubRequestsWrite: works on the queue as a sequence; the linked list's tail pointer, and when it goes wrong, is in `WriteQueue`.
- EndToEnd.ReadsBack: takes each read command at the moment it has its data; that the request then ends with the last of them is `Requests.Request.RequestMayEnd`.
- Driver.ChipInfo.EraseEnds: drops the finished erase command, which the code never gives back to its pool, and a new relocation command starts without the buffer that a recycled one may still point to.
- Driver.ChipInfo.AllocateLocationInPlane: asks that the search has a free block to find; `ChipSafety.RoomBeforeProgram` shows that it always has.
- DeviceDriver.Usbssd.constructor: takes its chips and channels ready made; the nested allocation of src/command.c:876-1062 and its tear-down are not modelled, only what they leave (`DeviceRuns.DeviceInit`).
- Nand.ChipHw.SendErase: leaves the bytes alone as the code does; the chip model allows an erase to leave anything.
- The objects of `Driver` keep the NAND chip's state and pages as fields of their own; `Nand.ChipHw` is proved to change its bytes as those fields change, but the two are not linked at run time.
- Pool.Allocator.Free: asks for a node in use; the code does not notice other nodes (`Pool.Allocator.Find`).
- Pool.Allocator.Allocate: memory never runs out, here and everywhere else.
- Requests.Scatter: asks for nonempty segments; the code would not get past an empty one.
- Mutexes and lock order: each critical section is one atomic step.
- Machine widths: counters, page numbers and command numbers are unbounded integers; `ChipSafety.CountersNatural` and `ChipSafety.EraseCountersNatural` show that the unsigned counters do not wrap.
- Block-layer registration, work queues and timer lengths: completions are steps that may happen at any time.
- The test drivers (src/request.c:245-464, src/command.c:464-514, test.c), `memCheck.c`, tokens and log output.
