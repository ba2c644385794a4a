# VBAR residency, eviction and VRAM accounting

A Dafny model of the part of the AI Model Dynamic Offloader that decides which model weights live in VRAM, with proofs
of what it promises. It covers one device context:

- any number of VBARs on a priority list, each with a residency map (handle, pin count and serial per 32 MiB page), a
  watermark and a watermark limit;
- the eviction loops, `vbar_fault`, which maps pages one by one and may evict from the VBAR it is filling, and every
  other exported VBAR operation;
- the budget (a poll of the driver, and the larger of two deficits) and the transactional mapping (create, map, set
  access, with rollback);
- the other clients of the same usage counter: growable VRAM buffers, the hooked CUDA allocators with their chained size
  table, and the plugin allocator with its own table;
- the client's side: bump allocation of tensors in a VBAR, and the signature comparison that decides whether a weight
  must be copied again.

## How it is built

The environment is an oracle: a function from question number to answer (result code, value, clock). Every driver call,
true allocation, host allocation, memory query and clock reading asks it once. All results hold for every environment,
so for every pattern of failures. The driver is a value with live handles, mappings and reservations; a call that breaks
its rules sets a flag, and one result is that the flag is never set.

Each operation appears twice. `ModelVbar`, `VramBuf`, `SizeTable`, `PlugAlloc` and `Plat.Device` hold the code in its own
form: objects updated in place, arrays of page records, `higher`/`lower` links between two sentinels, hash chains
unlinked through the predecessor. Every method there equates the new state with a function of the old one. Those
functions (`Plat`, `Residency` and the first half of each allocator's file) are what the theorems are about, and `System`
puts all of them into one state machine whose runs are arbitrary sequences of operations.

| file | content |
|---|---|
| `Plat` | ledger, driver, budget, mapping transaction |
| `Chains` | chained hash tables seen as one list, latest entry first |
| `Residency`, `ModelVbar` | the VBAR engine on values and on the heap |
| `Eviction`, `FaultFacts`, `Progress` | greedy eviction, exact payment, what a fault guarantees, when it must succeed |
| `Strays`, `Stage`, `Thresholds`, `StrayRanges` | where the promises of a fault stop: exact conditions, and the runs that reach them |
| `VramBuf`, `SizeTable`, `PlugAlloc`, `Allocators` | the other clients of the counter |
| `PlatFacts`, `VbarFacts`, `BufferFacts`, `MallocFacts`, `PluginFacts` | what each operation promises its own caller: when it succeeds, what a success is worth, what a failure leaves |
| `Resources`, `VbarBooks`, `BufferBooks` | who owns which reservation, mapping, handle and byte |
| `System`, `Evolution`, `Soundness` | the state machine, what a step does to one VBAR, the invariant |
| `Runs`, `Conservation`, `WeightCache` | what holds over whole runs |

## Where a promise stops

The first four conditions are exact: the first three over every state that a run can reach from a new context, the
fourth over every run of a sound one. Each failing half is a run of real operations from a new context (`Stage.Staging`,
`Thresholds.Guarding`, `Allocators.MallocThenFree`).

- **Budget.** A fault never ends above both its starting usage and capacity less headroom if and only if the VBAR's
  watermark limit is no higher than the first absent page of the range (`Thresholds.BudgetThreshold`). Otherwise the
  paying loop may find nothing to evict, and the page is mapped all the same.
- **Priority.** The repository's README.md says that faulting evicts lower-priority weights. Past the entry eviction, a
  fault spares the VBARs above its own if and only if its watermark limit is no higher than its first absent page
  (`Thresholds.IsolationThreshold`). Otherwise the paying loop can run past its own VBAR into VBARs above it.
- **Watermarks.** The repository's README.md says that weights above the watermark fail to fault. The code checks at
  entry and after an eviction, so a fault can map a page above a watermark that fell while it ran, and if it then fails
  that page stays resident and unpinned. A fault of pages `first` to `end` can do so if and only if
  `end - first >= 3` and `limit <= end - 2` (`StrayRanges.StrayThreshold`).
- **Usage.** The counter equals what is live if and only if the host found room for the entry of every hooked allocation
  (`Allocators.ConservationThreshold`): `account_alloc` charges before it tries to keep an entry, and what was not
  recorded is never credited. `Allocators.UnrecordedChargeStays` is such a run.
- **Signatures.** They hold serials modulo 2^32: a new signature equals an old one if and only if each page was mapped a
  multiple of 2^32 times in between (`WeightCache.SignatureCollides`).
- **Pins.** The counters are 32 bits wide and wrap, so the pin results assume fewer than 2^32 outstanding faults of a
  page.

## Model

| member | source | states |
|---|---|---|
| Eviction.DrainIsGreedy | src/model-vbar.c:113-138 | `vbars_free` refines a greedy choice: of all pages between limit and watermark, lowest-priority VBAR first and high page to low, it evicts exactly the evictable ones of the shortest prefix holding the requested number, and lowers watermarks over exactly that prefix |
| Eviction.DrainLowestFirst | src/model-vbar.c:124-137 | a VBAR is touched only after every lower one is at or below its limit, and falling short means all are |
| Eviction.DrainShrinks | src/model-vbar.c:124-135 | eviction does nothing but lower watermarks, never below a limit, and evict the unpinned pages passed |
| Eviction.PaymentIsExact | src/model-vbar.c:147-162 | the pages evicted for a faulting VBAR equal its absent pages below the smaller of target and final watermark, even when it is its own victim, unless the loop ran off the list, and then every VBAR is at its limit |
| Eviction.TurnPays | src/model-vbar.c:155-159 | one turn of the paying loop: the cursor stays at an absent page or the watermark, and passes one absent page per page evicted |
| Eviction.PayLowestFirst | src/model-vbar.c:152-161 | paying touches a VBAR only after every lower one is at or below its limit |
| Eviction.HigherVbarsNeverPay | src/model-vbar.c:147-162 | a limit no higher than the first absent page keeps every VBAR above the faulting one untouched |
| Thresholds.FaultSparesHigher | src/model-vbar.c:303-342 | a whole fault, on every return path: past the entry eviction, with the limit no higher than the first absent page, no VBAR above the faulting one changes |
| Thresholds.IsolationThreshold | src/model-vbar.c:152-156 | that condition is exact over all reachable states: higher VBARs are always spared if and only if it holds |
| Thresholds.NeighbourPays | src/model-vbar.c:152-156 | the reachable state where it fails: the limit is above the first absent page and the VBAR above loses its page |
| Thresholds.BudgetThreshold | src/model-vbar.c:322-334 | over all reachable states, no fault overshoots the budget if and only if the watermark limit is no higher than the first absent page of its range |
| Thresholds.GuardedOvershoots | src/model-vbar.c:329-334 | the reachable state where it fails: a full card, a VBAR under its limit, and a page mapped above the budget |
| FaultFacts.RoomMade | src/model-vbar.c:113-138 | `vbars_free` of a budget deficit returns zero if and only if the deficit is then zero, and then the request fits the budget; otherwise every VBAR is at its limit |
| FaultFacts.PageTurn | src/model-vbar.c:310-342 | one page of a fault: kept, mapped afresh with its serial one higher, or refused because the watermark fell to it; everything else is eviction |
| FaultFacts.SuccessIsSound | src/model-vbar.c:286-353 | after a successful fault every page of the range is resident and pinned once more, the slots hold their current serials modulo 2^32, and there are no more slots than size / 32 MiB + 2 |
| FaultFacts.SlotsEnough | comfy_aimdo/model_vbar.py:80-84 | the signature buffer the client allocates is always long enough |
| FaultFacts.FaultAlwaysKeeps | src/model-vbar.c:286-353 | on every return path: pinned pages keep mapping and serial, pins move only on success, serials only grow, other VBARs only lose pages above their new watermark |
| FaultFacts.FaultWithinBudget | src/model-vbar.c:303-342 | on every return path usage is at most the larger of usage at entry and capacity less headroom, given a limit no higher than any absent page of the range |
| FaultFacts.OomLowersWatermark | src/model-vbar.c:305-333 | an out-of-memory fault leaves the watermark below the end of its range |
| FaultFacts.AboveWatermarkRefused | src/model-vbar.c:303-308 | a range ending above the watermark is refused and nothing but eviction happens |
| Strays.FaultStrays | src/model-vbar.c:303-349 | a successful fault leaves no new unpinned page at or above the watermark; a failed one only pages it mapped itself, neither first nor last of the range, when the watermark had already fallen to or below them |
| Strays.ShortRangesLeaveNone | src/model-vbar.c:303-349 | a range of fewer than three pages, or with the limit above its last but one, leaves none |
| StrayRanges.StrayThreshold | src/model-vbar.c:322-337 | exactly the other ranges can: over all reachable states, a fault leaves none if and only if its range is short or its limit high |
| StrayRanges.StagedLeavesStray | src/model-vbar.c:322-337 | the reachable state where one is left: a lower VBAR pays for the first page, the own watermark falls, the next pages are mapped within budget, the last one fails |
| Progress.GrantedFault | src/model-vbar.c:303-342 | when every driver call is granted a fault never returns an error, and without success its watermark is below the end of its range |
| Progress.FaultMustSucceed | src/model-vbar.c:303-342 | a fault of a range below the watermark succeeds when every call is granted and the range is below the limit, or its absent pages fit the budget |
| FaultFacts.FreeMemoryReturnsWhatItFreed | src/model-vbar.c:433-457 | the bytes returned are exactly the fall in usage, only this VBAR changes, and a shortfall means it is at its limit |
| ModelVbar.VbarList.constructor | src/model-vbar.c:30-44 | an empty list: the two sentinels linked to each other |
| ModelVbar.VbarList.Mod1 | src/model-vbar.c:94-111 | one page freed and unpinned as the flags say, with driver, usage and resident count in step |
| ModelVbar.VbarList.VbarsFree | src/model-vbar.c:113-138 | the loop over the linked list computes the specified eviction and returns the pages not found |
| ModelVbar.VbarList.MoveCursorToAbsent | src/model-vbar.c:140-145 | the next absent page below the watermark, or the watermark |
| ModelVbar.VbarList.VbarsFreeForVbar | src/model-vbar.c:147-162 | the loop computes the specified payment, the faulting VBAR being possibly the one evicted |
| ModelVbar.VbarList.RemoveVbar | src/model-vbar.c:164-167 | the links stay mutually inverse and the list loses exactly this element |
| ModelVbar.VbarList.InsertVbar | src/model-vbar.c:169-174 | the links stay mutually inverse and the element becomes the highest |
| ModelVbar.VbarList.InsertVbarLast | src/model-vbar.c:176-181 | the links stay mutually inverse and the element becomes the lowest |
| ModelVbar.VbarList.VbarAllocate | src/model-vbar.c:184-220 | a new VBAR on top, all pages absent, size clipped to the card; a failed host or driver request leaves the list as it was |
| VbarFacts.AllocateMeans | src/model-vbar.c:194-219 | one new VBAR on top, empty, without limit, as many whole pages as asked for or as the card holds, on a reservation of that size; or list and driver as before |
| VbarFacts.AllocateSucceeds | src/model-vbar.c:201-211 | it succeeds when the host has room and the driver grants an address with free space behind it |
| VbarFacts.ReachedFits | src/model-vbar.c:194-199 | no VBAR of any reachable state has more pages than the card |
| ModelVbar.VbarList.SetWatermarkLimit | src/model-vbar.c:223-230 | the limit in whole pages, rounded up; nothing else |
| VbarFacts.LimitMeans | src/model-vbar.c:229 | the limit is the smallest number of pages that holds the size, and nothing else changes |
| ModelVbar.VbarList.ResetWatermarkLimits | src/model-vbar.c:233-241 | every VBAR's limit zero; nothing else |
| VbarFacts.ResetMeans | src/model-vbar.c:238-240 | after a reset no VBAR has a limit, and nothing else of any has changed |
| ModelVbar.VbarList.Prioritize | src/model-vbar.c:244-258 | moved to the top with its watermark at the end; the others keep their order |
| VbarFacts.PrioritizeMeans | src/model-vbar.c:254-257 | prioritizing changes nothing of any other VBAR, nor of the driver |
| ModelVbar.VbarList.Deprioritize | src/model-vbar.c:261-273 | moved to the bottom; the others keep their order |
| VbarFacts.DeprioritizeMeans | src/model-vbar.c:271-272 | deprioritizing puts a VBAR below all others and changes no field of any, nor of the driver |
| ModelVbar.VbarList.FaultPage | src/model-vbar.c:310-342 | one turn of the mapping loop computes the specified outcome and serial |
| ModelVbar.VbarList.Fault | src/model-vbar.c:287-353 | state, return code and signature slots are those specified, slots beyond the written ones untouched |
| ModelVbar.VbarList.VbarUnpin | src/model-vbar.c:356-376 | each page of the range within the VBAR unpinned once and, above the watermark, freed when its last pin goes |
| ModelVbar.VbarList.VbarFree | src/model-vbar.c:379-395 | every resident page unmapped and released whatever its pins, the reservation returned, the VBAR off the list |
| VbarFacts.FreeVbarMeans | src/model-vbar.c:389-393 | the VBAR is gone, no other changed, and usage fell by its resident pages |
| ModelVbar.VbarList.VbarFreeMemory | src/model-vbar.c:434-457 | the eviction loop on one VBAR, returning the bytes freed |
| VbarFacts.FreeMemoryMeans | src/model-vbar.c:446-456 | usage falls by as many pages of this VBAR as the size takes up, or by fewer with the VBAR at its limit; no other VBAR changes |
| ModelVbar.VbarList.VbarLoadedSize | src/model-vbar.c:398-404 | the cached count is the number of resident pages |
| ModelVbar.VbarList.VbarGetResidency | src/model-vbar.c:421-431 | resident and pinned bits of every page that fits the caller's buffer, the rest of it untouched |
| VbarFacts.StatusMeans | src/model-vbar.c:427-429 | bit 0 is set exactly for resident pages, bit 1 exactly for pinned ones, no other bit |
| Plat.Device.ThreeStooges | src/plat.h:171-209 | create, map, set access, with rollback in reverse order on the first failure |
| PlatFacts.StoogesAnswers | src/plat.h:171-209 | success exactly if all three calls succeed; otherwise the error is that of the first call to fail and no further call is made |
| VbarFacts.ShortageIsPaid | src/model-vbar.c:322-338 | whichever of the three calls finds no memory, the VBARs are made to pay and the page is tried again unless the watermark fell to it |
| Resources.StoogesGpu | src/plat.h:171-209 | a mapping transaction is all or nothing: on failure the driver is as before and usage unmoved; on success one new handle, one new mapping, usage up by its size |
| Plat.Device.BudgetDeficit | src/plat.h:138-156 | after a poll, the larger of the two deficits, or zero |
| Plat.Device.PollBudgetDeficit | src/control.c:62-82 | skipped inside 2000 ticks; a failed query still moves the stamp and the usage snapshot |
| PlatFacts.PollTracksUsage | src/control.c:62-82 | a zero deficit means exactly that everything fits the card and that the request and the usage gained since the last due poll fit what the driver last reported; a failed poll restarts that count, a skipped one does not |
| PlatFacts.PollRests | src/control.c:62-82 | a poll touches only the budget's own figures and rests for 2000 ticks once it was due |
| Soundness.StepSound | src/model-vbar.c:183-457 | every operation, failed ones included, preserves soundness: pinned pages resident, watermarks in range, buffers tiled, the books of usage and driver resources balanced |
| Soundness.InitialSound | src/model-vbar.c:30-44 | a new context is sound |
| Conservation.UsageIsConserved | src/pyt-cu-plug-alloc-async.c:108-151 | after any run usage is 32 MiB per resident page, plus the bytes backed in all buffers, plus the accounted sizes of live hooked allocations, plus what was charged but could not be recorded |
| Allocators.ConservationThreshold | src/pyt-cu-plug-alloc-async.c:113-121 | the last term is absent if and only if the host found room for the entry of every hooked allocation of the run |
| Allocators.UnrecordedChargeStays | src/pyt-cu-plug-alloc-async.c:113-121 | a run where it does not: an allocation and its free leave 1 KiB charged |
| Conservation.DriverNeverMisused | src/model-vbar.c:94-111 | no run maps twice, overlaps, unmaps what is not mapped, releases a mapped or dead handle, or returns a range in use |
| Conservation.ResidentPageIsMapped | src/model-vbar.c:322-342 | a resident page's handle is live and mapped at the page's own address |
| Conservation.PagesNeverShare | src/model-vbar.c:322-342 | different resident pages share no handle and no byte of address space |
| Conservation.ChunkIsMapped | src/vrambuf.c:59-74 | every chunk of every buffer has its own live handle, mapped at the chunk's own address |
| Conservation.ChunksNeverShare | src/vrambuf.c:59-74 | different chunks, of one buffer or of two, share no handle and no byte of address space |
| Conservation.ChunkIsNoPage | src/vrambuf.c:59-74 | no chunk shares a handle or a byte with a resident page |
| Conservation.LiveHandleHasOwner | src/model-vbar.c:378-395 | every live handle belongs to a resident page or to a buffer |
| Conservation.NothingLeft | src/vrambuf.c:90-111 | once all VBARs and buffers are freed the driver holds no handle, mapping or reservation |
| Evolution.StepEvolves | src/model-vbar.c:183-457 | what any operation may do to any VBAR: only prioritizing raises a watermark, serials only grow, pins follow faults and unpins, pinned pages stay, no operation but a fault leaves an unaccounted page |
| Evolution.OrderIsKept | src/model-vbar.c:243-273 | prioritizing and deprioritizing move one VBAR to an end and keep the relative order of all others |
| Evolution.UnpinClosed | src/model-vbar.c:369-375 | the unpin loop in closed form, page by page |
| Runs.SameSerialMeansNeverUnmapped | src/model-vbar.c:310-342 | a page resident with the same serial at both ends of a run kept its mapping after every operation in between |
| Runs.OffloadSticks | src/model-vbar.c:243-258 | only prioritizing ever raises a watermark, over whole runs |
| Runs.OomStaysOom | src/model-vbar.c:305-333 | after an out-of-memory fault every fault ending at or beyond that page is refused, mapping nothing, until the VBAR is prioritized |
| Runs.PrioritizeLiftsOffloading | src/model-vbar.c:243-258 | prioritizing puts the VBAR on top with no page above its watermark and changes nothing else of it |
| Runs.LimitProtects | src/model-vbar.c:124-135 | a resident page below limit and watermark is never evicted over any run that leaves the limit alone |
| Runs.PinsAreOutstandingFaults | src/model-vbar.c:346-375 | under matched use a page's pin count is the number of its outstanding successful faults, over any run |
| Runs.PinnedPagesStay | src/model-vbar.c:98-106 | from a successful fault to its last matching unpin nothing unmaps or remaps the page, whatever else runs |
| Runs.NoStraysOverRuns | src/model-vbar.c:303-375 | every resident page at or above its watermark stays pinned over any run whose faults of that VBAR have short ranges or high limits, or succeed, or are refused at entry |
| WeightCache.PlacedApart | comfy_aimdo/model_vbar.py:64-72 | tensors placed one after another fit and never share a byte, though they may share a page |
| WeightCache.PlaceMeans | comfy_aimdo/model_vbar.py:64-72 | a tensor is placed exactly if it fits behind the next 512-byte step, and starts there with the size asked for |
| WeightCache.SignatureCollides | comfy_aimdo/model_vbar.py:137-142 | a new signature equals the cached one if and only if each page of the tensor was mapped a multiple of 2^32 times in between |
| WeightCache.SignatureTells | comfy_aimdo/model_vbar.py:137-142 | equal signatures if and only if no page of the tensor moved, for fewer than 2^32 mappings |
| WeightCache.LoadReuses | examples/example.py:30-37 | a tensor whose pages have not moved is not copied again |
| WeightCache.LoadCopies | examples/example.py:30-37 | a new or changed signature copies the weight, nothing but it, and is remembered |
| WeightCache.EngineCoherent | examples/example.py:25-50 | whatever runs while layers are open, short of undoing their pins, leaves their tensors resident and unchanged |
| WeightCache.BeginCoherent | examples/example.py:25-37 | after a successful fault and a copy on mismatch the layer is open with its own weight, whether reused or copied, and every other open layer keeps its own |
| WeightCache.FinishCoherent | examples/example.py:44-50 | a layer's unpin leaves every other open layer its pins and its weight, also on shared pages |
| WeightCache.NoPinLeaks | examples/example.py:25-50 | as long as only layers pin and unpin a VBAR, each page has exactly one pin per open layer that uses it, so none once the last one finished |
| WeightCache.EveryLayerReadsItsData | examples/example.py:25-50 | over any run, with any number of layers open, allocations and evictions in between: from fault to unpin each layer's tensor is wholly resident and its bytes are its weight |
| WeightCache.PlacedWeightsAreServed | comfy_aimdo/model_vbar.py:64-72 | the same for a new client whose weights were placed one after another |
| VramBuf.VrambufCreate | src/vrambuf.c:9-29 | an empty buffer on a new reservation rounded up to 2 MiB; a failed host or driver request leaves none |
| BufferFacts.CreateMeans | src/vrambuf.c:9-29 | an empty buffer whose reservation is the size rounded up to 2 MiB, no VRAM used; or nothing at all |
| BufferFacts.CreateSucceeds | src/vrambuf.c:15-26 | it succeeds when the host has room and the driver grants an address with free space behind it |
| VramBuf.VramBuffer.Grow | src/vrambuf.c:31-78 | the growing loop computes the specified chunks and result, within the handle slots allocated, and stays tiled when it fails midway |
| BufferFacts.GrowMeans | src/vrambuf.c:41-77 | the answer is yes exactly if the buffer then backs what was required, never beyond the reservation nor a chunk beyond the requirement; a request beyond the reservation or already backed changes nothing; earlier chunks stay |
| BufferFacts.GrowSucceeds | src/vrambuf.c:31-78 | a grow within the reservation succeeds when every call is granted |
| BufferFacts.ChunkRetries | src/vrambuf.c:59-71 | a chunk that finds no memory costs the VBARs one page, or finds all at their limits, and is tried once more; any other error ends the grow |
| BufferFacts.BufferSteps | src/vrambuf.c:9-111 | in the context, creating appends, growing replaces, and destroying removes one buffer and its bytes |
| VramBuf.VramBuffer.Destroy | src/vrambuf.c:90-111 | one unmap over all chunks, every handle released, the reservation and the usage given back |
| VramBuf.ChunkTiles | src/vrambuf.c:53-75 | after every chunk the handles are one per 16 MiB begun, and there was a slot for the new one |
| BufferBooks.ChunksTile | src/vrambuf.c:53-75 | the chunks mapped cover exactly the backed bytes from the base |
| BufferBooks.GrowWithinBudget | src/vrambuf.c:31-78 | a grow whose eviction found every page ends within the budget, and when it succeeds backs what was required |
| BufferBooks.DestroyBalanced | src/vrambuf.c:90-111 | destroying a buffer breaks no driver rule and takes exactly its own mappings, handles, reservation and bytes out of the books |
| SizeTable.SizeTable.AccountAlloc | src/pyt-cu-plug-alloc-async.c:108-123 | the charge is made, and the entry filed in front of its bucket when the host has room for it |
| SizeTable.SizeTable.AccountFree | src/pyt-cu-plug-alloc-async.c:125-151 | the latest entry for the pointer, and only that, is unlinked and credited; an unknown pointer changes nothing |
| MallocFacts.AccountedMeans | src/pyt-cu-plug-alloc-async.c:87-106 | the charge is at least the size and 1 KiB, the size itself up to 1 MiB, and the next whole number of 2 MiB pages above |
| MallocFacts.MallocMeans | src/pyt-cu-plug-alloc-async.c:153-244 | the answer and the pointer are the true allocator's own, of its first try or after a failure its second; a success is listed first if recorded and charged either way, a failure returns null and leaves the list |
| MallocFacts.FailureMakesRoom | src/pyt-cu-plug-alloc-async.c:174-180 | before the second try the VBARs gave up size and headroom, or are all at their limits |
| MallocFacts.MallocUsage | src/pyt-cu-plug-alloc-async.c:166-180 | in the context the usage moves by exactly the pages evicted and, on success, the charge |
| MallocFacts.FreeMeans | src/pyt-cu-plug-alloc-async.c:186-207 | a successful free of a listed pointer takes exactly its latest entry and charge; null, an unknown pointer or a failed free change neither list nor usage |
| MallocFacts.FreeUndoesMalloc | src/pyt-cu-plug-alloc-async.c:153-207 | allocating and freeing the returned pointer restores the list, and the usage but for evictions, when the entry was recorded |
| SizeTable.AimdoCudaMalloc | src/pyt-cu-plug-alloc-async.c:153-184 | room is made with 128 MiB to spare, a failed try frees more and tries once again, a success is charged |
| SizeTable.AimdoCudaMallocAsync | src/pyt-cu-plug-alloc-async.c:209-244 | the same without headroom |
| SizeTable.AimdoCudaFree | src/pyt-cu-plug-alloc-async.c:186-207 | null is accepted, a failed true free changes no books, a successful one is credited |
| Chains.FiledUnlink | src/pyt-cu-plug-alloc-async.c:133-146 | unlinking the first node for a key from the key's own bucket removes the latest entry from the whole table |
| Chains.FiledMissing | src/pyt-cu-plug-alloc-async.c:147-150 | a key absent from its bucket is absent from the table |
| Allocators.CreditIsExact | src/pyt-cu-plug-alloc-async.c:125-151 | an unknown pointer changes nothing, a known one loses exactly its latest entry and that entry's charge |
| Allocators.FreeUndoesCharge | src/pyt-cu-plug-alloc-async.c:108-151 | freeing what was just allocated restores the books exactly when the entry was recorded |
| Allocators.MallocWithinBudget | src/pyt-cu-plug-alloc-async.c:223-240 | when eviction found every page, the overshoot is only the allocation's own rounding, below 2 MiB, however many came before |
| Allocators.CudaMallocWithinBudget | src/pyt-cu-plug-alloc-async.c:166-180 | the plain allocator's headroom swallows the rounding: usage ends within the budget |
| PluginFacts.AllocMeans | src/pyt-cu-plug-alloc.c:36-62 | a pointer is the address of a new buffer of this device, first in the table, that backs at least the size asked for; null leaves the table |
| PluginFacts.AllocSucceeds | src/pyt-cu-plug-alloc.c:45-61 | on the own device a pointer is returned when host, reservation and every mapping are granted |
| PluginFacts.FreeMeans | src/pyt-cu-plug-alloc.c:64-85 | a known address loses exactly its latest buffer, its handles and its bytes; null, another device or an unknown address change nothing |
| PlugAlloc.PluginAlloc | src/pyt-cu-plug-alloc.c:36-62 | a buffer is created, grown and filed under its address, or destroyed when it cannot be grown |
| PlugAlloc.PluginFree | src/pyt-cu-plug-alloc.c:65-85 | the buffer for this address and device is unlinked and destroyed; a null, foreign or unknown address changes nothing |
| PlugAlloc.VmmTable.Take | src/pyt-cu-plug-alloc.c:72-82 | the walk over a bucket unlinks exactly the first matching buffer |
| Allocators.FailedPluginAllocLeavesNoTrace | src/pyt-cu-plug-alloc.c:49-52 | after a failed allocation the table is as before and usage only lost the VBAR pages evicted |
| Allocators.PluginRoundTrip | src/pyt-cu-plug-alloc.c:36-85 | freeing what was just allocated restores the table and returns exactly the buffer's bytes |

## Left out

- Sizes, offsets and serials are unbounded: the model does not wrap 64-bit arithmetic such as `offset + size`. Pin
  counters and signature slots are modelled at 32 bits.
- The driver conforms: handles are non-zero and unused, reservations non-null and disjoint; other answers count as
  errors. Unmap, release and address-free results are ignored by the source and taken as successes.
- Host null-pointer argument checks, and the pass-through when the current CUDA device is not this context's.
- Multi-device selection, thread-local context, mutexes and concurrency: one context, one thread.
- The Windows poll (`src-win/shmem-detect.c`): the poll modelled is the one in `src/control.c`. Context creation and
  teardown in `src/control.c`, and its start-up tick value.
- Logging, `vbars_analyze`, `allocations_analyze`, the dirty flag, `cuCtxSynchronize`, `unmap_workaround`: no effect on
  the modelled state.
- `vbar_get`, `vbar_get_nr_pages`, `vbar_get_watermark`, `vrambuf_get`: field reads.
- File mapping, pinned host buffers, hook installation, symbol resolution, the torch glue and `comfy_aimdo/vram_buffer.py`.
- The host allocation of the two sentinels is taken to succeed; a context whose list could not be set up is not modelled.
- The objects of the context are separate on the heap (priority list with ledger, size table, plugin table, each stand-alone
  buffer) and meet in the state machine through the functions their methods are proved equal to; the caller's collection
  of stand-alone buffers exists only in the state machine. An operation on a VBAR or buffer that no longer exists, which
  the source does not allow its callers, leaves that state as it is.
- SizeTable.AimdoCudaFree: stands for both free hooks, which differ only in their stream argument.
