# CSOPESY scheduler core in Dafny

This project models the core of the CSOPESY operating-system emulator. It covers five parts:

- a memory manager with two modes:
  - flat first-fit blocks that merge with free neighbours when released;
  - paging, with a free-frame list and a frame table;
- a scheduler that runs one of three loop bodies per core: first-come first-served, round robin over flat memory, or round robin over paged memory;
- the process record that the scheduler and the memory manager update in place;
- the configuration loader and its validation chain;
- a process registry that admits named processes and runs a batch loop creating `pNN` processes on a cycle cadence.

The model follows the shape of the C++ code:

- **Classes with fields for the objects the code mutates:**
  - `ProcessRecord.Process`, `Memory.MemoryManager`, `Scheduling.Scheduler`, `Configuration.Config`, and `ProcessRegistry.ProcessManager` with its own `ProcessRegistry.Process`;
  - their methods carry `modifies` frames and state what they change; the scheduler's steps state the new queue, core, memory and process fields case by case, and the lines below name what is not stated;
  - each method is tied to a specification function on values.
- **Pure modules holding those functions and the lemmas about them:**
  - `FlatMemory` for block layouts;
  - `PagingMemory` for frame tables and free lists;
  - `Decimal` for decimal names.
- **Loops that step a counter stay loops:**
  - the instruction loop;
  - the FCFS drain;
  - the tick sampler;
  - the frame-release and frame-grant loops;
  - the configuration token loop;
  - the process listing and the batch loop.

Each such loop carries the invariants that tie it to its function.

Files:

- `Wrappers.dfy`: `Option` and `Outcome`.
- `Decimal.dfy`: decimal digits of a natural number and their value.
- `Process.dfy`: the process record.
- `FlatMemory.dfy`: the flat layout.
- `PagingMemory.dfy`: the frame table.
- `Memory.dfy`: the memory manager class.
- `Config.dfy`: the configuration.
- `Scheduler.dfy`: the scheduler.
- `ProcessManager.dfy`: the registry.

Conventions used throughout:

- **Flat layout invariant** (`FlatMemory.Layout`): the blocks are contiguous and non-empty, they cover `[0, maxMemory-1]`, and no two neighbours are both free.
- **Paging invariant** (`PagingMemory.PagingValid`):
  - the frame table has exactly the keys `1..numFrames`;
  - the free list holds each free frame once, and nothing else;
  - free frames are blank, and owned frames carry a non-empty name.
- **Clock and random inputs:** clock readings (`std::time`) and `rand()` results are parameters (`now`, `startClock`, `r1`, ...).
- **Loop passes:** each pass of a per-core thread loop is one method call.

## Model

| member | source | states |
|---|---|---|
| ProcessRecord.Process.constructor | Process.cpp:3-4 | a new record has the given name, an empty screen name, core -1, all three flags false, zero counters, zero size, no pages and zero start and end times |
| ProcessRecord.Process.SetInstructionsDone | Process.cpp:6-8 | stores its argument unclamped; the frame allows no other field to change |
| ProcessRecord.Process.SetCoreAssigned | Process.cpp:10 | stores the core index and changes nothing else |
| ProcessRecord.Process.SetProcessSize | Process.cpp:12-14 | stores the size and changes nothing else |
| ProcessRecord.Process.SetDone | Process.cpp:16 | stores the done flag and changes nothing else |
| ProcessRecord.Process.SetScreenName | Process.cpp:18-20 | stores the screen name and changes nothing else |
| ProcessRecord.Process.SetRunning | Process.cpp:21 | stores the running flag and changes nothing else |
| ProcessRecord.Process.SetWaiting | Process.cpp:23 | stores the waiting flag and changes nothing else |
| ProcessRecord.Process.SetInstructionsTotal | Process.cpp:25-27 | stores the total and changes nothing else |
| ProcessRecord.SetThenGet | Process.cpp:29-45 | after setting done, total and size, the getters return those values; core, pages, flags, screen name and both times are unchanged |
| FlatMemory.InitialBlocks | MemoryManager.cpp:14-28 | the initial single free block `[0, maxMemory-1]` satisfies the layout invariant whenever maxMemory >= 1 |
| FlatMemory.FirstFit | MemoryManager.cpp:256-264 | the lowest index of a free block of at least the size, every earlier block failing; -1 exactly when no block fits |
| FlatMemory.OwnerIndex | MemoryManager.cpp:204-211 | the first block owned by the name; -1 exactly when no block is |
| FlatMemory.MergeLo | MemoryManager.cpp:190-193 | the run to release starts at the block or at its predecessor |
| FlatMemory.MergeHi | MemoryManager.cpp:194-197 | the run to release ends at the block or at its successor, inside the layout |
| FlatMemory.FragmentationPlusUsageIsMaxMemory | MemoryManager.cpp:295-303 | under the layout invariant, free space plus used space equals maxMemory |
| FlatMemory.TotalsCoverSpan | MemoryManager.cpp:320-325 | over contiguous blocks covering `[lo, hi]`, free plus used is `hi - lo + 1` |
| FlatMemory.FreeTotalAppend | MemoryManager.cpp:297-302 | free space is additive over concatenation |
| FlatMemory.UsedTotalAppend | MemoryManager.cpp:321-325 | used space is additive over concatenation |
| FlatMemory.AllocatedIsSplice | MemoryManager.cpp:167-184 | a successful allocation replaces the first fitting block by the owned block, followed by the free remainder when the fit is not exact |
| FlatMemory.AllocatedPreservesLayout | MemoryManager.cpp:175-181 | allocation of a positive size under a non-empty name keeps the layout invariant |
| FlatMemory.CarveWellFormed | MemoryManager.cpp:175-181 | the owned block and its remainder are contiguous, non-empty and cover the original block's span |
| FlatMemory.AllocatedMovesSize | MemoryManager.cpp:167-184 | with no fit the layout is unchanged; otherwise exactly `size` moves from free to used |
| FlatMemory.DeallocatedPreservesLayout | MemoryManager.cpp:186-202 | releasing keeps the layout invariant |
| FlatMemory.ReleasedPreservesLayout | MemoryManager.cpp:188-199 | freeing one block and merging it with free neighbours keeps the layout invariant |
| FlatMemory.DeallocatedReleasesBlock | MemoryManager.cpp:186-202 | an unknown name changes nothing; otherwise exactly the size of the first owned block moves from used to free |
| FlatMemory.ReleasedTotals | MemoryManager.cpp:188-199 | merging the freed block with its neighbours moves its size from used to free |
| FlatMemory.AllocateThenDeallocateRestores | MemoryManager.cpp:167-202 | for a name that owns nothing, allocating and then releasing restores the original coalesced layout |
| FlatMemory.DeallocateCarved | MemoryManager.cpp:186-202 | releasing a freshly carved block between owned neighbours gives back the block it was carved from |
| FlatMemory.CarvedRelease | MemoryManager.cpp:188-199 | the release run of a carved block is exactly the owned block and its free remainder |
| FlatMemory.FirstOwnerAfter | MemoryManager.cpp:204-211 | the first owner lies after a prefix that the name does not own |
| FlatMemory.FreeNeighboursOwned | MemoryManager.cpp:190-197 | in a coalesced layout, the neighbours of a free block are owned |
| FlatMemory.SpliceLayout | MemoryManager.cpp:174-199 | replacing a run by a well-formed run with the same span keeps the layout invariant when the seams do not join two free blocks |
| FlatMemory.MergedRunTotals | MemoryManager.cpp:188-199 | a run of up to three blocks with one owned block has used space equal to that block |
| FlatMemory.ReplaceRunTotals | MemoryManager.cpp:188-199 | replacing a run by one free block of its span moves the run's used space to free |
| FlatMemory.AsWrittenFlatFreeMemory | MemoryManager.cpp:366-371 | the flat branch as written: one frame size per free block |
| FlatMemory.AsWrittenFlatFreeMemoryMiscounts | MemoryManager.cpp:366-371 | with 100 units as both memory and frame size (the only configuration that runs the flat allocator), allocating 30 units leaves a valid layout with 70 free units, yet the as-written figure is 100 and free plus used exceeds maxMemory |
| PagingMemory.TruncDiv | MemoryManager.cpp:20 | the frame count is C++ truncating division: floor division for non-negative operands, never positive for non-positive dividends |
| PagingMemory.InitialFrames | MemoryManager.cpp:20-27 | the frame table has exactly the keys `1..n`, each a blank frame |
| PagingMemory.InitialFreeList | MemoryManager.cpp:20-27 | the free list is `1, 2, ..., n` in ascending order |
| PagingMemory.InitialPagingValid | MemoryManager.cpp:19-27 | the initial frame table and free list satisfy the paging invariant |
| PagingMemory.Granted | MemoryManager.cpp:49-87 | the frames taken are a prefix of the free list: exactly k of them when the request is admitted, none otherwise |
| PagingMemory.SizeInMem | MemoryManager.cpp:49-80 | a single-page grant records the whole size; a larger grant records the size less one frame, or the whole size when that is negative |
| PagingMemory.Stamped | MemoryManager.cpp:72-75 | stamping adds exactly the granted keys to the table |
| PagingMemory.StampedNone | MemoryManager.cpp:45-47 | stamping no frames changes nothing |
| PagingMemory.StampedSnoc | MemoryManager.cpp:67-87 | stamping one more frame updates just that key |
| PagingMemory.StampedPreservesValid | MemoryManager.cpp:49-87 | granting the first k free frames and stamping them keeps the paging invariant, with the rest of the list still free |
| PagingMemory.NamedKeys | MemoryManager.cpp:106-116 | every listed key is a frame of `1..n` whose name is the given one |
| PagingMemory.NamedKeysComplete | MemoryManager.cpp:106-116 | every frame of `1..n` named so is listed |
| PagingMemory.NamedKeysAscending | MemoryManager.cpp:106-116 | the keys are listed in ascending order, each once |
| PagingMemory.Cleared | MemoryManager.cpp:125-131 | clearing frames keeps the table's keys |
| PagingMemory.ClearedSnoc | MemoryManager.cpp:125-136 | clearing one more frame resets just that key |
| PagingMemory.ClearedPreservesValid | MemoryManager.cpp:118-140 | releasing all of a process's frames keeps the paging invariant |
| PagingMemory.RemoveValue | MemoryManager.cpp:132-135 | erase-remove keeps exactly the other values and never grows the list |
| PagingMemory.RemoveAllMembers | MemoryManager.cpp:125-136 | after releasing the keys, the page list holds exactly the old pages not among them |
| PagingMemory.AllocateThenDeallocateRestoresFree | MemoryManager.cpp:36-140 | for a process that holds nothing, granting k frames and then releasing its frames restores the set of free frames, releases exactly k frames and leaves no frame naming it |
| PagingMemory.ClearedUnnamed | MemoryManager.cpp:118-140 | after a release no frame names the process |
| PagingMemory.GrantedAreNamed | MemoryManager.cpp:67-87 | the frames later found under the name are exactly the granted ones, each once |
| PagingMemory.MembersRequeued | MemoryManager.cpp:125-131 | putting the granted frames back at the end restores the free set |
| PagingMemory.SameMembersSameLength | MemoryManager.cpp:118-140 | duplicate-free lists with the same members have the same length |
| PagingMemory.DistinctPrefix | MemoryManager.cpp:67-70 | a prefix of a duplicate-free list is duplicate-free |
| PagingMemory.DistinctCard | MemoryManager.cpp:118-140 | a duplicate-free list has as many members as entries |
| PagingMemory.FrameCountsSum | MemoryManager.cpp:373-377 | owned frames plus free frames equals the number of frames |
| PagingMemory.FrameCountsUpTo | MemoryManager.cpp:373-377 | the same split holds over every prefix `1..m` of the frames |
| PagingMemory.FreeKeysCount | MemoryManager.cpp:373-377 | the free-frame count is the number of free keys among 1..m |
| PagingMemory.FreeCountIsFreeListLength | MemoryManager.cpp:373-377 | under the paging invariant the table's free frames are exactly as many as the free list's entries |
| PagingMemory.AsWrittenAdmitsOverdraw | MemoryManager.cpp:45-47 | the as-written guard admits every request larger than the free list, which the corrected guard refuses; the grant loop then runs out of free frames |
| PagingMemory.AsWrittenAdmitsTwoOfOne | MemoryManager.cpp:45-47 | a two-page request with one free frame passes the as-written guard but not the corrected one |
| Memory.MemoryManager.constructor | MemoryManager.cpp:14-28 | the configured values are stored, one free block `[0, maxMemory-1]` exists, frames `1..maxMemory/frameSize` are blank and listed ascending as free; both invariants hold |
| Memory.BuildFrameTable | MemoryManager.cpp:20-27 | the constructor's loop builds exactly the initial frame table and free list |
| Memory.MemoryManager.FindFirstFit | MemoryManager.cpp:256-264 | the lowest index of a free block at least processSize long, or -1 when no block is |
| Memory.MemoryManager.AllocateMemory | MemoryManager.cpp:167-184 | reports whether a block fits and applies the first-fit allocation; keeps the layout invariant when the name is non-empty and the size at least 1 |
| Memory.MemoryManager.DeallocateMemory | MemoryManager.cpp:186-202 | frees the first block owned by the name, merges it with free neighbours, and keeps the layout invariant |
| Memory.MemoryManager.FreeAndMerge | MemoryManager.cpp:188-199 | the in-place erase sequence yields exactly the released layout |
| Memory.MemoryManager.IsProcessInMemory | MemoryManager.cpp:204-211 | true exactly when some block is owned by the name |
| Memory.MemoryManager.CalculateExternalFragmentation | MemoryManager.cpp:295-303 | the total size of the free blocks, which with the flat usage adds up to maxMemory under the layout invariant |
| Memory.MemoryManager.GetMemoryUsage | MemoryManager.cpp:316-335 | flat: the sum of the owned block sizes; paged: memPerFrame per owned frame |
| Memory.MemoryManager.GetFreeMemory | MemoryManager.cpp:361-381 | flat: the free space (corrected, see Findings); paged: frameSize per free frame |
| Memory.MemoryManager.PagedMemoryAccounted | MemoryManager.cpp:316-381 | under the paging invariant the free frames the table reports are the free list's entries, and when memPerFrame equals frameSize paged usage plus paged free memory is frameSize times the number of frames |
| Memory.MemoryManager.FindProcessInMap | MemoryManager.cpp:106-116 | the frames named by the process, in ascending key order |
| Memory.MemoryManager.GetFramesOccupiedByProcess | MemoryManager.cpp:418-425 | the number of frames named by the process |
| Memory.MemoryManager.IsProcessInPagingMemory | MemoryManager.cpp:160-165 | true exactly when the process's page list is non-empty |
| Memory.MemoryManager.PagingAllocate | MemoryManager.cpp:36-90 | succeeds exactly when the request is admitted; takes the first k free frames in order, stamps them, appends them to the process's pages, adds k to pagedIns, and keeps the paging invariant |
| Memory.MemoryManager.TakeFrontFrames | MemoryManager.cpp:67-87 | the grant loop removes the first `count` free frames, stamps each, and records them in order |
| Memory.MemoryManager.TakeFrontFrame | MemoryManager.cpp:49-64 | one grant: the front free frame is removed, stamped and appended to the process's pages |
| Memory.MemoryManager.PagingDeallocate | MemoryManager.cpp:118-140 | fails exactly when the process owns no frame; otherwise resets each owned frame, appends it to the free list, removes it from the pages and adds the count to pagedOuts; keeps the paging invariant when the process name is non-empty |
| Memory.MemoryManager.ReleaseFrames | MemoryManager.cpp:125-137 | the release loop clears each listed frame, appends it to the free list and removes it from the pages |
| Memory.MemoryManager.ReleaseFrame | MemoryManager.cpp:126-136 | one release: the frame is reset, appended to the free list and erased from the pages |
| Memory.MemoryManager.GetOldestProcessInFrameMap | MemoryManager.cpp:92-104 | the owner of an owned frame with the smallest timestamp before `now` whose owner is not running, the first such key on ties; None when there is no such frame |
| Memory.SnocPrefix | MemoryManager.cpp:67-70 | the frames taken after i + 1 grants are those after i grants plus the next one |
| Memory.InsertedBefore | MemoryManager.cpp:177-181 | inserting the owned block before the shrunk remainder is the carve splice |
| Memory.FreedInPlace | MemoryManager.cpp:188 | clearing the name in place is the release of a one-block run |
| Memory.MergedWithPrevious | MemoryManager.cpp:190-193 | merging into a free predecessor is the release of a run starting there |
| Memory.ReleasedShape | MemoryManager.cpp:190-197 | a release shortens the layout by the merged blocks and shifts the rest |
| Memory.MergedWithNext | MemoryManager.cpp:194-197 | merging a free successor extends the released run by one block |
| Configuration.Apply | Config.cpp:25-59 | one token sets exactly its key's field to its converted value |
| Configuration.FirstUnknown | Config.cpp:60-63 | the index of the first token whose key is not one of the seven; -1 exactly when all are known |
| Configuration.ReadPrefix | Config.cpp:23-64 | the tokens read before the loop stops are a known prefix of the file |
| Configuration.FirstMissing | Config.cpp:13-73 | None exactly when every required key was seen; otherwise a required key that was not seen, and every required key before it in the map's alphabetical order was seen |
| Configuration.FirstMissingFrom | Config.cpp:67-73 | the scan of the remaining required keys finds the first one that was not seen, or none exactly when all were seen |
| Configuration.NoneMissingIff | Config.cpp:67-73 | no required key is reported missing exactly when every known key was seen |
| Configuration.ValidateAcceptsIff | Config.cpp:79-115 | validation passes exactly when every range condition holds |
| Configuration.ValidateReportsFirstFailure | Config.cpp:81-114 | each of the six range errors is reported exactly when every earlier check passed and its own check fails; any error reported is one of the seven, carrying the offending value |
| Configuration.DelaysCheckNeverFails | Config.cpp:111-114 | the delays check can never fire, because the field is unsigned |
| Configuration.LastWins | Config.cpp:25-59 | a repeated key takes the value of its last occurrence |
| Configuration.UnmentionedKeyUnchanged | Config.cpp:23-64 | a key the file never mentions keeps its previous value |
| Configuration.LoadRejectsUnknown | Config.cpp:7-64 | a file that cannot be opened is rejected; otherwise a file with an unknown key is rejected naming the first one, with only the tokens before it applied |
| Configuration.LoadRejectsMissing | Config.cpp:67-73 | a file with only known keys that omits a required key is rejected naming a key it omits |
| Configuration.LoadAcceptsIff | Config.cpp:5-77 | loading succeeds exactly when all keys are known, all seven are present and the settings validate |
| Configuration.LoadForgetsStart | Config.cpp:23-64 | a key the file mentions does not depend on the value held before loading |
| Configuration.Config.constructor | headers/Config.h:40 | a new configuration is not initialised |
| Configuration.Config.LoadConfig | Config.cpp:5-77 | reports the load outcome, stores the known prefix, and sets `initialized` only when loading and validation both succeed |
| Configuration.Config.Store | Config.cpp:25-59 | storing a token changes exactly its field and leaves `initialized` alone |
| Configuration.Config.ValidateParameters | Config.cpp:79-115 | the first failing check, or Pass exactly when the stored settings are valid |
| Configuration.FindMissing | Config.cpp:67-73 | the loop over the required keys finds the first key that was not seen |
| Configuration.AppendedPrefix | Config.cpp:23-28 | reading one more token extends the prefix and the set of seen keys by it |
| Configuration.FirstUnknownAt | Config.cpp:60-63 | the first unknown key is found where the loop stops |
| Scheduling.AfterQuantum | Scheduler.cpp:167-179 | a quantum at least 1 makes progress, never passes the total, and completes exactly when the remaining work fits in one quantum |
| Scheduling.QuantaAccumulate | Scheduler.cpp:167-179 | n quanta execute `min(total, done + n * quantum)` instructions in all |
| Scheduling.QuantaToCompletion | Scheduler.cpp:167-200 | a process finishes after exactly ceil((total - done) / quantum) quanta, and not before |
| Scheduling.CeilDivBounds | Scheduler.cpp:226-228 | ceiling division is the least multiple count covering the dividend |
| Scheduling.PageRequest | Scheduler.cpp:226-228 | the page request is the least number of frames whose total reaches the process size |
| Scheduling.ChoosePolicy | Scheduler.cpp:359-370 | FCFS starts exactly for "fcfs"; "rr" starts flat RR when the whole memory is one frame and paged RR otherwise; any other name starts no loop |
| Scheduling.ValidConfigChoosesPolicy | Scheduler.cpp:359-370 | every validated configuration starts some loop, FCFS exactly for "fcfs", and flat RR exactly when the memory sizes match |
| Scheduling.GeneratedInRange | Scheduler.cpp:59-69 | for every r >= 0, `r % (hi - lo + 1) + lo` lies in `[lo, hi]` |
| Scheduling.DummyNamesDistinct | Scheduler.cpp:57-81 | different counters give different dummy names |
| Scheduling.RunningCores | Scheduler.cpp:378-384 | never more running cores than cores |
| Scheduling.BuildCores | Scheduler.cpp:30-37 | numCores cores, core i with index i, idle and empty |
| Scheduling.ExecuteInstructions | Scheduler.cpp:110-114 | the instruction loop leaves the count at `executed + count`, or unchanged when count <= 0 |
| Scheduling.RunOnCore | Scheduler.cpp:160-179 | the process is put on the core, runs one quantum, and gets its start time only on its first run |
| Scheduling.Scheduler.constructor | Scheduler.cpp:14-38 | the configuration is stored, cores are idle and empty with matching indices, the delay is `(delays + 1) * 100`, queues and counters are empty, and the memory manager is fresh with both invariants |
| Scheduling.Scheduler.AddProcessToReadyQueue | Scheduler.cpp:40-46 | appends at the tail of the ready queue |
| Scheduling.Scheduler.AddCustomProcess | Scheduler.cpp:48-55 | appends to the ready queue and to the process list |
| Scheduling.Scheduler.GenerateDummyProcess | Scheduler.cpp:57-81 | the next numbered process, waiting, with an instruction count and size inside the configured ranges, appended to both lists |
| Scheduling.Scheduler.FcfsStep | Scheduler.cpp:95-122 | the front process runs its whole count on this core, is marked done and appended to the finished list; the core is left idle; an empty queue changes nothing |
| Scheduling.Scheduler.RunFcfsScheduler | Scheduler.cpp:83-124 | draining the queue on one core finishes the processes in exactly their queue order, each marked done with its whole count run |
| Scheduling.Scheduler.Select | Scheduler.cpp:127-146 | a core keeps its own process or takes the queue front |
| Scheduling.Scheduler.RequeueRefused | Scheduler.cpp:154-156 | a refused process goes to the queue tail and the core drops it |
| Scheduling.Scheduler.RunQuantum | Scheduler.cpp:160-200 | one quantum; the process then finishes, or is preempted to the tail when others wait, or keeps the core |
| Scheduling.Scheduler.Retire | Scheduler.cpp:181-189 | the finished process is marked done, the core is idled, and the process joins the finished list |
| Scheduling.Scheduler.Preempt | Scheduler.cpp:191-198 | the process is marked waiting, the core is idled, and the process is requeued at the tail |
| Scheduling.Scheduler.FlatGate | Scheduler.cpp:151-157 | a resident process passes; any other passes exactly when first fit succeeds, and its block is then allocated |
| Scheduling.Scheduler.RrStep | Scheduler.cpp:126-202 | a blocked core changes no queue, core, finished list or block; a refused process runs no instruction and is requeued with cores and blocks unchanged; otherwise exactly one quantum runs, followed by finish with its block released, preemption, or continuation; after finish or preemption the core is idle with no process, after continuation it runs the process; a refused process keeps its status fields, and otherwise it is assigned to the core and is then done, not running and stamped with the end time after finish, waiting and not running after preemption, and running and not waiting after continuation; the layout invariant is kept when the selected process has a non-empty name and a size of at least 1 |
| Scheduling.Scheduler.FlatDispatch | Scheduler.cpp:147-200 | gate, quantum and release for a selected process: refused exactly when it holds no block and first fit fails, with the same case-by-case queue, core, block and process-status state as the step |
| Scheduling.Scheduler.PagingGate | Scheduler.cpp:222-236 | a process holding pages passes with the frame state unchanged; any other requests ceil(size / frameSize) pages, passes exactly when they are admitted, and its grant leaves the free list, is stamped into the table, joins its pages and is added to pagedIns |
| Scheduling.Scheduler.PagingRrStep | Scheduler.cpp:204-298 | as for the flat step with the paged gate: a blocked or refused process leaves the free list, the frame table, the pages and both paging counters unchanged; otherwise the grant and, on finish, the release of the frames the table names for it are stated exactly (free list, table, pages, pagedIns, pagedOuts), the core is idle after finish or preemption and running after continuation, the process status fields follow as in the flat step, and a finished process leaves no frame naming it; the paging invariant is kept when the selected process has a non-empty name |
| Scheduling.Scheduler.PagingDispatch | Scheduler.cpp:222-296 | gate, quantum and release for a selected process, with the same case-by-case queue, core, frame and process-status state as the step |
| Scheduling.Scheduler.PagingRun | Scheduler.cpp:251-296 | one quantum, then the core and process-status state of finish (done, not running, end time), preemption (waiting, not running) or continuation (running, not waiting), and on finish the release of the frames the table names for the process |
| Scheduling.Scheduler.ReleasePages | Scheduler.cpp:279-282 | every frame the table names for the finished process is reset, returned to the free list and removed from its pages, pagedOuts grows by their count, and none names it afterwards |
| Scheduling.Scheduler.CountCoreTicks | Scheduler.cpp:378-384 | each running core adds an active tick, every other core an idle tick |
| Scheduling.Scheduler.GenerateReportPerCycle | Scheduler.cpp:375-394 | over any number of samples the two tick counters together grow by numCores per sample, and the snapshot index advances by quantumCycles per sample |
| ProcessRegistry.Process.constructor | ProcessManager.cpp:16 | the new record carries the given id and name |
| ProcessRegistry.Admission | ProcessManager.cpp:11-14 | admission passes exactly for a non-empty new name; an empty name and a taken name are reported as such |
| ProcessRegistry.CpuUtilization | ProcessManager.cpp:45 | `active * 100 / totalCores` in integer division: the floor of the percentage, within `[0, 100]` when active is at most the core count, and 100 when every core is active |
| ProcessRegistry.UtilizationBounds | ProcessManager.cpp:45 | the truncated quotient brackets `active * 100` between two consecutive multiples of the core count |
| ProcessRegistry.UtilizationAtMostHundred | ProcessManager.cpp:45 | utilisation never exceeds 100 while active is at most the core count |
| ProcessRegistry.AvailableCores | ProcessManager.cpp:47 | used plus available is the core count |
| ProcessRegistry.PaddedNameShape | ProcessManager.cpp:95 | a generated name is 'p' and at least two digits whose value is the counter; it is exactly three long below 100 |
| ProcessRegistry.PaddedNameInjective | ProcessManager.cpp:95 | different counters give different names |
| ProcessRegistry.BatchPass | ProcessManager.cpp:92-101 | when the cadence is due the counter advances; a process is created, and the last cycle moved, only for a name not yet taken |
| ProcessRegistry.BatchRunCreatesFreshNames | ProcessManager.cpp:88-109 | over any run, every created name was new and is created once, and the table gains exactly the created names |
| ProcessRegistry.ProcessManager.constructor | headers/ProcessManager.h:28 | an empty table with next id 1 and no batch loop running |
| ProcessRegistry.ProcessManager.GenerateProcess | ProcessManager.cpp:9-21 | empty or taken names are refused with no change; otherwise the process gets the old next id, the id advances by one, and the process is stored and handed on |
| ProcessRegistry.ProcessManager.GenerateProcessName | ProcessManager.cpp:112-117 | 'p' and the next id, zero-padded to two digits |
| ProcessRegistry.ProcessManager.GetProcess | ProcessManager.cpp:23-28 | the stored process exactly when the name is in the table, and None otherwise |
| ProcessRegistry.ProcessManager.ListProcesses | ProcessManager.cpp:30-47 | the number of RUNNING processes, their utilisation and the cores left |
| ProcessRegistry.ProcessManager.RunningAmongAdd | ProcessManager.cpp:38-42 | the counting loop adds one exactly for each running process |
| ProcessRegistry.ProcessManager.StartBatch | ProcessManager.cpp:58-68 | refuses an uninitialised configuration without change; otherwise sets the flag, starting a loop only when none was active |
| ProcessRegistry.ProcessManager.StopBatch | ProcessManager.cpp:70-80 | the flag is cleared |
| ProcessRegistry.ProcessManager.BatchLoop | ProcessManager.cpp:82-110 | the loop ends in the state of the batch-run function, starting from counter 1 and the entry reading; existing entries are unchanged, and the j-th created name is in the table, handed off in order with id nextPID + j |
| ProcessRegistry.ProcessManager.BatchStep | ProcessManager.cpp:90-107 | one pass ends in the state of the batch-pass function; existing entries are unchanged and a creation extends the record of created names, hand-offs and ids |
| ProcessRegistry.CreatedSnoc | ProcessManager.cpp:98-101 | a creation under a name the table did not hold extends the record of created processes by that name, with the next id |
| Decimal.DigitRoundTrip | ProcessManager.cpp:95 | a digit character reads back as its digit |
| Decimal.ValueOfDigits | ProcessManager.cpp:95 | the decimal rendering of n reads back as n |
| Decimal.DigitsInjective | Scheduler.cpp:66 | different numbers render differently |
| Decimal.DigitsShape | ProcessManager.cpp:95 | the rendering is all digits and has no leading zero except for 0, with one digit below 10 and two below 100 |

## Left out

- Threads, mutexes, condition variables and sleeps are left out. Each pass of a per-core loop is one method call, and a waiting core is the `Blocked` result. Wake-ups, interleavings and the `threadsContinue` / `schedulerTestRunning` flags are not modelled.
- The batch thread's 50 ms sleep is left out; the loop ends when its sequence of cycle readings is exhausted.
- File and console output is left out: memory reports, backing-store writes, visualisation, the `taskManager` status loop, the printing in the process listing, `displayConfig`. It has no effect on the modelled state.
- `getMemoryUtil` is left out because it computes a floating-point percentage.
- The page count `std::ceil` over doubles is modelled as exact integer ceiling division.
- Clock readings and `rand()` are parameters. The FCFS drain takes one clock value for every start and end time.
- Console, Marquee, the print and log commands, the time-stamp helpers and the singleton accessors are not part of this model.
- `Memory.MemoryManager.GetOldestProcessInFrameMap` considers owned frames only. As written, the source dereferences the null owner of a free frame.
- The order in which `unordered_map` iterates is not modelled. Frame scans run in ascending key order, so a reported tie is the lowest key.
- Memory frames are keyed `1..numFrames` as the constructor creates them. Keys outside that range never arise.
- `Scheduling.Scheduler.Select`: the null check on the queue front is not modelled, because the queue holds processes, never null.
- `maxMemoryPerProcess` is declared on the memory manager but never assigned by its constructor, so the model does not store it there. The scheduler keeps the configured value.
- Configuration tokens arrive already read. A token holds the key, the word for `scheduler`, and the number for the others, stored modulo 2^32 as `uint32_t` extraction does. Stream failures on malformed numbers are not modelled.
- `Configuration.FirstMissing` reports the first missing key in the map's alphabetical order, as the `std::map` loop does.
- The registry keeps its own process record with id, name and state. Handing a process to the scheduler is recorded in a log (`handedOff`), because that scheduler revision is not part of this model.
- The batch loop's frequency is compared as an unbounded value. The configuration supplies it as an unsigned 32-bit number, so it is never negative.
- Integer overflow of the C++ `int` counters (`nextPID`, `instructionsDone`, the tick counters) is not modelled; they are unbounded.
- The scheduler reads its settings from a configuration revision that is not part of this model (`getScheduler`, `getNumCpu`, `getMaxOverallMemory`, `getMemoryPerFrame` and the per-process memory bounds at Scheduler.cpp:16-26), while headers/Config.h:24-30 has only `getNumCPU` and `getSchedulerType` and no memory keys. The scheduler's settings are therefore constructor parameters, and Scheduling.ValidConfigChoosesPolicy assumes that revision checks the scheduler name as Config.cpp:86-89 does.
- The unknown-algorithm path in `bootStrapthreads` dereferences a thread it never created. Here it is `Scheduling.ChoosePolicy` returning None.
- Memory.MemoryManager.constructor requires a non-zero frame size; the source divides `maxMemory / frameSize` unguarded (MemoryManager.cpp:20), so a zero frame size has no defined outcome to model.
- PagingMemory.TruncDiv requires a non-zero divisor for the same reason.
- Scheduling.Scheduler.constructor requires a non-zero memory per frame, which becomes the manager's frame size (Scheduler.cpp:16-19) and so reaches that same division.
- Scheduling.PageRequest requires a non-zero frame size; the source divides by it unguarded (Scheduler.cpp:226-228).
- Scheduling.Scheduler.GenerateDummyProcess requires non-zero ranges `maxIns - minIns + 1` and `maxMem - minMem + 1`, the divisors of its unguarded `%` (Scheduler.cpp:59-64).
- ProcessRegistry.CpuUtilization and ProcessRegistry.ProcessManager.ListProcesses require a non-zero core count, the divisor of `activeCount * 100 / totalCores` (ProcessManager.cpp:45).
- Memory.MemoryManager.AllocateMemory keeps the layout invariant only for a size of at least 1 and a non-empty name. A size-0 request that first fit places in a larger block inserts the empty block `[s, s-1]` (MemoryManager.cpp:175-181), and an empty name leaves the block looking free; the model computes that layout but does not claim the invariant for it. The same conditions carry over to Scheduling.Scheduler.FlatGate and Scheduling.Scheduler.RrStep.
- Memory.MemoryManager.PagingDeallocate, Scheduling.Scheduler.ReleasePages and Scheduling.Scheduler.PagingRrStep keep the paging invariant only for a non-empty process name: free frames carry the empty name, so a release under it would list those frames in the free list a second time.
- Memory.MemoryManager.IsProcessInPagingMemory reads residency from the process's own page list, as the source does; that the list agrees with the frames the table names for the process is not stated.

## Findings

| source | as written | input that shows it | evidently intended | confidence | as-written member | corrected member |
|---|---|---|---|---|---|---|
| MemoryManager.cpp:45-47 | `pagingAllocate` refuses a request only when the free list is empty, then takes `processPageReq` frames from its front | one free frame and a request for two pages: the guard passes, and the second grant reads `front()` of an empty list | refuse a request for more frames than are free | not executed | PagingMemory.AsWrittenAdmitsOverdraw | Memory.MemoryManager.PagingAllocate |
| MemoryManager.cpp:366-371 | the flat branch of `getFreeMemory` adds `frameSize` for every free block | flat mode runs only when frameSize equals maxMemory: with 100 units of each, one allocation of 30 units leaves 70 free units, yet 100 are reported and free plus used is 130 | the sum of the free block sizes, as `getMemoryUsage` sums the owned ones | not executed; `getMemoryUtil` uses the same per-block charge | FlatMemory.AsWrittenFlatFreeMemoryMiscounts | Memory.MemoryManager.GetFreeMemory |
